/**
 One motor panel (`QDCWidget`), reduced to the state the controller reads and
 writes: the PWM slider position, the value the PWM label was last set from,
 the displayed current in milliamperes, and the two limit-switch indicators.
 Styles, glyphs, titles and shortcuts are presentation only and are not kept.
 */
module DCWidget {

  datatype Widget = Widget(
    slider: int,        // position of the PWM slider (the commanded duty value)
    pwmShown: int,      // value the PWM percentage label was last computed from
    current: int,       // milliamperes shown by the current label
    leftLimit: bool,    // left limit-switch indicator lit
    rightLimit: bool    // right limit-switch indicator lit
  )

  /** Signals a panel emits towards whoever is connected to it. */
  datatype Signal = PwmValue(value: int) | EmergencyClicked

  /** The safe state: motor commanded to stop, nothing displayed as active. */
  const SafeWidget := Widget(0, 0, 0, false, false)

  predicate IsSafe(w: Widget) {
    w.slider == 0 && w.current == 0 && !w.leftLimit && !w.rightLimit
  }

  /** The value the command frame is built from. */
  function GetPwmValue(w: Widget): int {
    w.slider
  }

  /** Refreshes the PWM label; only the value it is computed from is modelled. */
  function SetPwmValue(w: Widget, newValue: int): (r: Widget)
    ensures r.pwmShown == newValue
    ensures GetPwmValue(r) == GetPwmValue(w)
    ensures r.current == w.current && r.leftLimit == w.leftLimit && r.rightLimit == w.rightLimit
  {
    w.(pwmShown := newValue)
  }

  function SetCurrent(w: Widget, mAmps: int): (r: Widget)
    ensures r.current == mAmps
    ensures GetPwmValue(r) == GetPwmValue(w) && r.pwmShown == w.pwmShown
    ensures r.leftLimit == w.leftLimit && r.rightLimit == w.rightLimit
  {
    w.(current := mAmps)
  }

  function SetLeftLimitSwitchState(w: Widget, state: bool): (r: Widget)
    ensures r.leftLimit == state && r.rightLimit == w.rightLimit
    ensures GetPwmValue(r) == GetPwmValue(w) && r.current == w.current && r.pwmShown == w.pwmShown
  {
    w.(leftLimit := state)
  }

  function SetRightLimitSwitchState(w: Widget, state: bool): (r: Widget)
    ensures r.rightLimit == state && r.leftLimit == w.leftLimit
    ensures GetPwmValue(r) == GetPwmValue(w) && r.current == w.current && r.pwmShown == w.pwmShown
  {
    w.(rightLimit := state)
  }

  /** Stops the motor: label, current display and slider all go to the stop value. */
  function EmergencyHalt(w: Widget): (r: Widget)
    ensures GetPwmValue(r) == 0 && r.pwmShown == 0 && r.current == 0
    ensures r.leftLimit == w.leftLimit && r.rightLimit == w.rightLimit
  {
    var stopValue := 0;
    var labelled := SetCurrent(SetPwmValue(w, stopValue), 0);
    labelled.(slider := stopValue)
  }

  /** Clears both indicators, then halts: the result no longer depends on `w`. */
  function SetDefaultView(w: Widget): (r: Widget)
    ensures r == SafeWidget
  {
    EmergencyHalt(SetRightLimitSwitchState(SetLeftLimitSwitchState(w, false), false))
  }

  /** The operator moved the slider to `value`: the label follows and `pwmValue` is emitted. */
  function OnSliderValueChanged(w: Widget, value: int): (r: (Widget, seq<Signal>))
    ensures GetPwmValue(r.0) == value && r.0.pwmShown == value
    ensures r.0.current == w.current && r.0.leftLimit == w.leftLimit && r.0.rightLimit == w.rightLimit
    ensures r.1 == [PwmValue(value)]
  {
    (SetPwmValue(w.(slider := value), value), [PwmValue(value)])
  }

  /** The emergency-stop button: halt, then emit `emergencyClicked` once. */
  function OnEmergencyStopClicked(w: Widget): (r: (Widget, seq<Signal>))
    ensures r.0 == EmergencyHalt(w)
    ensures GetPwmValue(r.0) == 0
    ensures multiset(r.1)[EmergencyClicked] == 1 && |r.1| == 1
  {
    (EmergencyHalt(w), [EmergencyClicked])
  }

  /** Halting a halted motor changes nothing. */
  lemma EmergencyHaltIdempotent(w: Widget)
    ensures EmergencyHalt(EmergencyHalt(w)) == EmergencyHalt(w)
  {
  }

  /** Applying the default view twice is the same as applying it once. */
  lemma SetDefaultViewIdempotent(w: Widget)
    ensures SetDefaultView(SetDefaultView(w)) == SetDefaultView(w)
  {
  }

  /** Halting and setting an indicator act on disjoint parts of the panel. */
  lemma HaltCommutesWithLimitSwitches(w: Widget, left: bool, right: bool)
    ensures EmergencyHalt(SetLeftLimitSwitchState(w, left)) == SetLeftLimitSwitchState(EmergencyHalt(w), left)
    ensures EmergencyHalt(SetRightLimitSwitchState(w, right)) == SetRightLimitSwitchState(EmergencyHalt(w), right)
  {
  }

  /** The two indicators are independent, and the last write to one wins. */
  lemma LimitSwitchesIndependent(w: Widget, a: bool, b: bool)
    ensures SetLeftLimitSwitchState(SetRightLimitSwitchState(w, a), b)
         == SetRightLimitSwitchState(SetLeftLimitSwitchState(w, b), a)
    ensures SetLeftLimitSwitchState(SetLeftLimitSwitchState(w, a), b) == SetLeftLimitSwitchState(w, b)
    ensures SetRightLimitSwitchState(SetRightLimitSwitchState(w, a), b) == SetRightLimitSwitchState(w, b)
  {
  }

  /** `getPwmValue` reads back the slider: the last position the operator chose, 0 after a halt,
      and unaffected by the indicator and current displays. */
  lemma PwmReadBack(w: Widget, value: int, mAmps: int, state: bool)
    ensures GetPwmValue(OnSliderValueChanged(w, value).0) == value
    ensures GetPwmValue(EmergencyHalt(w)) == 0
    ensures GetPwmValue(SetCurrent(w, mAmps)) == GetPwmValue(w)
    ensures GetPwmValue(SetLeftLimitSwitchState(w, state)) == GetPwmValue(w)
    ensures GetPwmValue(SetRightLimitSwitchState(w, state)) == GetPwmValue(w)
  {
  }
}
