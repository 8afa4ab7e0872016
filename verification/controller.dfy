/**
 The main window's connection controller: a single-threaded state machine that
 reacts to one event at a time. Every event handler of the window becomes one
 case of `Step`; Qt timers become the abstract events `SettleFired` (the
 single-shot scheduled by a connect) and `Tick` (the periodic command timer),
 and the operating system's port enumeration becomes an event argument.
 */
module Controller {
  import opened DCWidget
  import opened Telemetry
  import opened Wrappers
  import opened CommandFrame

  datatype MotorId = Motor1 | Motor2 | Motor3

  /** The three motor panels, in the order the command frame lists them. */
  datatype Motors = Motors(m1: Widget, m2: Widget, m3: Widget) {

    function Get(id: MotorId): Widget {
      match id
      case Motor1 => m1
      case Motor2 => m2
      case Motor3 => m3
    }

    function With(id: MotorId, w: Widget): (r: Motors)
      ensures r.Get(id) == w
      ensures forall other :: other != id ==> r.Get(other) == Get(other)
    {
      match id
      case Motor1 => this.(m1 := w)
      case Motor2 => this.(m2 := w)
      case Motor3 => this.(m3 := w)
    }
  }

  predicate AllSafe(ms: Motors) {
    forall id :: IsSafe(ms.Get(id))
  }

  datatype State = State(
    connected: bool,          // the window's `isConnected` flag
    timerRunning: bool,       // the periodic command timer is active
    pendingSettles: nat,      // single-shot settle timers scheduled and not yet fired
    reloadEnabled: bool,      // the reload (rescan) button is enabled
    ports: seq<string>,       // the entries of the port selection box, in order
    linkOpen: bool,           // the serial link is open
    motors: Motors
  )

  /** What the window sends out: bytes to the link, or a timed status-bar message. */
  datatype Output = Write(bytes: string) | Status(message: string)

  datatype Event =
    | ConnectClicked(openOk: bool)          // `openOk`: whether opening the selected port succeeded
    | ReloadClicked(available: seq<string>) // the ports the system lists at that moment
    | SerialError(available: seq<string>)   // the link closed on an error; ports listed afterwards
    | SettleFired                           // a pending settle single-shot fires
    | Tick                                  // the command timer fires
    | LineRead(telemetry: TelemetryRecord)
    | SliderMoved(motor: MotorId, value: int)
    | EmergencyStopClicked(motor: MotorId)

  datatype Reaction = Reaction(state: State, outputs: seq<Output>)

  /** The reload button is enabled exactly while disconnected, and the
      connected flag is only ever raised together with an open link. */
  predicate Inv(s: State) {
    s.reloadEnabled == !s.connected && (s.connected ==> s.linkOpen)
  }

  /** The window just after construction, given the ports the system lists then. */
  function Init(available: seq<string>): (s: State)
    ensures Inv(s) && !s.connected && !s.timerRunning && s.pendingSettles == 0
    ensures s.ports == available && !s.linkOpen && AllSafe(s.motors)
  {
    var blank := State(false, false, 0, true, [], false, Motors(SafeWidget, SafeWidget, SafeWidget));
    ScanForSerialDevices(blank, available)
  }

  /** The port box filled one entry at a time, as the enumeration loop does. */
  function AddItems(items: seq<string>, ports: seq<string>): seq<string>
    decreases |ports|
  {
    if |ports| == 0 then items else AddItems(items + [ports[0]], ports[1..])
  }

  lemma {:induction false} AddItemsAppends(items: seq<string>, ports: seq<string>)
    ensures AddItems(items, ports) == items + ports
    decreases |ports|
  {
    if |ports| > 0 {
      AddItemsAppends(items + [ports[0]], ports[1..]);
      assert items + [ports[0]] + ports[1..] == items + ports;
    }
  }

  /** Clears the port box and lists exactly the available ports, in order. */
  function ScanForSerialDevices(s: State, available: seq<string>): (r: State)
    ensures r.ports == available
    ensures r == s.(ports := available)
  {
    AddItemsAppends([], available);
    s.(ports := AddItems([], available))
  }

  function SetDefaultViews(ms: Motors): (r: Motors)
    ensures AllSafe(r)
  {
    Motors(SetDefaultView(ms.m1), SetDefaultView(ms.m2), SetDefaultView(ms.m3))
  }

  /** Records the new connection state, puts every motor in its safe default, and either
      schedules the delayed timer start or stops the timer. A connect does not touch a
      timer that is already running, and nothing cancels an earlier settle. */
  function SetConnectionState(s: State, state: bool): (r: State)
    ensures r.connected == state && r.reloadEnabled == !state
    ensures AllSafe(r.motors)
    ensures state ==> r.timerRunning == s.timerRunning && r.pendingSettles == s.pendingSettles + 1
    ensures !state ==> !r.timerRunning && r.pendingSettles == s.pendingSettles
    ensures r.ports == s.ports && r.linkOpen == s.linkOpen
  {
    var s' := s.(connected := state, motors := SetDefaultViews(s.motors));
    if state then
      s'.(reloadEnabled := false, pendingSettles := s.pendingSettles + 1)
    else
      s'.(reloadEnabled := true, timerRunning := false)
  }

  /** The connect/disconnect button. While disconnected it tries to open the selected
      port and connects only if that worked; while connected it disconnects, then closes
      the link. */
  function OnConnectClicked(s: State, openOk: bool): (r: State)
    ensures !s.connected && !openOk ==> r == s
    ensures !s.connected && openOk ==>
              && r.connected && r.linkOpen && !r.reloadEnabled
              && r.timerRunning == s.timerRunning
              && r.pendingSettles == s.pendingSettles + 1
              && AllSafe(r.motors) && r.ports == s.ports
    ensures s.connected ==>
              && !r.connected && !r.linkOpen && !r.timerRunning && r.reloadEnabled
              && r.pendingSettles == s.pendingSettles
              && AllSafe(r.motors) && r.ports == s.ports
  {
    if !s.connected then
      if openOk then SetConnectionState(s.(linkOpen := true), true) else s
    else
      SetConnectionState(s, false).(linkOpen := false)
  }

  /** The reload button rescans the ports, but only while disconnected. */
  function OnReloadClicked(s: State, available: seq<string>): (r: State)
    ensures s.connected ==> r == s
    ensures !s.connected ==> r.ports == available && r == s.(ports := available)
  {
    if s.connected then s else ScanForSerialDevices(s, available)
  }

  /** The link reported an error: disconnect and rescan the ports. No close is issued
      here, so the link keeps whatever state it had when the error was reported. */
  function OnSerialError(s: State, available: seq<string>): (r: State)
    ensures !r.connected && !r.timerRunning && r.reloadEnabled
    ensures AllSafe(r.motors)
    ensures r.ports == available
    ensures r.linkOpen == s.linkOpen && r.pendingSettles == s.pendingSettles
  {
    ScanForSerialDevices(SetConnectionState(s, false), available)
  }

  /** A settle single-shot fires and starts the command timer, whatever the connection
      state is by then. */
  function OnSettleFired(s: State): (r: State)
    ensures s.pendingSettles > 0 ==> r.timerRunning && r.pendingSettles == s.pendingSettles - 1
    ensures s.pendingSettles > 0 ==> r.connected == s.connected && r.motors == s.motors && r.linkOpen == s.linkOpen
    ensures s.pendingSettles > 0 ==> r.ports == s.ports && r.reloadEnabled == s.reloadEnabled
    ensures s.pendingSettles == 0 ==> r == s
  {
    if s.pendingSettles == 0 then s
    else s.(timerRunning := true, pendingSettles := s.pendingSettles - 1)
  }

  /** The command timer fires: one frame carrying the three slider values, in motor order. */
  function OnTick(s: State): (out: seq<Output>)
    ensures !s.timerRunning ==> out == []
    ensures s.timerRunning ==>
              && out == [Write(Frame(GetPwmValue(s.motors.m1), GetPwmValue(s.motors.m2), GetPwmValue(s.motors.m3)))]
              && DecodeFrame(out[0].bytes)
                 == Some((GetPwmValue(s.motors.m1), GetPwmValue(s.motors.m2), GetPwmValue(s.motors.m3)))
  {
    if !s.timerRunning then []
    else
      var mot1 := GetPwmValue(s.motors.m1);
      var mot2 := GetPwmValue(s.motors.m2);
      var mot3 := GetPwmValue(s.motors.m3);
      FrameRoundTrip(mot1, mot2, mot3);
      [Write(Frame(mot1, mot2, mot3))]
  }

  /** A telemetry line: one status message per raised driver error flag, nothing else. */
  function OnLineRead(t: TelemetryRecord): (out: seq<Output>)
    ensures multiset(out)[Status(Driver1Error)] == (if Field(t, "err1") != 0 then 1 else 0)
    ensures multiset(out)[Status(Driver2Error)] == (if Field(t, "err2") != 0 then 1 else 0)
    ensures forall k :: 0 <= k < |out| ==> out[k] == Status(Driver1Error) || out[k] == Status(Driver2Error)
    ensures |out| == 2 ==> out[0] == Status(Driver1Error)
  {
    var msgs := DriverErrorMessages(t);
    var out := seq(|msgs|, k requires 0 <= k < |msgs| => Status(msgs[k]));
    assert forall k :: 0 <= k < |out| ==> out[k] == Status(msgs[k]);
    StatusCount(msgs, out, Driver1Error);
    StatusCount(msgs, out, Driver2Error);
    out
  }

  lemma {:induction false} StatusCount(msgs: seq<string>, out: seq<Output>, m: string)
    requires |out| == |msgs| && forall k :: 0 <= k < |out| ==> out[k] == Status(msgs[k])
    ensures multiset(out)[Status(m)] == multiset(msgs)[m]
    decreases |msgs|
  {
    if |msgs| > 0 {
      var n := |msgs| - 1;
      assert msgs == msgs[..n] + [msgs[n]];
      assert out == out[..n] + [out[n]];
      StatusCount(msgs[..n], out[..n], m);
    }
  }

  /** One event, handled to completion before the next. */
  function Step(s: State, e: Event): (r: Reaction)
    ensures Inv(s) ==> Inv(r.state)
    ensures !e.Tick? && !e.LineRead? ==> r.outputs == []
    ensures e.Tick? || e.LineRead? ==> r.state == s
    ensures e.SliderMoved? ==> r.state == s.(motors := r.state.motors)
    ensures e.SliderMoved? ==> GetPwmValue(r.state.motors.Get(e.motor)) == e.value
    ensures e.EmergencyStopClicked? ==> r.state == s.(motors := r.state.motors)
    ensures e.EmergencyStopClicked? ==> GetPwmValue(r.state.motors.Get(e.motor)) == 0
    ensures e.SliderMoved? || e.EmergencyStopClicked? ==>
              forall id :: id != e.motor ==> r.state.motors.Get(id) == s.motors.Get(id)
  {
    match e
    case ConnectClicked(openOk) => Reaction(OnConnectClicked(s, openOk), [])
    case ReloadClicked(available) => Reaction(OnReloadClicked(s, available), [])
    case SerialError(available) => Reaction(OnSerialError(s, available), [])
    case SettleFired => Reaction(OnSettleFired(s), [])
    case Tick => Reaction(s, OnTick(s))
    case LineRead(t) => Reaction(s, OnLineRead(t))
    case SliderMoved(id, value) =>
      Reaction(s.(motors := s.motors.With(id, OnSliderValueChanged(s.motors.Get(id), value).0)), [])
    case EmergencyStopClicked(id) =>
      Reaction(s.(motors := s.motors.With(id, OnEmergencyStopClicked(s.motors.Get(id)).0)), [])
  }

  /** A sequence of events, handled in arrival order; the outputs are concatenated. */
  function Run(s: State, events: seq<Event>): Reaction
    decreases |events|
  {
    if |events| == 0 then Reaction(s, [])
    else
      var first := Step(s, events[0]);
      var rest := Run(first.state, events[1..]);
      Reaction(rest.state, first.outputs + rest.outputs)
  }

  /** The invariant holds after any sequence of events. */
  lemma {:induction false} RunPreservesInv(s: State, events: seq<Event>)
    requires Inv(s)
    ensures Inv(Run(s, events).state)
    decreases |events|
  {
    if |events| > 0 {
      RunPreservesInv(Step(s, events[0]).state, events[1..]);
    }
  }

  /** Every state the window can reach from its start satisfies the invariant. */
  lemma ReachableStatesSatisfyInv(available: seq<string>, events: seq<Event>)
    ensures Inv(Run(Init(available), events).state)
  {
    RunPreservesInv(Init(available), events);
  }

  /** A successful connect does not start the timer by itself: a tick right after it
      writes nothing. Once the settle fires, the first frame commands all motors to 0. */
  lemma NoFrameBeforeSettle(s: State)
    requires !s.connected && !s.timerRunning
    ensures Run(s, [ConnectClicked(true), Tick]).outputs == []
    ensures Run(s, [ConnectClicked(true), SettleFired]).state.timerRunning
    ensures Run(s, [ConnectClicked(true), SettleFired, Tick]).outputs == [Write(Frame(0, 0, 0))]
  {
    var c := Step(s, ConnectClicked(true)).state;
    var f := Step(c, SettleFired).state;
    assert Run(c, [Tick]) == Step(c, Tick);
    assert Run(c, [SettleFired]) == Step(c, SettleFired);
    assert Run(f, [Tick]) == Step(f, Tick);
    assert Run(c, [SettleFired, Tick]).outputs == Step(f, Tick).outputs;
  }

  /** A disconnect inside the settle window does not cancel the scheduled start: the
      single-shot still fires, the timer runs while disconnected, and the next tick
      writes a frame of zeros to the closed link. */
  lemma StaleSettleStartsTimer(s: State)
    requires !s.connected
    ensures var r := Run(s, [ConnectClicked(true), ConnectClicked(false), SettleFired]);
            && !r.state.connected && !r.state.linkOpen && r.state.timerRunning
            && Step(r.state, Tick).outputs == [Write(Frame(0, 0, 0))]
  {
    var c := Step(s, ConnectClicked(true)).state;
    var d := Step(c, ConnectClicked(false)).state;
    assert Run(d, [SettleFired]) == Step(d, SettleFired);
    assert Run(c, [ConnectClicked(false), SettleFired]).state == Step(d, SettleFired).state;
  }

  /** The error handler does not change the link: if the link was open when the error was
      reported, it is still open although the window is disconnected. */
  lemma ErrorLeavesLinkOpen(s: State, available: seq<string>)
    requires s.connected && s.linkOpen
    ensures var r := Step(s, SerialError(available)).state;
            !r.connected && r.linkOpen
  {
  }

  /** Slider moves on different motors commute: the next frame does not depend on the
      order in which the operator set them. */
  lemma SliderMovesCommute(s: State, a: MotorId, b: MotorId, va: int, vb: int)
    requires a != b
    ensures Run(s, [SliderMoved(a, va), SliderMoved(b, vb)]).state
         == Run(s, [SliderMoved(b, vb), SliderMoved(a, va)]).state
    ensures Run(s, [SliderMoved(a, va), SliderMoved(b, vb)]).state.motors.Get(a).slider == va
  {
    var sa := Step(s, SliderMoved(a, va)).state;
    var sb := Step(s, SliderMoved(b, vb)).state;
    assert Run(sa, [SliderMoved(b, vb)]) == Step(sa, SliderMoved(b, vb));
    assert Run(sb, [SliderMoved(a, va)]) == Step(sb, SliderMoved(a, va));
  }
}
