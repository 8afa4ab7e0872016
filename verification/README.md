# QDCMotorController — connection controller and command loop, in Dafny

QDCMotorController is a Qt desktop program that drives up to three DC motors
through a serial-attached controller board. This project models its core: the
main window's connection state machine (connect, disconnect, serial error,
port rescan, delayed start of the command timer), the command frame written on
every timer tick, the driver-error notification raised by a telemetry line, and
the per-motor panel state (`QDCWidget`) that the controller reads and resets.

Modules, following the program's structure:

- `Wrappers` — the `Option` datatype used by the decoders.
- `Decimal` — `QString::arg(int)` rendering of a number, and a reader that is
  its inverse (`ReadIntRoundTrip`).
- `DCWidget` — one motor panel (`QDCController/qdcwidget.cpp`): slider value,
  value behind the PWM label, displayed current, two limit-switch indicators.
- `CommandFrame` — the `{"mot1":a,"mot2":b,"mot3":c}` line of
  `update_motor_driver`, and a decoder proved to recover `(a, b, c)` from it.
- `Telemetry` — the `err1`/`err2` rule of `onLineRead`, on a line that has
  already been decoded into a key/number map (an absent key reads as 0).
- `Controller` — the window state, an `Event` datatype with one case per
  handler, a pure `Step(state, event)` and `Run` over a sequence of events.
  Qt timers are abstract events: `SettleFired` is the 2-second single-shot
  scheduled by a connect, `Tick` is the periodic command timer. Whether the
  serial port opened and which ports the system lists are event arguments.

The invariant `Inv` (reload button enabled exactly while disconnected; the
connected flag is only raised with an open link) holds in every reachable state
(`ReachableStatesSatisfyInv`).

## Behaviour kept as written

Two behaviours of the code look unintended; the model keeps them as written.

- The single-shot that starts the command timer (`mainwindow.cpp:156`) is never
  cancelled. A disconnect or a serial error inside the settle window stops the
  timer, but the pending single-shot then starts it again, and every tick
  writes a frame to the link although the window is disconnected
  (`StaleSettleStartsTimer`). Several settles can be pending at once, which
  is why the state counts them.
- The serial-error handler (`mainwindow.cpp:80-85`) does not close the link;
  only the explicit disconnect does (`mainwindow.cpp:125`). The handler leaves
  the link as it was, so if the link was still open when the error was
  reported, the window is disconnected while the link stays open
  (`ErrorLeavesLinkOpen`).

## Model

| member | source | states |
|---|---|---|
| Decimal.IntToDecimal | mainwindow.cpp:93-94 | a number is rendered in canonical form: a non-empty run of digits without leading zeros, preceded by `-` exactly when it is negative (so never `-0`) |
| Decimal.ReadIntRoundTrip | mainwindow.cpp:93-94 | reading a rendered number back gives the number and stops exactly where the following text begins |
| CommandFrame.Frame | mainwindow.cpp:93-97 | the written bytes start with `{"mot1":`, are plain ASCII, and form exactly one line: the final line feed is the only one |
| CommandFrame.FrameRoundTrip | mainwindow.cpp:89-97 | decoding a frame recovers the three motor values, in the order motor 1, motor 2, motor 3 |
| CommandFrame.FrameInjective | mainwindow.cpp:93-94 | different motor values always produce different frames |
| Telemetry.Field | mainwindow.cpp:74-75 | a flag the line does not carry reads as 0; one it carries reads as its value |
| Telemetry.DriverErrorMessages | mainwindow.cpp:76-77 | exactly one driver-1 message when `err1` is nonzero and none otherwise, likewise for driver 2, no other message, driver 1 first |
| Telemetry.QuietLine | mainwindow.cpp:76-77 | a line whose flags are absent or zero raises no message |
| DCWidget.PwmReadBack | QDCController/qdcwidget.cpp:17-20 | `getPwmValue` reads back the slider: the value last set by the operator, 0 after a halt, untouched by the current and indicator displays |
| DCWidget.SetPwmValue | QDCController/qdcwidget.cpp:56-61 | refreshing the PWM label changes only the label; the slider value is unchanged |
| DCWidget.SetCurrent | QDCController/qdcwidget.cpp:63-66 | shows the given current and changes nothing else |
| DCWidget.SetLeftLimitSwitchState | QDCController/qdcwidget.cpp:40-46 | sets the left indicator; right indicator, slider, label and current unchanged |
| DCWidget.SetRightLimitSwitchState | QDCController/qdcwidget.cpp:48-54 | sets the right indicator; left indicator, slider, label and current unchanged |
| DCWidget.LimitSwitchesIndependent | QDCController/qdcwidget.cpp:40-54 | the two indicators can be set in either order with the same result, and the last write to one indicator wins |
| DCWidget.EmergencyHalt | QDCController/qdcwidget.cpp:68-74 | slider, label value and current all become 0; both limit-switch indicators are kept |
| DCWidget.EmergencyHaltIdempotent | QDCController/qdcwidget.cpp:68-74 | halting a halted panel changes nothing |
| DCWidget.HaltCommutesWithLimitSwitches | QDCController/qdcwidget.cpp:68-74 | halting and setting an indicator commute, since they touch disjoint parts of the panel |
| DCWidget.SetDefaultView | QDCController/qdcwidget.cpp:27-32 | the result is the fixed safe panel, whatever the panel was before: slider 0, current 0, both indicators clear |
| DCWidget.SetDefaultViewIdempotent | QDCController/qdcwidget.cpp:27-32 | applying the default view twice equals applying it once |
| DCWidget.OnSliderValueChanged | QDCController/qdcwidget.cpp:76-80 | the slider and label take the new value, current and indicators are kept, and `pwmValue(value)` is emitted once |
| DCWidget.OnEmergencyStopClicked | QDCController/qdcwidget.cpp:82-87 | the panel is halted (slider 0) and `emergencyClicked` is emitted exactly once |
| Controller.Init | mainwindow.cpp:27-46 | the window starts disconnected with the timer stopped, no settle pending, the link closed, safe motors and the listed ports |
| Controller.AddItemsAppends | mainwindow.cpp:167-172 | adding the enumerated ports one at a time appends exactly them, in order |
| Controller.ScanForSerialDevices | mainwindow.cpp:167-172 | the port list becomes exactly the enumerated ports, in order, and nothing else changes |
| Controller.SetDefaultViews | mainwindow.cpp:148-149 | all three motors end in the safe state |
| Controller.SetConnectionState | mainwindow.cpp:144-165 | the flag takes the new state, the reload button its negation, all motors are safe; connecting schedules one more settle and leaves the timer as it was, disconnecting stops the timer |
| Controller.OnConnectClicked | mainwindow.cpp:112-127 | while disconnected a failed open changes nothing and a successful one connects with the link open, the timer not started and one settle pending; while connected it disconnects, stops the timer and closes the link |
| Controller.OnReloadClicked | mainwindow.cpp:129-134 | ignored while connected; while disconnected the port list becomes exactly the enumerated ports and nothing else changes |
| Controller.OnSerialError | mainwindow.cpp:80-85 | the window is disconnected, the timer stopped, reload enabled, motors safe and the port list replaced; the link is left as it was |
| Controller.OnSettleFired | mainwindow.cpp:156 | a pending settle starts the timer whatever the connection state, consuming one pending settle and changing nothing else (connection flag, link, motors, ports, reload button); with none pending nothing happens |
| Controller.OnTick | mainwindow.cpp:87-98 | with the timer running, exactly one write whose frame decodes to the three slider values in motor order; with it stopped, nothing |
| Controller.OnLineRead | mainwindow.cpp:67-78 | one driver-1 status message per nonzero `err1`, one driver-2 message per nonzero `err2`, driver 1 first (so driver 2's message is the one left showing when both are raised), and nothing else |
| Controller.Step | mainwindow.cpp:136-142 | each event preserves the invariant; only ticks and lines produce output and they leave the state unchanged; a slider move or emergency stop changes only that motor |
| Controller.RunPreservesInv | mainwindow.cpp:151-162 | the reload button stays enabled exactly while disconnected, and connected implies an open link, across any sequence of events |
| Controller.ReachableStatesSatisfyInv | mainwindow.cpp:151-162 | every state reachable from the start satisfies the invariant |
| Controller.NoFrameBeforeSettle | mainwindow.cpp:151-157 | from a disconnected state with the timer stopped, a connect does not start the timer: a tick right after writes nothing; after the settle fires, the first frame commands all motors to 0 |
| Controller.StaleSettleStartsTimer | mainwindow.cpp:151-163 | connect, disconnect, then the settle fires: the timer runs while disconnected and the next tick writes a frame of zeros |
| Controller.ErrorLeavesLinkOpen | mainwindow.cpp:80-85 | the error handler does not change the link: one that was open when the error was reported is still open, while the window is disconnected |
| Controller.SliderMovesCommute | mainwindow.cpp:89-91 | slider moves on different motors commute, so the next frame does not depend on the order they were made in |

## Left out

- JSON decoding of a telemetry line (`QJsonDocument::fromJson`): a library call; the model takes the decoded key/number map, and an undecodable line is the empty map. A flag whose JSON value is not a whole number (`true`, `"1"`, `1.5`), or is one outside the 32-bit `int` range, reads as 0 through `toInt`; the decoded map leaves such keys out.
- `QDCModel::updateData`: its source is not part of this model, so a telemetry line changes no panel display (limit switches, current) here.
- `SerialPort` internals (opening, closing, line framing, writing to a closed port, the port name it is given even when the open fails): not part of this model; the open result is an event argument and the link a boolean.
- `QSerialPortInfo::availablePorts`: operating-system I/O; the listed ports are an event argument.
- The floating-point PWM percentage computed by `setPwmValue`: display formatting; the model keeps the integer the label was computed from.
- Timer durations (the 2000 ms settle, the command interval, the 3000 ms status timeout): the timers are abstract events; that a later status message replaces an earlier one on screen is not modelled.
- The chained `QString::arg` calls are modelled as direct concatenation; a rendered number never contains `%`, so the placeholders are substituted as written.
- Slider range clamping by `QSlider` and the 32-bit `int` width: the slider limits live in a UI file that is not part of this model; slider values are unbounded integers.
- Button labels, stylesheets, indicator glyphs, group labels, emergency shortcuts and tooltips (`setGroupLabel`, `setEmergencyShortcutButton`).
- About dialogs, Exit, the destructor and the constructor's object wiring; `Init` assumes the initial `isConnected` is false, the reload button starts enabled and the panels start in their safe state, as the header and UI files are not part of this model.
- Qt signal dispatch: `setValue(0)` re-emitting `valueChanged` is not modelled, and the panel signals `pwmValue` and `emergencyClicked` are dropped by the controller because the main window connects nothing to them.
- The error code and message of a serial error: they are only logged.
- Controller.ErrorLeavesLinkOpen — assumes `SerialPort` leaves the port open when it emits `connectionClosed` (`mainwindow.cpp:139`); whether it closes the port itself is not part of this model, so the lemma only states that the window's handler does not change the link.
