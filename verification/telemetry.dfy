/**
 The driver-error part of handling one telemetry line. The line arrives here
 already decoded into its key/number pairs; a key the line does not carry (or
 a line that did not decode at all, which gives the empty mapping) reads as 0,
 as `QJsonValue::toInt` does with its default argument. A flag whose value is
 not a whole number, or is one outside the 32-bit `int` range, also reads as 0
 there; the decoded mapping omits such keys.
 */
module Telemetry {

  type TelemetryRecord = map<string, int>

  const Driver1Error := "Driver 1 experienced an error"
  const Driver2Error := "Driver 2 experienced an error"

  /** The integer value of `key`, or 0 when the line does not carry it. */
  function Field(t: TelemetryRecord, key: string): (v: int)
    ensures key !in t ==> v == 0
    ensures key in t ==> v == t[key]
  {
    if key in t then t[key] else 0
  }

  /** The status-bar messages a line raises: one per driver whose error flag is nonzero,
      driver 1 first. */
  function DriverErrorMessages(t: TelemetryRecord): (msgs: seq<string>)
    ensures multiset(msgs)[Driver1Error] == (if Field(t, "err1") != 0 then 1 else 0)
    ensures multiset(msgs)[Driver2Error] == (if Field(t, "err2") != 0 then 1 else 0)
    ensures forall k :: 0 <= k < |msgs| ==> msgs[k] == Driver1Error || msgs[k] == Driver2Error
    ensures |msgs| == 2 ==> msgs[0] == Driver1Error
  {
    var first := if Field(t, "err1") != 0 then [Driver1Error] else [];
    var second := if Field(t, "err2") != 0 then [Driver2Error] else [];
    first + second
  }

  /** A line that carries neither flag, or carries both as zero, raises nothing. */
  lemma QuietLine(t: TelemetryRecord)
    requires Field(t, "err1") == 0 && Field(t, "err2") == 0
    ensures DriverErrorMessages(t) == []
  {
  }
}
