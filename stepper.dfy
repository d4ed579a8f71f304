// Stepper motors of klippy/stepper.py: the enable-pin bookkeeping of
// `PrinterStepper` and the endstop phase tracking of `PrinterHomingStepper`.
module Stepper {
  import opened Wrappers
  import opened Text

  // ----- motor enable -----

  /** A write to the enable pin: the print time and the requested state. */
  datatype PinWrite = PinWrite(printTime: real, enable: bool)

  /** The enable-pin state of a stepper: whether a pin exists, the flag, and the writes so far. */
  datatype EnableState = EnableState(hasPin: bool, needMotorEnable: bool, writes: seq<PinWrite>)

  /**
   * `motor_enable(print_time, enable)`: the pin is written only when it
   * exists and the motor is not already in the requested state; the flag
   * then records that the motor needs enabling exactly when it is off.
   */
  function MotorEnableStep(s: EnableState, printTime: real, enable: bool): (r: EnableState)
    ensures r.hasPin == s.hasPin && r.needMotorEnable == !enable
    ensures |s.writes| <= |r.writes| <= |s.writes| + 1 && r.writes[..|s.writes|] == s.writes
    ensures |r.writes| > |s.writes| <==> s.hasPin && s.needMotorEnable == enable
    ensures |r.writes| > |s.writes| ==> r.writes[|s.writes|] == PinWrite(printTime, enable)
  {
    var w := if s.hasPin && s.needMotorEnable != !enable then [PinWrite(printTime, enable)] else [];
    s.(needMotorEnable := !enable, writes := s.writes + w)
  }

  /** A series of requests, in order. */
  function MotorEnableAll(s: EnableState, reqs: seq<(real, bool)>): EnableState
    decreases |reqs|
  {
    if reqs == [] then s else MotorEnableAll(MotorEnableStep(s, reqs[0].0, reqs[0].1), reqs[1..])
  }

  /** Repeating a request with the same state writes nothing more. */
  lemma {:induction false} RepeatedEnableSilent(s: EnableState, t: real, enable: bool, times: seq<real>)
    ensures var s1 := MotorEnableStep(s, t, enable);
      MotorEnableAll(s1, seq(|times|, i requires 0 <= i < |times| => (times[i], enable))) == s1
    decreases |times|
  {
    var s1 := MotorEnableStep(s, t, enable);
    var reqs := seq(|times|, i requires 0 <= i < |times| => (times[i], enable));
    if times != [] {
      assert MotorEnableStep(s1, times[0], enable) == s1;
      RepeatedEnableSilent(s, t, enable, times[1..]);
      assert reqs[1..] == seq(|times[1..]|, i requires 0 <= i < |times[1..]| => (times[1..][i], enable));
    }
  }

  /** Without an enable pin nothing is ever written; the flag follows the last request. */
  lemma {:induction false} NoPinNoWrites(s: EnableState, reqs: seq<(real, bool)>)
    requires !s.hasPin
    ensures MotorEnableAll(s, reqs).writes == s.writes
    ensures reqs != [] ==> MotorEnableAll(s, reqs).needMotorEnable == !reqs[|reqs| - 1].1
    decreases |reqs|
  {
    if reqs != [] {
      NoPinNoWrites(MotorEnableStep(s, reqs[0].0, reqs[0].1), reqs[1..]);
      if |reqs| > 1 {
        assert reqs[1..][|reqs[1..]| - 1] == reqs[|reqs| - 1];
      }
    }
  }

  /** With an enable pin, consecutive writes alternate between on and off. */
  lemma {:induction false} WritesAlternate(s: EnableState, reqs: seq<(real, bool)>, i: nat)
    requires s.hasPin
    requires |s.writes| + i + 1 < |MotorEnableAll(s, reqs).writes|
    ensures var w := MotorEnableAll(s, reqs).writes;
      w[|s.writes| + i + 1].enable == !w[|s.writes| + i].enable
    decreases |reqs|
  {
    if reqs == [] {
      assert false;
    } else {
      var s1 := MotorEnableStep(s, reqs[0].0, reqs[0].1);
      WritesPrefix(s1, reqs[1..]);
      if |s1.writes| == |s.writes| {
        WritesAlternate(s1, reqs[1..], i);
      } else if i == 0 {
        assert MotorEnableAll(s, reqs).writes[|s.writes|] == s1.writes[|s.writes|];
        FirstWrite(s1, reqs[1..]);
      } else {
        WritesAlternate(s1, reqs[1..], i - 1);
      }
    }
  }

  /** Earlier writes are never taken back. */
  lemma {:induction false} WritesPrefix(s: EnableState, reqs: seq<(real, bool)>)
    ensures |s.writes| <= |MotorEnableAll(s, reqs).writes|
    ensures MotorEnableAll(s, reqs).writes[..|s.writes|] == s.writes
    ensures MotorEnableAll(s, reqs).hasPin == s.hasPin
    decreases |reqs|
  {
    if reqs != [] {
      var s1 := MotorEnableStep(s, reqs[0].0, reqs[0].1);
      WritesPrefix(s1, reqs[1..]);
      assert s1.writes[..|s.writes|] == s.writes;
    }
  }

  /** The first write after a state is the opposite of that state's motor. */
  lemma {:induction false} FirstWrite(s: EnableState, reqs: seq<(real, bool)>)
    requires s.hasPin
    requires |s.writes| < |MotorEnableAll(s, reqs).writes|
    ensures MotorEnableAll(s, reqs).writes[|s.writes|].enable == s.needMotorEnable
    decreases |reqs|
  {
    var s1 := MotorEnableStep(s, reqs[0].0, reqs[0].1);
    WritesPrefix(s1, reqs[1..]);
    if |s1.writes| == |s.writes| {
      FirstWrite(s1, reqs[1..]);
    } else {
      assert MotorEnableAll(s, reqs).writes[..|s1.writes|] == s1.writes;
      assert MotorEnableAll(s, reqs).writes[|s.writes|] == s1.writes[|s.writes|];
    }
  }

  /** `PrinterStepper`: its enable pin and `need_motor_enable`. */
  class PrinterStepper {
    const name: string
    /** `mcu_enable is not None`. */
    const hasEnablePin: bool
    var needMotorEnable: bool
    /** Everything sent to the enable pin, in order. */
    var pinWrites: seq<PinWrite>

    function State(): EnableState
      reads this`needMotorEnable, this`pinWrites
    {
      EnableState(hasEnablePin, needMotorEnable, pinWrites)
    }

    /** The section name without a leading `stepper_`; a new motor needs enabling. */
    constructor(section: string, hasEnablePin: bool)
      ensures name == if StartsWith(section, "stepper_") then section[8..] else section
      ensures this.hasEnablePin == hasEnablePin && needMotorEnable && pinWrites == []
    {
      name := if StartsWith(section, "stepper_") then section[8..] else section;
      this.hasEnablePin := hasEnablePin;
      needMotorEnable := true;
      pinWrites := [];
    }

    /** `motor_enable(print_time, enable)`. */
    method MotorEnable(printTime: real, enable: bool)
      modifies this`needMotorEnable, this`pinWrites
      ensures State() == MotorEnableStep(old(State()), printTime, enable)
      ensures needMotorEnable == !enable
    {
      if hasEnablePin && needMotorEnable != !enable {
        pinWrites := pinWrites + [PinWrite(printTime, enable)];
      }
      needMotorEnable := !enable;
    }
  }

  // ----- endstop phase -----

  /** `math.ceil(x)` on an exact ratio. */
  function Ceil(x: real): int
  {
    0 - (0.0 - x).Floor
  }

  /** The phase-tracking settings left by `PrinterHomingStepper.__init__`. */
  datatype PhaseSetup = PhaseSetup(phases: Option<nat>, endstopPhase: Option<int>, accuracy: Option<int>)

  /**
   * The accuracy default and the disable rule of `__init__`, `ratio` being
   * `homing_endstop_accuracy / step_dist` when that option is given.  The
   * endstop alignment and the file-output override are not part of this.
   * No phase count means no tracking; otherwise tracking survives exactly
   * when the accuracy is below half the phases.  The default accuracy is
   * `phases // 2 - 1`, so without an accuracy option tracking always survives.
   */
  function SetupAsWritten(phases: Option<nat>, phase: Option<int>, ratio: Option<real>): (r: PhaseSetup)
    ensures phases.None? || phases.value == 0 ==> r == PhaseSetup(phases, None, None)
    ensures phases.Some? && phases.value > 0 ==>
      r.accuracy.Some? && (r.phases.None? <==> r.accuracy.value >= phases.value / 2)
      && (r.phases.Some? ==> r.phases == phases && r.endstopPhase == phase)
    ensures phases.Some? && phases.value > 0 && ratio.None? ==>
      r.accuracy == Some(phases.value / 2 - 1) && r.phases == phases
  {
    if phases.None? || phases.value == 0 then PhaseSetup(phases, None, None)
    else
      var phases := phases.value;
      var acc := if ratio.None? then phases / 2 - 1 else if phase.Some? then Ceil(ratio.value * 0.5) else Ceil(ratio.value);
      PhaseSetup(if acc >= phases / 2 then None else Some(phases), phase, Some(acc))
  }

  /**
   * Corrected: the same with the default accuracy kept at zero or more, so
   * that without an accuracy option tracking survives exactly when there are
   * at least two phases.
   */
  function Setup(phases: Option<nat>, phase: Option<int>, ratio: Option<real>): (r: PhaseSetup)
    ensures phases.None? || phases.value == 0 ==> r == PhaseSetup(phases, None, None)
    ensures phases.Some? && phases.value > 0 ==>
      r.accuracy.Some? && (r.phases.None? <==> r.accuracy.value >= phases.value / 2)
      && (r.phases.Some? ==> r.phases == phases && r.endstopPhase == phase)
    ensures phases.Some? && phases.value > 0 && ratio.None? ==>
      r.accuracy == Some(Max(phases.value / 2 - 1, 0)) && (r.phases.Some? <==> phases.value >= 2)
  {
    if phases.None? || phases.value == 0 then PhaseSetup(phases, None, None)
    else
      var phases := phases.value;
      var acc := if ratio.None? then Max(phases / 2 - 1, 0) else if phase.Some? then Ceil(ratio.value * 0.5) else Ceil(ratio.value);
      PhaseSetup(if acc >= phases / 2 then None else Some(phases), phase, Some(acc))
  }

  function Max(a: int, b: int): int
  {
    if a >= b then a else b
  }

  /** The correction changes only the one-phase default: everywhere else the two setups agree. */
  lemma SetupAgrees(phasesOption: Option<nat>, phase: Option<int>, ratio: Option<real>)
    requires ratio.Some? || phasesOption.None? || phasesOption.value != 1
    ensures Setup(phasesOption, phase, ratio) == SetupAsWritten(phasesOption, phase, ratio)
  {
  }

  /** Positive accuracy options give a positive accuracy. */
  lemma CeilPositive(x: real)
    requires x > 0.0
    ensures Ceil(x) >= 1
    ensures Ceil(x) as real >= x > Ceil(x) as real - 1.0
  {
  }

  /**
   * The phase test of `get_homed_offset`: `delta` is the distance from the
   * recorded phase modulo the phase count, taken negative near the top;
   * `None` is the `EndstopError`.
   */
  function PhaseDelta(pos: int, phase: int, phases: int, accuracy: int): (r: Option<int>)
    requires phases > 0
    ensures r.None? <==> accuracy < (pos - phase) % phases < phases - accuracy
    ensures r.Some? ==> -accuracy <= r.value <= accuracy
    ensures r.Some? ==> r.value == (pos - phase) % phases || r.value == (pos - phase) % phases - phases
  {
    var delta := (pos - phase) % phases;
    if delta >= phases - accuracy then Some(delta - phases)
    else if delta > accuracy then None
    else Some(delta)
  }

  /** The offset returned for a phase correction of `delta` steps. */
  function Correction(delta: int, stepDist: real, homingOffset: real): real
  {
    delta as real * stepDist - homingOffset
  }

  /** The message of the `EndstopError`. */
  function PhaseError(name: string, got: int, want: int): string
  {
    "Endstop " + name + " incorrect phase (got " + IntToString(got) + " vs " + IntToString(want) + ")"
  }

  /** The stepper's phase-tracking state. */
  datatype HomingState = HomingState(phases: Option<nat>, endstopPhase: Option<int>, accuracy: Option<int>)

  /**
   * `get_homed_offset()` at mcu position `pos`: the result and the phase
   * state after the call.  Without tracking, or with the motor off, it is
   * `-homing_offset`; the first call records the phase.
   */
  function HomedOffset(h: HomingState, needMotorEnable: bool, pos: int, homingOffset: real, stepDist: real, name: string)
    : (res: (Result<real>, HomingState))
    ensures h.phases.None? || h.phases.value == 0 || needMotorEnable || h.endstopPhase.None? ==> res.0 == Ok(0.0 - homingOffset)
    ensures res.1 == if h.phases.Some? && h.phases.value != 0 && !needMotorEnable && h.endstopPhase.None?
      then h.(endstopPhase := Some(pos % h.phases.value)) else h
    ensures res.1 != h ==> 0 <= res.1.endstopPhase.value < h.phases.value
    ensures res.0.Err? ==> res.0 == Err(PhaseError(name, pos % h.phases.value, h.endstopPhase.value))
  {
    if h.phases.None? || h.phases.value == 0 || needMotorEnable then (Ok(0.0 - homingOffset), h)
    else
      var p := pos % h.phases.value;
      if h.endstopPhase.None? then (Ok(0.0 - homingOffset), h.(endstopPhase := Some(p)))
      else
        var acc := if h.accuracy.Some? then h.accuracy.value else 0;
        var delta := PhaseDelta(p, h.endstopPhase.value, h.phases.value, acc);
        if delta.None? then (Err(PhaseError(name, p, h.endstopPhase.value)), h)
        else (Ok(Correction(delta.value, stepDist, homingOffset)), h)
  }

  /** Once a phase is recorded, homing at a position with that phase succeeds with no correction. */
  lemma SamePhaseAccepted(h: HomingState, pos: int, offset: real, stepDist: real, name: string)
    requires h.phases.Some? && h.phases.value > 0 && h.accuracy.Some? && 0 <= h.accuracy.value < h.phases.value
    requires h.endstopPhase == Some(pos % h.phases.value)
    ensures HomedOffset(h, false, pos, offset, stepDist, name).0 == Ok(0.0 - offset)
  {
    var n := h.phases.value;
    var p := pos % n;
    assert (p - p) % n == 0;
  }

  /** The settings the constructor leaves, as the stepper's state. */
  function Initial(s: PhaseSetup): HomingState
  {
    HomingState(s.phases, s.endstopPhase, s.accuracy)
  }

  /** With the guarded default, a tracked stepper always accepts its own recorded phase. */
  lemma SetupAcceptsRecordedPhase(phases: nat, ratio: Option<real>, pos: int, offset: real, stepDist: real, name: string)
    requires phases > 0
    requires ratio.Some? ==> ratio.value > 0.0
    ensures var h := Initial(Setup(Some(phases), None, ratio));
      var (_, h2) := HomedOffset(h, false, pos, offset, stepDist, name);
      HomedOffset(h2, false, pos, offset, stepDist, name).0 == Ok(0.0 - offset)
  {
    var h := Initial(Setup(Some(phases), None, ratio));
    if ratio.Some? {
      CeilPositive(ratio.value);
    }
    if h.phases.Some? {
      var h2 := HomedOffset(h, false, pos, offset, stepDist, name).1;
      assert h2.endstopPhase == Some(pos % phases);
      SamePhaseAccepted(h2, pos, offset, stepDist, name);
    }
  }

  /** As written, a stepper with two or more phases, or an accuracy option, accepts its own recorded phase. */
  lemma AsWrittenAcceptsRecordedPhase(phases: nat, ratio: Option<real>, pos: int, offset: real, stepDist: real, name: string)
    requires phases >= 2 || (phases > 0 && ratio.Some?)
    requires ratio.Some? ==> ratio.value > 0.0
    ensures var h := Initial(SetupAsWritten(Some(phases), None, ratio));
      var (_, h2) := HomedOffset(h, false, pos, offset, stepDist, name);
      HomedOffset(h2, false, pos, offset, stepDist, name).0 == Ok(0.0 - offset)
  {
    SetupAgrees(Some(phases), None, ratio);
    SetupAcceptsRecordedPhase(phases, ratio, pos, offset, stepDist, name);
  }

  /** As written, a one-phase stepper with the default accuracy keeps tracking, yet rejects its own recorded phase. */
  lemma OnePhaseRejectsItself(pos: int, offset: real, stepDist: real, name: string)
    ensures var h := Initial(SetupAsWritten(Some(1), None, None));
      h.phases == Some(1) && h.accuracy == Some(-1)
      && var (_, h2) := HomedOffset(h, false, pos, offset, stepDist, name);
      HomedOffset(h2, false, pos, offset, stepDist, name).0.Err?
  {
    var h := Initial(SetupAsWritten(Some(1), None, None));
    var h2 := HomedOffset(h, false, pos, offset, stepDist, name).1;
    assert h2.endstopPhase == Some(pos % 1);
    assert PhaseDelta(pos % 1, pos % 1, 1, -1) == None;
  }

  /** `PrinterHomingStepper`: a stepper with phase tracking. */
  class PrinterHomingStepper {
    const stepper: PrinterStepper
    var phases: Option<nat>
    var endstopPhase: Option<int>
    var accuracy: Option<int>
    var homingOffset: real
    const stepDist: real

    function Tracking(): HomingState
      reads this`phases, this`endstopPhase, this`accuracy
    {
      HomingState(phases, endstopPhase, accuracy)
    }

    /** The phase-tracking part of `__init__`, from the options already read. */
    constructor(stepper: PrinterStepper, stepDist: real, homingOffset: real, phasesOption: Option<nat>, phaseOption: Option<int>, ratio: Option<real>)
      ensures this.stepper == stepper && this.stepDist == stepDist && this.homingOffset == homingOffset
      ensures Tracking() == Initial(SetupAsWritten(phasesOption, phaseOption, ratio))
    {
      this.stepper := stepper;
      this.stepDist := stepDist;
      this.homingOffset := homingOffset;
      var s := SetupAsWritten(phasesOption, phaseOption, ratio);
      phases, endstopPhase, accuracy := s.phases, s.endstopPhase, s.accuracy;
    }

    /** `set_homing_offset(offset)`. */
    method SetHomingOffset(offset: real)
      modifies this`homingOffset
      ensures homingOffset == offset
    {
      homingOffset := offset;
    }

    /** `get_homed_offset()`, `pos` being `mcu_stepper.get_mcu_position()`. */
    method GetHomedOffset(pos: int) returns (r: Result<real>)
      modifies this`endstopPhase
      ensures (r, Tracking()) == HomedOffset(old(Tracking()), stepper.needMotorEnable, pos, homingOffset, stepDist, stepper.name)
    {
      if phases.None? || phases.value == 0 || stepper.needMotorEnable {
        return Ok(0.0 - homingOffset);
      }
      var p := pos % phases.value;
      if endstopPhase.None? {
        endstopPhase := Some(p);
        return Ok(0.0 - homingOffset);
      }
      var acc := if accuracy.Some? then accuracy.value else 0;
      var delta := PhaseDelta(p, endstopPhase.value, phases.value, acc);
      if delta.None? {
        return Err(PhaseError(stepper.name, p, endstopPhase.value));
      }
      r := Ok(Correction(delta.value, stepDist, homingOffset));
    }
  }
}
