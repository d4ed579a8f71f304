/**
 * The "who is converting" marker shared by the LPC176x (`CFG_CURRENT`,
 * src/lpc176x/adc.c) and STM32F1 (`CFG_CHAN`, src/stm32f1xx/adc.c) ADC
 * backends.  Both use 0 for "no conversion in progress", which is also the
 * number of ADC channel 0.
 *
 * `Sample` is the code as written; `SampleFixed` keeps "free" apart from
 * every channel number.
 */
module AdcMarker {
  import opened Wrappers

  /** One `gpio_adc_sample`: the new marker, whether it reports ready (returns 0), whether it started a conversion. */
  datatype MarkerStep = MarkerStep(cur: nat, ready: bool, start: bool)

  /** `gpio_adc_sample` on marker `cur` for channel `chan`, with `done` the hardware done/EOC flag. */
  function Sample(cur: nat, chan: nat, done: bool): (r: MarkerStep)
    ensures r.start <==> cur == 0
    ensures r.cur == (if cur == 0 then chan else cur)
    ensures r.ready <==> cur != 0 && cur == chan && done
  {
    if cur == 0 then MarkerStep(chan, false, true)
    else if cur != chan then MarkerStep(cur, false, false)
    else if !done then MarkerStep(cur, false, false)
    else MarkerStep(cur, true, false)
  }

  /** A step of a trace of backend calls: a sample by some channel, or a cancel/read (both clear the marker). */
  datatype Call = SampleCall(chan: nat, done: bool) | CancelCall

  /** The marker after a trace, as written. */
  function After(cur: nat, calls: seq<Call>): nat
    decreases |calls|
  {
    if |calls| == 0 then cur
    else match calls[0]
      case SampleCall(c, d) => After(Sample(cur, c, d).cur, calls[1..])
      case CancelCall => After(0, calls[1..])
  }

  /** Whether some sample of channel `chan` in the trace reports ready, as written. */
  function EverReady(cur: nat, calls: seq<Call>, chan: nat): bool
    decreases |calls|
  {
    if |calls| == 0 then false
    else match calls[0]
      case SampleCall(c, d) => (c == chan && Sample(cur, c, d).ready) || EverReady(Sample(cur, c, d).cur, calls[1..], chan)
      case CancelCall => EverReady(0, calls[1..], chan)
  }

  /**
   * As written, channel 0 never gets a reading: whatever the initial marker,
   * the interleaving of other channels and cancels, and the done flags, no
   * sample of channel 0 ever returns 0.
   */
  lemma {:induction false} ChannelZeroNeverReady(cur: nat, calls: seq<Call>)
    ensures !EverReady(cur, calls, 0)
    decreases |calls|
  {
    if |calls| > 0 {
      match calls[0]
      case SampleCall(c, d) => ChannelZeroNeverReady(Sample(cur, c, d).cur, calls[1..]);
      case CancelCall => ChannelZeroNeverReady(0, calls[1..]);
    }
  }

  /**
   * As written, a conversion started for channel 0 leaves the marker "free",
   * so the next sample of any channel starts its own conversion over it.
   */
  lemma ChannelZeroDoesNotBlock(cur: nat, c: nat, d1: bool, d2: bool)
    requires Sample(cur, 0, d1).start
    ensures Sample(Sample(cur, 0, d1).cur, c, d2).start
    ensures Sample(Sample(cur, 0, d1).cur, c, d2).cur == c
  {
  }

  /** The corrected marker: `None` is "free", `Some(c)` means channel `c` owns the converter. */
  datatype FixedStep = FixedStep(cur: Option<nat>, ready: bool, start: bool)

  function SampleFixed(cur: Option<nat>, chan: nat, done: bool): (r: FixedStep)
    ensures r.start <==> cur.None?
    ensures r.cur == (if cur.None? then Some(chan) else cur)
    ensures r.ready <==> cur == Some(chan) && done
  {
    match cur
    case None => FixedStep(Some(chan), false, true)
    case Some(o) =>
      if o != chan || !done then FixedStep(cur, false, false) else FixedStep(cur, true, false)
  }

  function AfterFixed(cur: Option<nat>, calls: seq<Call>): Option<nat>
    decreases |calls|
  {
    if |calls| == 0 then cur
    else match calls[0]
      case SampleCall(c, d) => AfterFixed(SampleFixed(cur, c, d).cur, calls[1..])
      case CancelCall => AfterFixed(None, calls[1..])
  }

  /** Samples by channels that do not own the converter. */
  predicate OthersOnly(calls: seq<Call>, chan: nat)
  {
    forall i | 0 <= i < |calls| :: calls[i].SampleCall? && calls[i].chan != chan
  }

  /**
   * With the corrected marker every channel, 0 included, owns the converter
   * from its first sample on a free marker: samples of other channels leave
   * the claim in place and never report ready, and the owner's next sample
   * with the done flag set reports ready.
   */
  lemma {:induction false} FixedOwnerKeepsConverter(chan: nat, others: seq<Call>)
    requires OthersOnly(others, chan)
    ensures AfterFixed(SampleFixed(None, chan, false).cur, others) == Some(chan)
    ensures SampleFixed(AfterFixed(SampleFixed(None, chan, false).cur, others), chan, true).ready
    decreases |others|
  {
    FixedOthersKeep(chan, others);
  }

  lemma {:induction false} FixedOthersKeep(chan: nat, others: seq<Call>)
    requires OthersOnly(others, chan)
    ensures AfterFixed(Some(chan), others) == Some(chan)
    decreases |others|
  {
    if |others| > 0 {
      assert others[0].SampleCall? && others[0].chan != chan;
      assert OthersOnly(others[1..], chan) by {
        forall i | 0 <= i < |others[1..]|
          ensures others[1..][i].SampleCall? && others[1..][i].chan != chan
        {
          assert others[1..][i] == others[i + 1];
        }
      }
      FixedOthersKeep(chan, others[1..]);
    }
  }

  /** With the corrected marker only the owner can be ready: at most one channel at a time gets a reading. */
  lemma FixedReadyOnlyOwner(cur: Option<nat>, c1: nat, c2: nat, d1: bool, d2: bool)
    requires SampleFixed(cur, c1, d1).ready && SampleFixed(cur, c2, d2).ready
    ensures c1 == c2
  {
  }
}
