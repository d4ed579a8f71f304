/**
 * The firmware's analog-input engine (src/adccmds.c).
 *
 * Each configured channel runs a small state machine driven by its timer:
 * `state` counts the reads of the current sampling window, and the value
 * `state == sample_count` marks a completed window that the reporting task
 * has not yet claimed.  The ADC backend's answers (the retry delay returned by
 * `gpio_adc_sample` and the conversion returned by `gpio_adc_read`) are inputs
 * of the model; every call into the backend is written to a log.
 */
module AdcCmds {
  import opened Ints
  import opened Wrappers

  /** `struct analog_in` together with its timer's wake time. */
  datatype AnalogIn = AnalogIn(
    waketime: u32,
    restTime: u32, sampleTime: u32, nextBeginTime: u32,
    value: u16, minValue: u16, maxValue: u16,
    pin: nat,
    state: u8, sampleCount: u8)

  /** How a timer event ends: rescheduled, window completed (task woken), or shut down. */
  datatype EventOutcome =
    | Reschedule(chan: AnalogIn)
    | WindowDone(chan: AnalogIn)
    | OutOfRange(chan: AnalogIn)

  /** The `analog_in_state` report of one claimed window. */
  datatype Report = Report(oid: nat, nextClock: u32, value: u16)

  /** Calls from the engine into the ADC backend. */
  datatype AdcCall = Sample(pin: nat, delay: u32) | Read(pin: nat) | Cancel(pin: nat)

  const OUT_OF_RANGE: string := "ADC out of range"
  const SAMPLE_COUNT_ERROR: string := "ADC sample_count error!"

  /** The record `oid_alloc` hands out (zeroed memory) after `config_analog_in`. */
  function Configured(pin: nat): (a: AnalogIn)
    ensures a.state == 1 && a.sampleCount == 0 && a.pin == pin
    ensures a.state != a.sampleCount
  {
    AnalogIn(0, 0, 0, 0, 0, 0, 0, pin, 1, 0)
  }

  /** The value and state after one successful read, before rescheduling. */
  function Accumulate(a: AnalogIn, reading: u16): (b: AnalogIn)
    ensures a.state >= a.sampleCount ==> b.value == reading && b.state == 1
    ensures a.state < a.sampleCount ==>
      b.value as int == (a.value as int + reading as int) % 0x1_0000 && b.state as int == a.state as int + 1
    ensures b.(value := a.value, state := a.state) == a
  {
    if a.state >= a.sampleCount then a.(value := reading, state := 1)
    else a.(value := ToU16(reading as int + a.value as int), state := ToU8(a.state as int + 1))
  }

  predicate InRange(a: AnalogIn)
  {
    a.minValue <= a.value <= a.maxValue
  }

  /** One run of `analog_in_event`, given what `gpio_adc_sample` and `gpio_adc_read` return. */
  function EventStep(a: AnalogIn, delay: u32, reading: u16): (r: EventOutcome)
    ensures delay != 0 ==> r == Reschedule(a.(waketime := ToU32(a.waketime as int + delay as int)))
    ensures delay == 0 ==> r.chan.value == Accumulate(a, reading).value && r.chan.state == Accumulate(a, reading).state
    ensures delay == 0 && r.chan.state < a.sampleCount ==>
      r == Reschedule(Accumulate(a, reading).(waketime := ToU32(a.waketime as int + a.sampleTime as int)))
    ensures r.OutOfRange? <==> delay == 0 && r.chan.state >= a.sampleCount && !InRange(r.chan)
    ensures r.WindowDone? <==> delay == 0 && r.chan.state >= a.sampleCount && InRange(r.chan)
    ensures r.WindowDone? ==>
      r.chan.nextBeginTime as int == (a.nextBeginTime as int + a.restTime as int) % 0x1_0000_0000 &&
      r.chan.waketime == r.chan.nextBeginTime
    ensures r.chan.sampleCount == a.sampleCount && r.chan.pin == a.pin
    ensures r.chan.minValue == a.minValue && r.chan.maxValue == a.maxValue
    ensures r.chan.sampleTime == a.sampleTime && r.chan.restTime == a.restTime
  {
    if delay != 0 then
      Reschedule(a.(waketime := ToU32(a.waketime as int + delay as int)))
    else
      var b := Accumulate(a, reading);
      if b.state < b.sampleCount then
        Reschedule(b.(waketime := ToU32(b.waketime as int + b.sampleTime as int)))
      else if b.value < b.minValue || b.value > b.maxValue then
        OutOfRange(b)
      else
        var next := ToU32(b.nextBeginTime as int + b.restTime as int);
        WindowDone(b.(nextBeginTime := next, waketime := next))
  }

  /** Parameters of `query_analog_in`, as the 32-bit command arguments. */
  datatype Query = Query(clock: u32, sampleTicks: u32, sampleCount: u32, restTicks: u32, minValue: u32, maxValue: u32)

  /**
   * The fields `command_query_analog_in` installs; it is `Err` when the
   * firmware shuts down because `sample_count` is 0 (the fields are assigned
   * before the check).
   */
  function QueryStep(a: AnalogIn, q: Query): (r: (AnalogIn, bool))
    ensures r.0.sampleCount as int == q.sampleCount as int % 0x100
    ensures r.0.state as int == (r.0.sampleCount as int + 1) % 0x100
    ensures r.0.nextBeginTime == q.clock && r.0.waketime == q.clock
    ensures r.0.minValue as int == q.minValue as int % 0x1_0000 && r.0.maxValue as int == q.maxValue as int % 0x1_0000
    ensures r.0.sampleTime == q.sampleTicks && r.0.restTime == q.restTicks
    ensures r.0.value == a.value && r.0.pin == a.pin
    ensures r.1 <==> r.0.sampleCount != 0
  {
    var count := ToU8(q.sampleCount as int);
    var b := a.(nextBeginTime := q.clock, waketime := q.clock, sampleTime := q.sampleTicks,
                sampleCount := count, state := ToU8(count as int + 1), restTime := q.restTicks,
                minValue := ToU16(q.minValue as int), maxValue := ToU16(q.maxValue as int));
    (b, count != 0)
  }

  predicate Ready(a: AnalogIn)
  {
    a.state == a.sampleCount
  }

  /** The claim of one channel by `analog_in_task`: only a completed window is taken, once. */
  function Claim(a: AnalogIn): (b: AnalogIn)
    ensures Ready(a) ==> b == a.(state := ToU8(a.state as int + 1))
    ensures !Ready(a) ==> b == a
    ensures !Ready(b)
  {
    if Ready(a) then a.(state := ToU8(a.state as int + 1)) else a
  }

  /** Applies `Claim` to every channel whose oid is below `n`. */
  function ClaimBelow(chans: map<nat, AnalogIn>, n: nat): (m: map<nat, AnalogIn>)
    ensures m.Keys == chans.Keys
    ensures forall o | o in chans && o < n :: m[o] == Claim(chans[o])
    ensures forall o | o in chans && n <= o :: m[o] == chans[o]
  {
    map o | o in chans :: if o < n then Claim(chans[o]) else chans[o]
  }

  lemma ClaimBelowStep(chans: map<nat, AnalogIn>, n: nat)
    ensures n in chans ==> ClaimBelow(chans, n + 1) == ClaimBelow(chans, n)[n := Claim(chans[n])]
    ensures n !in chans ==> ClaimBelow(chans, n + 1) == ClaimBelow(chans, n)
  {
  }

  /**
   * The reports the task sends for the oids below `n`: only ready channels,
   * each with its own time and value, in strictly ascending oid order.
   */
  function ReportsBelow(chans: map<nat, AnalogIn>, n: nat): (rs: seq<Report>)
    ensures |rs| <= n
    ensures forall i | 0 <= i < |rs| ::
      rs[i].oid < n && rs[i].oid in chans && Ready(chans[rs[i].oid]) &&
      rs[i] == Report(rs[i].oid, chans[rs[i].oid].nextBeginTime, chans[rs[i].oid].value)
    ensures forall i, j | 0 <= i < j < |rs| :: rs[i].oid < rs[j].oid
  {
    if n == 0 then []
    else
      ReportsBelow(chans, n - 1) + ReportOf(chans, n - 1)
  }

  /** The report the task sends for channel `o`: one exactly when its window is complete. */
  function ReportOf(chans: map<nat, AnalogIn>, o: nat): (r: seq<Report>)
    ensures |r| <= 1
    ensures |r| == 1 <==> o in chans && Ready(chans[o])
    ensures |r| == 1 ==> r[0].oid == o && r[0].nextClock == chans[o].nextBeginTime && r[0].value == chans[o].value
  {
    if o in chans && Ready(chans[o]) then [Report(o, chans[o].nextBeginTime, chans[o].value)] else []
  }

  /** Every ready channel below `n` is reported. */
  lemma {:induction false} ReportsEveryReady(chans: map<nat, AnalogIn>, n: nat, o: nat)
    requires o < n && o in chans && Ready(chans[o])
    ensures Report(o, chans[o].nextBeginTime, chans[o].value) in ReportsBelow(chans, n)
  {
    if o < n - 1 {
      ReportsEveryReady(chans, n - 1, o);
    }
  }

  /** A read in the call log only ever directly follows a sample of the same pin that returned 0. */
  predicate ReadsFollowReadySample(log: seq<AdcCall>)
  {
    forall i | 0 <= i < |log| && log[i].Read? :: 0 < i && log[i - 1] == Sample(log[i].pin, 0)
  }

  /** The calls `analog_in_event` makes into the backend. */
  function EventCalls(pin: nat, delay: u32): (calls: seq<AdcCall>)
    ensures ReadsFollowReadySample(calls)
    ensures |calls| == if delay == 0 then 2 else 1
    ensures calls[0] == Sample(pin, delay)
  {
    if delay == 0 then [Sample(pin, delay), Read(pin)] else [Sample(pin, delay)]
  }

  lemma ReadsFollowAppend(log: seq<AdcCall>, calls: seq<AdcCall>)
    requires ReadsFollowReadySample(log) && ReadsFollowReadySample(calls)
    requires |calls| > 0 && !calls[0].Read?
    ensures ReadsFollowReadySample(log + calls)
  {
    var all := log + calls;
    forall i | 0 <= i < |all| && all[i].Read?
      ensures 0 < i && all[i - 1] == Sample(all[i].pin, 0)
    {
      if i >= |log| {
        assert all[i] == calls[i - |log|];
      } else {
        assert all[i] == log[i];
        assert all[i - 1] == log[i - 1];
      }
    }
  }

  /**
   * The configured analog inputs (`oid` -> `struct analog_in`), the task
   * wake flag, the set of armed timers, the backend call log, the reports
   * sent and the shutdown reason once the firmware has shut down.
   */
  class AnalogInputs {
    var chans: map<nat, AnalogIn>
    var armed: set<nat>
    var wake: bool
    var log: seq<AdcCall>
    var reports: seq<Report>
    var shutdown: Option<string>

    ghost predicate Valid()
      reads this
    {
      (forall o | o in chans :: o < 0x100) && armed <= chans.Keys && ReadsFollowReadySample(log)
    }

    constructor ()
      ensures Valid() && chans == map[] && armed == {} && !wake && log == [] && reports == [] && shutdown == None
    {
      chans, armed, wake, log, reports, shutdown := map[], {}, false, [], [], None;
    }

    /** `command_config_analog_in`: binds the backend handle and sets `state = 1`; no timer is armed. */
    method ConfigAnalogIn(oid: nat, pin: nat)
      requires Valid() && oid < 0x100 && oid !in chans
      modifies this
      ensures Valid()
      ensures chans == old(chans)[oid := Configured(pin)]
      ensures armed == old(armed) && wake == old(wake) && log == old(log)
      ensures reports == old(reports) && shutdown == old(shutdown)
    {
      chans := chans[oid := Configured(pin)];
    }

    /**
     * `command_query_analog_in`: the timer is deleted and the sample
     * cancelled before the parameters are installed; the timer is re-armed
     * unless `sample_count` is 0, which shuts the firmware down.
     */
    method QueryAnalogIn(oid: nat, q: Query)
      requires Valid() && oid in chans
      modifies this
      ensures Valid()
      ensures chans == old(chans)[oid := QueryStep(old(chans)[oid], q).0]
      ensures log == old(log) + [Cancel(old(chans)[oid].pin)]
      ensures QueryStep(old(chans)[oid], q).1 ==> armed == old(armed) + {oid} && shutdown == old(shutdown)
      ensures !QueryStep(old(chans)[oid], q).1 ==>
        armed == old(armed) - {oid} && shutdown == Some(SAMPLE_COUNT_ERROR)
      ensures wake == old(wake) && reports == old(reports)
    {
      var a := chans[oid];
      armed := armed - {oid};
      log := log + [Cancel(a.pin)];
      ReadsFollowAppend(old(log), [Cancel(a.pin)]);
      var r := QueryStep(a, q);
      chans := chans[oid := r.0];
      if !r.1 {
        shutdown := Some(SAMPLE_COUNT_ERROR);
        return;
      }
      armed := armed + {oid};
    }

    /**
     * `analog_in_event` for an armed timer, as one atomic step of the timer
     * interrupt; `delay` is what `gpio_adc_sample` returns and `reading` what
     * `gpio_adc_read` would return (it is only consulted when `delay` is 0).
     */
    method TimerEvent(oid: nat, delay: u32, reading: u16)
      requires Valid() && oid in armed
      modifies this
      ensures Valid()
      ensures chans == old(chans)[oid := EventStep(old(chans)[oid], delay, reading).chan]
      ensures log == old(log) + EventCalls(old(chans)[oid].pin, delay)
      ensures EventStep(old(chans)[oid], delay, reading).OutOfRange? ==>
        armed == old(armed) - {oid} && shutdown == Some(OUT_OF_RANGE) && wake == old(wake)
      ensures !EventStep(old(chans)[oid], delay, reading).OutOfRange? ==>
        armed == old(armed) && shutdown == old(shutdown)
      ensures EventStep(old(chans)[oid], delay, reading).WindowDone? ==> wake
      ensures EventStep(old(chans)[oid], delay, reading).Reschedule? ==> wake == old(wake)
      ensures reports == old(reports)
    {
      var a := chans[oid];
      var calls := EventCalls(a.pin, delay);
      log := log + calls;
      ReadsFollowAppend(old(log), calls);
      var r := EventStep(a, delay, reading);
      chans := chans[oid := r.chan];
      match r
      case Reschedule(_) =>
      case WindowDone(_) => wake := true;
      case OutOfRange(_) =>
        armed := armed - {oid};
        shutdown := Some(OUT_OF_RANGE);
    }

    /**
     * `analog_in_task`: when woken, claims every channel whose window is
     * complete, in ascending oid order.  The firmware tests
     * `state == sample_count` a second time with interrupts disabled; as the
     * claim is one atomic step here, the second test always agrees.
     */
    method Task()
      requires Valid()
      modifies this`wake, this`chans, this`reports
      ensures Valid() && !wake
      ensures old(wake) ==> chans == ClaimBelow(old(chans), 0x100)
      ensures old(wake) ==> reports == old(reports) + ReportsBelow(old(chans), 0x100)
      ensures !old(wake) ==> chans == old(chans) && reports == old(reports)
      ensures armed == old(armed) && log == old(log) && shutdown == old(shutdown)
    {
      if !wake {
        return;
      }
      wake := false;
      ghost var start := chans;
      var oid := 0;
      while oid < 0x100
        invariant 0 <= oid <= 0x100
        invariant chans == ClaimBelow(start, oid)
        invariant reports == old(reports) + ReportsBelow(start, oid)
        invariant Valid() && !wake && start.Keys == chans.Keys
      {
        ghost var before := reports;
        TaskVisit(start, oid);
        assert before + ReportsBelow(start, oid) + ReportOf(start, oid) == before + ReportsBelow(start, oid + 1);
        oid := oid + 1;
      }
    }

    /** One pass of the `for` loop of `analog_in_task`: a completed window of channel `oid` is reported and claimed. */
    method TaskVisit(ghost start: map<nat, AnalogIn>, oid: nat)
      requires chans == ClaimBelow(start, oid)
      modifies this`chans, this`reports
      ensures chans == ClaimBelow(start, oid + 1)
      ensures reports == old(reports) + ReportOf(start, oid)
    {
      ClaimBelowStep(start, oid);
      if oid in chans {
        var a := chans[oid];
        assert a == start[oid];
        if a.state == a.sampleCount {
          reports := reports + [Report(oid, a.nextBeginTime, a.value)];
          chans := chans[oid := Claim(a)];
        }
      }
    }

    /** `analog_in_shutdown`: cancels the pending sample of every configured channel. */
    method ShutdownHandler()
      requires Valid()
      modifies this
      ensures Valid()
      ensures log == old(log) + CancelsBelow(old(chans), 0x100)
      ensures chans == old(chans) && armed == old(armed) && wake == old(wake)
      ensures reports == old(reports) && shutdown == old(shutdown)
    {
      var oid := 0;
      while oid < 0x100
        invariant 0 <= oid <= 0x100
        invariant log == old(log) + CancelsBelow(chans, oid)
        invariant Valid() && chans == old(chans) && armed == old(armed) && wake == old(wake)
        invariant reports == old(reports) && shutdown == old(shutdown)
      {
        if oid in chans {
          NoReadsInCancels(chans, oid);
          ReadsFollowAppend(old(log), CancelsBelow(chans, oid) + [Cancel(chans[oid].pin)]);
          log := log + [Cancel(chans[oid].pin)];
        }
        oid := oid + 1;
      }
    }
  }

  /** The cancels `analog_in_shutdown` issues for the oids below `n`. */
  function CancelsBelow(chans: map<nat, AnalogIn>, n: nat): seq<AdcCall>
  {
    if n == 0 then [] else CancelsBelow(chans, n - 1) + (if n - 1 in chans then [Cancel(chans[n - 1].pin)] else [])
  }

  lemma NoReadsInCancels(chans: map<nat, AnalogIn>, n: nat)
    ensures forall i | 0 <= i < |CancelsBelow(chans, n)| :: CancelsBelow(chans, n)[i].Cancel?
  {
  }

  // ----- sampling windows -----

  /** The channel after a sequence of timer events, each given as (sample delay, reading). */
  function Run(a: AnalogIn, evs: seq<(u32, u16)>): AnalogIn
    decreases |evs|
  {
    if evs == [] then a else Run(EventStep(a, evs[0].0, evs[0].1).chan, evs[1..])
  }

  /** The readings actually taken: those of the events whose sample delay was 0. */
  function Reads(evs: seq<(u32, u16)>): seq<u16>
    decreases |evs|
  {
    if evs == [] then [] else (if evs[0].0 == 0 then [evs[0].1] else []) + Reads(evs[1..])
  }

  function Sum(rs: seq<u16>): int
  {
    if rs == [] then 0 else rs[0] as int + Sum(rs[1..])
  }

  lemma ModAdd(x: int, y: int)
    ensures (x % 0x1_0000 + y) % 0x1_0000 == (x + y) % 0x1_0000
  {
  }

  /** Mid-window: the remaining reads are added, modulo 2^16, and the window completes exactly at its last read. */
  lemma {:induction false} RestOfWindow(a: AnalogIn, evs: seq<(u32, u16)>)
    requires 1 <= a.state <= a.sampleCount
    requires |Reads(evs)| == a.sampleCount as int - a.state as int
    ensures Run(a, evs).state == a.sampleCount && Run(a, evs).sampleCount == a.sampleCount
    ensures Run(a, evs).value as int == (a.value as int + Sum(Reads(evs))) % 0x1_0000
    decreases |evs|
  {
    if evs != [] {
      var b := EventStep(a, evs[0].0, evs[0].1).chan;
      if evs[0].0 == 0 {
        assert Reads(evs) == [evs[0].1] + Reads(evs[1..]);
        assert a.state < a.sampleCount;
        assert b.value as int == (a.value as int + evs[0].1 as int) % 0x1_0000;
        assert b.state as int == a.state as int + 1;
        RestOfWindow(b, evs[1..]);
        ModAdd(a.value as int + evs[0].1 as int, Sum(Reads(evs[1..])));
      } else {
        assert Reads(evs) == Reads(evs[1..]);
        RestOfWindow(b, evs[1..]);
      }
    }
  }

  /**
   * From a channel whose window is complete or not yet started
   * (`state >= sample_count`), exactly `sample_count` successful reads, with
   * any number of retries in between, complete a window whose value is the
   * sum of those readings modulo 2^16.
   */
  lemma {:induction false} WindowSum(a: AnalogIn, evs: seq<(u32, u16)>)
    requires 1 <= a.sampleCount <= a.state
    requires |Reads(evs)| == a.sampleCount as int
    ensures Run(a, evs).state == a.sampleCount && Ready(Run(a, evs))
    ensures Run(a, evs).value as int == Sum(Reads(evs)) % 0x1_0000
    decreases |evs|
  {
    var b := EventStep(a, evs[0].0, evs[0].1).chan;
    if evs[0].0 == 0 {
      assert Reads(evs) == [evs[0].1] + Reads(evs[1..]);
      assert b.state == 1 && b.value == evs[0].1;
      RestOfWindow(b, evs[1..]);
    } else {
      assert Reads(evs) == Reads(evs[1..]);
      WindowSum(b, evs[1..]);
    }
  }

  /** A completed window that the task never claimed is discarded by the next read. */
  lemma UnclaimedWindowOverwritten(a: AnalogIn, reading: u16)
    requires Ready(a)
    ensures EventStep(a, 0, reading).chan.value == reading
    ensures EventStep(a, 0, reading).chan.state == 1
  {
  }

  // ----- the 8-bit sentinel at sample_count 255 -----

  /**
   * As written: with `sample_count` 255, `sample_count + 1` wraps to 0, so the
   * first read after the query adds to the stale `value` instead of
   * starting a new window.
   */
  lemma QueryWrapsAt255(a: AnalogIn, q: Query, reading: u16)
    requires q.sampleCount as int % 0x100 == 0xFF
    ensures QueryStep(a, q).0.state == 0
    ensures EventStep(QueryStep(a, q).0, 0, reading).chan.value as int == (a.value as int + reading as int) % 0x1_0000
  {
  }

  /** As written: claiming a window of 255 reads wraps `state` to 0, so the next window adds to the claimed value. */
  lemma ClaimWrapsAt255(a: AnalogIn, reading: u16)
    requires Ready(a) && a.sampleCount == 0xFF
    ensures Claim(a).state == 0
    ensures EventStep(Claim(a), 0, reading).chan.value as int == (a.value as int + reading as int) % 0x1_0000
  {
  }

  /** A concrete input: after a claimed 255-read window of value 1, a first reading of 0 leaves 1 instead of 0. */
  lemma StaleValueExample()
    ensures var a := AnalogIn(0, 0, 0, 0, 1, 0, 0xFFFF, 0, 0xFF, 0xFF);
            EventStep(Claim(a), 0, 0).chan.value == 1
  {
  }

  /**
   * Corrected query: a `sample_count` whose sentinel `sample_count + 1` does
   * not fit in 8 bits (255) is refused like 0, so every armed channel has
   * `1 <= sample_count <= 254` and starts with `state = sample_count + 1`.
   */
  function QueryChecked(a: AnalogIn, q: Query): (r: (AnalogIn, bool))
    ensures r.1 <==> 1 <= q.sampleCount as int % 0x100 <= 0xFE
    ensures r.1 ==> 1 <= r.0.sampleCount <= 0xFE && r.0.state as int == r.0.sampleCount as int + 1
    ensures r.0 == QueryStep(a, q).0
  {
    var (b, ok) := QueryStep(a, q);
    (b, ok && b.sampleCount != 0xFF)
  }

  /** Channels whose sentinel never wraps: every window, the first and every one after a claim, starts afresh. */
  predicate Fresh(a: AnalogIn)
  {
    1 <= a.sampleCount <= 0xFE && a.state > a.sampleCount
  }

  /**
   * With the corrected query, every window is exactly the sum of its
   * readings, and claiming it returns the channel to a fresh state.
   */
  lemma CheckedWindowsReseed(a: AnalogIn, evs: seq<(u32, u16)>)
    requires Fresh(a)
    requires |Reads(evs)| == a.sampleCount as int
    ensures Ready(Run(a, evs))
    ensures Run(a, evs).value as int == Sum(Reads(evs)) % 0x1_0000
    ensures Fresh(Claim(Run(a, evs)))
  {
    WindowSum(a, evs);
  }

  lemma QueryCheckedIsFresh(a: AnalogIn, q: Query)
    requires QueryChecked(a, q).1
    ensures Fresh(QueryChecked(a, q).0)
  {
  }
}
