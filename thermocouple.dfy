/**
 * The timer-driven SPI temperature-sensor reader (src/thermocouple.c).
 *
 * On each timer event a reader selects its slave, sends `read_cmd`, shifts
 * `read_bytes` reply bytes into the 32-bit `value` (most significant first),
 * optionally reads the fault register, checks the value, and reschedules
 * itself `rest_time` after the previous start.  `spi_transfer` replies are a
 * supplied byte stream; the interval `read_interval` is only checked for 0.
 */
module Thermocouple {
  import opened Ints
  import opened Wrappers
  import opened SpiTrace

  /** `SPI_READ_CMD` outside the simulator. */
  const SPI_READ_CMD: u8 := 0x00

  const READER_FAULT: string := "Thermocouple reader fault"
  const OUT_OF_RANGE: string := "Thermocouple ADC out of range"
  const CONFIG_ERROR: string := "Thermocouple configuration error!"

  /** `struct thermocouple_spi` together with its timer's wake time. */
  datatype Reader = Reader(
    waketime: u32,
    restTime: u32, nextBeginTime: u32, readInterval: u32,
    faultMask: u32, value: u32, minValue: u32, maxValue: u32,
    config: nat, pin: nat,
    readCmd: u8, readBytes: u8, faultCmd: u8, faultValue: u8)

  /** The `config_thermocouple` arguments. */
  datatype Params = Params(
    readCmd: u8, clock: u32, interval: u32, minValue: u32, maxValue: u32,
    readBytes: u8, faultMask: u32, restTicks: u32, faultCmd: u8)

  /** A `thermocouple_result` report. */
  datatype Report = Report(oid: nat, nextClock: u32, value: u32, fault: u8)

  /** The number of data bytes an event reads: one, then one more for each further `read_bytes`. */
  function DataCount(r: Reader): (n: nat)
    ensures n >= 1 && n >= r.readBytes as nat && (r.readBytes >= 1 ==> n == r.readBytes as nat)
  {
    if r.readBytes <= 1 then 1 else r.readBytes as nat
  }

  /** Whether an event also reads the fault register. */
  predicate ReadsFault(r: Reader)
  {
    r.faultCmd != 0
  }

  /** The number of `spi_transfer` calls of one event. */
  function TransferCount(r: Reader): nat
  {
    1 + DataCount(r) + (if ReadsFault(r) then 2 else 0)
  }

  /** The flag `last` of the `i`-th data transfer: the first is never last, a later one when it is byte `read_bytes - 1`. */
  function DataLast(r: Reader, i: nat): bool
  {
    i >= 1 && i == r.readBytes as nat - 1
  }

  /** The transfers of the data bytes of one event. */
  function DataOps(r: Reader, k: nat): (ops: seq<BusOp>)
    ensures |ops| == k
    ensures forall i | 0 <= i < k :: ops[i] == Xfer(SPI_READ_CMD, DataLast(r, i))
  {
    seq(k, i requires 0 <= i < k => Xfer(SPI_READ_CMD, DataLast(r, i)))
  }

  /** The bus operations of one timer event, in order. */
  function EventOps(r: Reader): (ops: seq<BusOp>)
    ensures |ops| == TransferCount(r) + 3
    ensures ops[0] == SetConfig(r.config) && ops[1] == CsWrite(r.pin, false) && ops[2] == Xfer(r.readCmd, false)
    ensures ops[|ops| - 1] == CsWrite(r.pin, true)
    ensures forall i | 3 <= i < 3 + DataCount(r) :: ops[i] == Xfer(SPI_READ_CMD, DataLast(r, i - 3))
    ensures ReadsFault(r) ==> ops[|ops| - 3] == Xfer(r.faultCmd, false) && ops[|ops| - 2] == Xfer(0, true)
  {
    [SetConfig(r.config), CsWrite(r.pin, false), Xfer(r.readCmd, false)] + DataOps(r, DataCount(r))
      + (if ReadsFault(r) then [Xfer(r.faultCmd, false), Xfer(0, true)] else [])
      + [CsWrite(r.pin, true)]
  }

  /**
   * The transfers an event flags last: the final data byte when
   * `read_bytes >= 2` (the first data byte is never flagged), and the fault
   * read when there is one.  So with a fault read and `read_bytes >= 2` two
   * transfers are flagged last, and with neither none is.
   */
  lemma EventLastFlags(r: Reader, i: nat)
    requires i < |EventOps(r)|
    ensures (EventOps(r)[i].Xfer? && EventOps(r)[i].last) <==>
      (i == 2 + DataCount(r) && r.readBytes >= 2) || (i == |EventOps(r)| - 2 && ReadsFault(r))
  {
    var ops := EventOps(r);
    if 3 <= i < 3 + DataCount(r) {
      assert ops[i] == Xfer(SPI_READ_CMD, DataLast(r, i - 3));
    }
  }

  /** The value the data bytes shift into, one `ShiftIn` per byte from 0. */
  function Assembled(bytes: seq<u8>): u32
  {
    if |bytes| == 0 then 0 else ShiftIn(Assembled(bytes[..|bytes| - 1]), bytes[|bytes| - 1])
  }

  /** `value <<= 8; value |= b` on a `uint32_t` (the shift clears the low byte, so the or is an add). */
  function ShiftIn(v: u32, b: u8): (w: u32)
    ensures w as int == (v as int * 0x100 + b as int) % 0x1_0000_0000
  {
    ToU32(v as int * 0x100 + b as int)
  }

  lemma AssembledStep(bytes: seq<u8>)
    requires |bytes| > 0
    ensures Assembled(bytes) == ShiftIn(Assembled(bytes[..|bytes| - 1]), bytes[|bytes| - 1])
  {
  }

  lemma AssembledOne(bytes: seq<u8>)
    requires |bytes| == 1
    ensures Assembled(bytes) == bytes[0] as u32
  {
    assert bytes[..0] == [];
  }

  lemma DataOpsStep(r: Reader, k: nat)
    ensures DataOps(r, k + 1) == DataOps(r, k) + [Xfer(SPI_READ_CMD, DataLast(r, k))]
  {
  }

  /** The assembled value is the big-endian concatenation of the bytes, mod 2^32. */
  lemma {:induction false} AssembledIsBigEndian(bytes: seq<u8>)
    ensures Assembled(bytes) as int == BigEndian(bytes) % 0x1_0000_0000
  {
    if |bytes| > 0 {
      var pre := bytes[..|bytes| - 1];
      var b := bytes[|bytes| - 1] as int;
      AssembledIsBigEndian(pre);
      var x := BigEndian(pre);
      var m := 0x1_0000_0000;
      var q := x / m;
      assert x == q * m + x % m;
      assert x * 0x100 + b == (x % m * 0x100 + b) + (q * 0x100) * m;
      ModShift(x % m * 0x100 + b, q * 0x100, m);
    }
  }

  lemma ModShift(a: int, k: int, m: int)
    requires m > 0 && a >= 0
    ensures (a + k * m) % m == a % m
  {
    var q := a / m;
    var r := a % m;
    assert a == q * m + r;
    assert a + k * m == (q + k) * m + r;
    DivModUnique(a + k * m, m, q + k, r);
  }

  /** `value & fault_mask` is nonzero. */
  predicate Faulted(value: u32, mask: u32)
  {
    (value as bv32 & mask as bv32) != 0
  }

  /** How a timer event ends. */
  datatype Outcome = Reschedule | Shutdown(msg: string)

  /** The outcome of an event that read `value`: the fault test comes first, then the inclusive range. */
  function Check(r: Reader, value: u32): (o: Outcome)
    ensures o == Reschedule <==> !Faulted(value, r.faultMask) && r.minValue <= value <= r.maxValue
    ensures Faulted(value, r.faultMask) ==> o == Shutdown(READER_FAULT)
    ensures !Faulted(value, r.faultMask) && !(r.minValue <= value <= r.maxValue) ==> o == Shutdown(OUT_OF_RANGE)
  {
    if Faulted(value, r.faultMask) then Shutdown(READER_FAULT)
    else if value < r.minValue || value > r.maxValue then Shutdown(OUT_OF_RANGE)
    else Reschedule
  }

  /** The reader after `config_thermocouple` installed `p` (before any check). */
  function Install(r: Reader, p: Params): (s: Reader)
    ensures s.config == r.config && s.pin == r.pin && s.value == r.value && s.faultValue == r.faultValue
    ensures s.nextBeginTime == p.clock && s.readInterval == p.interval && s.restTime == p.restTicks
  {
    r.(readCmd := p.readCmd, nextBeginTime := p.clock, readInterval := p.interval,
       minValue := p.minValue, maxValue := p.maxValue, readBytes := p.readBytes,
       faultMask := p.faultMask, restTime := p.restTicks, faultCmd := p.faultCmd)
  }

  /** Whether `config_thermocouple` sends the configuration bytes `cfg`. */
  predicate SendsConfig(cfg: seq<u8>)
  {
    |cfg| > 1 && cfg[0] != 0
  }

  /**
   * The reader after one timer event with slave replies `replies`: the new
   * value and fault byte, and for a surviving event the next start and wake
   * time `rest_time` later (in 32-bit clock arithmetic).
   */
  function EventResult(r: Reader, replies: seq<u8>): (s: Reader)
    requires |replies| == TransferCount(r)
    ensures s.value == Assembled(replies[1..1 + DataCount(r)])
    ensures s.faultValue == if ReadsFault(r) then replies[|replies| - 1] else r.faultValue
    ensures Check(r, s.value) == Reschedule ==>
      s.nextBeginTime as int == (r.nextBeginTime as int + r.restTime as int) % 0x1_0000_0000 && s.waketime == s.nextBeginTime
    ensures Check(r, s.value).Shutdown? ==> s.nextBeginTime == r.nextBeginTime && s.waketime == r.waketime
    ensures s.(value := r.value, faultValue := r.faultValue, nextBeginTime := r.nextBeginTime, waketime := r.waketime) == r
  {
    var value := Assembled(replies[1..1 + DataCount(r)]);
    var s := r.(value := value, faultValue := if ReadsFault(r) then replies[|replies| - 1] else r.faultValue);
    if Check(r, value) == Reschedule then
      var next := ToU32(r.nextBeginTime as int + r.restTime as int);
      s.(nextBeginTime := next, waketime := next)
    else s
  }

  /** The record `oid_alloc` hands out (zeroed memory) after `config_thermocouple_ss_pin`. */
  function Allocated(pin: nat, config: nat): Reader
  {
    Reader(0, 0, 0, 0, 0, 0, 0, 0, config, pin, 0, 0, 0, 0)
  }

  /** What the task reports for one reader. */
  function Snapshot(oid: nat, r: Reader): Report
  {
    Report(oid, r.nextBeginTime, r.value, r.faultValue)
  }

  /** The snapshots `thermocouple_task` reports for the oids below `n`. */
  function ReportsBelow(readers: map<nat, Reader>, n: nat): (rs: seq<Report>)
    ensures |rs| <= n
  {
    if n == 0 then [] else ReportsBelow(readers, n - 1) + (if n - 1 in readers then [Snapshot(n - 1, readers[n - 1])] else [])
  }

  /** The task reports every configured reader, whatever its state: there is no ready check and no claim. */
  lemma {:induction false} ReportsEveryReader(readers: map<nat, Reader>, n: nat, oid: nat)
    requires oid in readers && oid < n
    ensures Snapshot(oid, readers[oid]) in ReportsBelow(readers, n)
  {
    if oid < n - 1 {
      ReportsEveryReader(readers, n - 1, oid);
    }
  }

  /** The chip-select pin of each configured reader. */
  function Pins(readers: map<nat, Reader>): (pins: map<nat, nat>)
    ensures pins.Keys == readers.Keys
    ensures forall o | o in readers :: pins[o] == readers[o].pin
  {
    map o | o in readers :: readers[o].pin
  }

  /**
   * The configured readers (`oid` -> `struct thermocouple_spi`), the armed
   * timers, the task wake flag, the bus log, the reports sent and the
   * shutdown reason.
   */
  class Readers {
    var readers: map<nat, Reader>
    var armed: set<nat>
    var wake: bool
    var bus: seq<BusOp>
    var reports: seq<Report>
    var shutdown: Option<string>

    ghost predicate Valid()
      reads this
    {
      armed <= readers.Keys
    }

    constructor ()
      ensures Valid() && readers == map[] && armed == {} && !wake && bus == [] && reports == [] && shutdown == None
    {
      readers, armed, wake, bus, reports, shutdown := map[], {}, false, [], [], None;
    }

    /** `command_config_thermocouple_ss_pin`, given the word `spi_get_config` produced. */
    method ConfigSsPin(oid: nat, pin: nat, config: nat)
      requires Valid() && oid < 0x100 && oid !in readers
      modifies this`readers
      ensures Valid() && readers == old(readers)[oid := Allocated(pin, config)]
    {
      readers := readers[oid := Allocated(pin, config)];
    }

    /**
     * `command_config_thermocouple`: installs the parameters, shuts down when
     * the interval or the start clock is 0, otherwise sends the configuration
     * bytes (only the final one flagged last) and arms the timer at the
     * start clock.
     */
    method Config(oid: nat, p: Params, cfg: seq<u8>)
      requires Valid() && oid in readers
      modifies this
      ensures Valid()
      ensures p.interval == 0 || p.clock == 0 ==>
        readers == old(readers)[oid := Install(old(readers)[oid], p)] &&
        shutdown == Some(CONFIG_ERROR) && bus == old(bus) && armed == old(armed)
      ensures p.interval != 0 && p.clock != 0 ==>
        readers == old(readers)[oid := Install(old(readers)[oid], p).(waketime := p.clock)] &&
        shutdown == old(shutdown) && armed == old(armed) + {oid} &&
        bus == old(bus) + (if SendsConfig(cfg)
          then [SetConfig(old(readers)[oid].config), CsWrite(old(readers)[oid].pin, false)] + Transfers(cfg) + [CsWrite(old(readers)[oid].pin, true)]
          else [])
      ensures wake == old(wake) && reports == old(reports)
    {
      var r := Install(readers[oid], p);
      readers := readers[oid := r];
      if r.readInterval == 0 || r.nextBeginTime == 0 {
        shutdown := Some(CONFIG_ERROR);
        return;
      }
      if SendsConfig(cfg) {
        bus := bus + [SetConfig(r.config), CsWrite(r.pin, false)];
        var k := 0;
        while k < |cfg|
          invariant 0 <= k <= |cfg|
          invariant bus == old(bus) + [SetConfig(r.config), CsWrite(r.pin, false)] + TransfersBelow(cfg, k)
          invariant readers == old(readers)[oid := r] && armed == old(armed) && shutdown == old(shutdown)
          invariant wake == old(wake) && reports == old(reports)
        {
          TransfersBelowStep(cfg, k);
          bus := bus + [Xfer(cfg[k], k == |cfg| - 1)];
          k := k + 1;
        }
        TransfersBelowAll(cfg);
        bus := bus + [CsWrite(r.pin, true)];
      }
      armed := armed - {oid};
      readers := readers[oid := r.(waketime := r.nextBeginTime)];
      armed := armed + {oid};
    }

    /**
     * The transfers of `thermocouple_event` up to the fault read: the command,
     * then the data bytes shifted into the value one by one.
     */
    method ReadValue(r: Reader, replies: seq<u8>) returns (value: u32)
      requires |replies| > DataCount(r)
      modifies this`bus
      ensures value == Assembled(replies[1..1 + DataCount(r)])
      ensures bus == old(bus) + [SetConfig(r.config), CsWrite(r.pin, false), Xfer(r.readCmd, false)] + DataOps(r, DataCount(r))
    {
      bus := bus + [SetConfig(r.config), CsWrite(r.pin, false), Xfer(r.readCmd, false)];
      value := replies[1] as u32;
      bus := bus + [Xfer(SPI_READ_CMD, false)];
      AssembledOne(replies[1..2]);
      DataOpsStep(r, 0);
      var iter := 1;
      while iter < r.readBytes as nat
        invariant 1 <= iter <= DataCount(r)
        invariant value == Assembled(replies[1..1 + iter])
        invariant bus == old(bus) + [SetConfig(r.config), CsWrite(r.pin, false), Xfer(r.readCmd, false)] + DataOps(r, iter)
      {
        AssembledStep(replies[1..2 + iter]);
        assert replies[1..2 + iter][..iter] == replies[1..1 + iter];
        value := ShiftIn(value, replies[1 + iter]);
        DataOpsStep(r, iter);
        bus := bus + [Xfer(SPI_READ_CMD, iter == r.readBytes as nat - 1)];
        iter := iter + 1;
      }
    }

    /**
     * `thermocouple_event` for an armed timer; `replies` are the bytes the
     * slave returns to the event's transfers.  The value is assembled from
     * the data replies, the fault register is read only when `fault_cmd` is
     * nonzero, and a surviving event moves the next start on by `rest_time`.
     */
    method Event(oid: nat, replies: seq<u8>)
      requires Valid() && oid in armed && |replies| == TransferCount(readers[oid])
      modifies this`readers, this`armed, this`wake, this`bus, this`shutdown
      ensures Valid()
      ensures bus == old(bus) + EventOps(old(readers)[oid])
      ensures readers == old(readers)[oid := EventResult(old(readers)[oid], replies)]
      ensures Check(old(readers)[oid], EventResult(old(readers)[oid], replies).value) == Reschedule ==>
        wake && armed == old(armed) && shutdown == old(shutdown)
      ensures Check(old(readers)[oid], EventResult(old(readers)[oid], replies).value).Shutdown? ==>
        shutdown == Some(Check(old(readers)[oid], EventResult(old(readers)[oid], replies).value).msg) &&
        armed == old(armed) - {oid} && wake == old(wake)
      ensures reports == old(reports)
    {
      var r := readers[oid];
      ghost var result := EventResult(r, replies);
      ghost var start := bus;
      var value := ReadValue(r, replies);
      var fault := ReadFault(start, r, replies);
      var s := r.(value := value, faultValue := fault);
      match Check(r, value)
      case Shutdown(msg) =>
        assert s == result;
        readers := readers[oid := s];
        armed := armed - {oid};
        shutdown := Some(msg);
      case Reschedule =>
        wake := true;
        var next := ToU32(r.nextBeginTime as int + r.restTime as int);
        assert s.(nextBeginTime := next, waketime := next) == result;
        readers := readers[oid := s.(nextBeginTime := next, waketime := next)];
    }

    /** The tail of an event: the fault register read when `fault_cmd` is nonzero, then chip select released. */
    method ReadFault(ghost start: seq<BusOp>, r: Reader, replies: seq<u8>) returns (fault: u8)
      requires |replies| == TransferCount(r)
      requires bus == start + [SetConfig(r.config), CsWrite(r.pin, false), Xfer(r.readCmd, false)] + DataOps(r, DataCount(r))
      modifies this`bus
      ensures fault == if ReadsFault(r) then replies[|replies| - 1] else r.faultValue
      ensures bus == start + EventOps(r)
    {
      ghost var head := bus;
      fault := r.faultValue;
      ghost var faultOps: seq<BusOp> := [];
      if r.faultCmd != 0 {
        faultOps := [Xfer(r.faultCmd, false), Xfer(0, true)];
        bus := bus + [Xfer(r.faultCmd, false), Xfer(0, true)];
        fault := replies[|replies| - 1];
      }
      assert bus == head + faultOps;
      bus := bus + [CsWrite(r.pin, true)];
      assert EventOps(r) == [SetConfig(r.config), CsWrite(r.pin, false), Xfer(r.readCmd, false)] + DataOps(r, DataCount(r))
        + faultOps + [CsWrite(r.pin, true)];
    }

    /** `thermocouple_task`: when woken, reports a snapshot of every configured reader in ascending oid order. */
    method Task()
      requires Valid()
      modifies this`wake, this`reports
      ensures !wake
      ensures old(wake) ==> reports == old(reports) + ReportsBelow(readers, 0x100)
      ensures !old(wake) ==> reports == old(reports)
    {
      if !wake {
        return;
      }
      wake := false;
      var oid := 0;
      while oid < 0x100
        invariant 0 <= oid <= 0x100 && !wake
        invariant reports == old(reports) + ReportsBelow(readers, oid)
      {
        if oid in readers {
          var r := readers[oid];
          reports := reports + [Snapshot(oid, r)];
        }
        oid := oid + 1;
      }
    }

    /** `thermocouple_shutdown`: raises the chip select of every configured reader. */
    method Shutdown()
      modifies this`bus
      ensures bus == old(bus) + DeselectBelow(Pins(readers), 0x100)
    {
      var oid := 0;
      while oid < 0x100
        invariant 0 <= oid <= 0x100
        invariant bus == old(bus) + DeselectBelow(Pins(readers), oid)
      {
        if oid in readers {
          bus := bus + [CsWrite(readers[oid].pin, true)];
        }
        oid := oid + 1;
      }
    }
  }
}
