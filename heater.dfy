/**
 * The SPI temperature-sensor front ends of the host (klippy/heater.py):
 * the MAX31865 RTD reader and the MAX31856 / MAX6675 / MAX31855
 * thermocouple readers.  Modelled are the fault decoding, the read
 * command, byte count and fault filter handed to the firmware, the chip
 * configuration bytes, and the integer stage of the thermocouple
 * temperature conversion.  A raised `error` is an `Err` with its message.
 */
module Heater {
  import opened Ints
  import opened Wrappers

  /** Which reader a sensor section configures: the RTD, the MAX31856, or a "simple" MAX6675/MAX31855. */
  datatype Sensor = Rtd(use50Hz: bool, numWires: int) | Max31856(use50Hz: bool, tcType: bv32, averageBits: bv32) | SimpleK

  // ----- fault decoding -----

  /** A fault table: each test masks the status and names the error of its bit. */
  datatype FaultTest = FaultTest(mask: bv32, msg: string)

  /** `fault & mask` is nonzero. */
  predicate Meets(fault: bv32, mask: bv32)
  {
    fault & mask != 0
  }

  /** The index of the first test from `k` on whose mask meets `fault`, or the number of tests when none does. */
  function FirstMatch(fault: bv32, tests: seq<FaultTest>, k: nat): (i: nat)
    requires k <= |tests|
    ensures k <= i <= |tests|
    ensures i < |tests| ==> Meets(fault, tests[i].mask)
    ensures forall j | k <= j < i :: !Meets(fault, tests[j].mask)
    decreases |tests| - k
  {
    if k == |tests| then k
    else if Meets(fault, tests[k].mask) then k
    else FirstMatch(fault, tests, k + 1)
  }

  /** The message of the first test whose mask meets `fault`, if any: the `if` chain of each `check_faults`. */
  function FirstFault(fault: bv32, tests: seq<FaultTest>): (r: Option<string>)
    ensures r.None? <==> forall j | 0 <= j < |tests| :: !Meets(fault, tests[j].mask)
  {
    var i := FirstMatch(fault, tests, 0);
    if i < |tests| then Some(tests[i].msg) else None
  }

  /** The message raised is that of the first test whose mask meets the value: earlier tests take priority. */
  lemma FirstFaultIsFirst(fault: bv32, tests: seq<FaultTest>, i: nat)
    requires i < |tests| && Meets(fault, tests[i].mask)
    requires forall j | 0 <= j < i :: !Meets(fault, tests[j].mask)
    ensures FirstFault(fault, tests) == Some(tests[i].msg)
  {
  }

  const RTD_FAULTS: seq<FaultTest> := [
    FaultTest(0x80, "Max31865 RTD input is disconnected"),
    FaultTest(0x40, "Max31865 RTD input is shorted"),
    FaultTest(0x20, "Max31865 VREF- is greater than 0.85 * VBIAS, FORCE- open"),
    FaultTest(0x10, "Max31865 VREF- is less than 0.85 * VBIAS, FORCE- open"),
    FaultTest(0x08, "Max31865 VRTD- is less than 0.85 * VBIAS, FORCE- open"),
    FaultTest(0x04, "Max31865 Overvoltage or undervoltage fault"),
    FaultTest(0x03, "Max31865 Unspecified error")]

  const MAX31856_FAULTS: seq<FaultTest> := [
    FaultTest(0x80, "Max31856: Cold Junction Range Fault"),
    FaultTest(0x40, "Max31856: Thermocouple Range Fault"),
    FaultTest(0x20, "Max31856: Cold Junction High Fault"),
    FaultTest(0x10, "Max31856: Cold Junction Low Fault"),
    FaultTest(0x08, "Max31856: Thermocouple High Fault"),
    FaultTest(0x04, "Max31856: Thermocouple Low Fault"),
    FaultTest(0x02, "Max31856: Over/Under Voltage Fault"),
    FaultTest(0x01, "Max31856: Thermocouple Open Fault")]

  const SIMPLE_FAULTS: seq<FaultTest> := [
    FaultTest(0x1, "MAX6675/MAX31855 : Open Circuit"),
    FaultTest(0x2, "MAX6675/MAX31855 : Short to GND"),
    FaultTest(0x4, "MAX6675/MAX31855 : Short to Vcc")]

  /**
   * `check_faults` of each sensor; `None` means the sensor passes.  The RTD
   * and MAX31856 chains look only at the low byte of the fault register, the
   * top bit taking priority; a simple reader is never failed here.
   */
  function CheckFaults(s: Sensor, fault: bv32): (r: Option<string>)
    ensures s.SimpleK? ==> r.None?
    ensures !s.SimpleK? ==> (r.None? <==> fault & 0xFF == 0)
    ensures s.Rtd? && Meets(fault, 0x80) ==> r == Some("Max31865 RTD input is disconnected")
    ensures s.Max31856? && Meets(fault, 0x80) ==> r == Some("Max31856: Cold Junction Range Fault")
  {
    ChipTablesPassOnZeroByte(fault);
    match s
    case Rtd(_, _) => FirstFault(fault, RTD_FAULTS)
    case Max31856(_, _, _) => FirstFault(fault, MAX31856_FAULTS)
    case SimpleK => None
  }

  /**
   * `_check_faults_simple`, which only a simple reader consults: it fails
   * exactly when one of the three low bits is set, open circuit taking
   * priority.
   */
  function CheckFaultsSimple(s: Sensor, val: bv32): (r: Option<string>)
    ensures !s.SimpleK? ==> r.None?
    ensures s.SimpleK? ==> (r.None? <==> val & 0x7 == 0)
    ensures s.SimpleK? && Meets(val, 0x1) ==> r == Some("MAX6675/MAX31855 : Open Circuit")
  {
    if s.SimpleK? then FirstFault(val, SIMPLE_FAULTS) else None
  }

  /** The RTD and MAX31856 tables pass exactly when the low byte is 0. */
  lemma ChipTablesPassOnZeroByte(fault: bv32)
    ensures FirstFault(fault, RTD_FAULTS).None? <==> fault & 0xFF == 0
    ensures FirstFault(fault, MAX31856_FAULTS).None? <==> fault & 0xFF == 0
  {
    LowByteBits(fault);
    var t := RTD_FAULTS;
    assert t[0].mask == 0x80 && t[1].mask == 0x40 && t[2].mask == 0x20 && t[3].mask == 0x10;
    assert t[4].mask == 0x08 && t[5].mask == 0x04 && t[6].mask == 0x03 && |t| == 7;
    var u := MAX31856_FAULTS;
    assert u[0].mask == 0x80 && u[1].mask == 0x40 && u[2].mask == 0x20 && u[3].mask == 0x10;
    assert u[4].mask == 0x08 && u[5].mask == 0x04 && u[6].mask == 0x02 && u[7].mask == 0x01 && |u| == 8;
  }

  /** The low byte is zero exactly when none of its bits, nor the pair 0x03, meets the value. */
  lemma LowByteBits(fault: bv32)
    ensures fault & 0xFF == 0 <==>
      !Meets(fault, 0x80) && !Meets(fault, 0x40) && !Meets(fault, 0x20) && !Meets(fault, 0x10) &&
      !Meets(fault, 0x08) && !Meets(fault, 0x04) && !Meets(fault, 0x02) && !Meets(fault, 0x01)
    ensures Meets(fault, 0x03) <==> Meets(fault, 0x02) || Meets(fault, 0x01)
  {
  }

  // ----- what the firmware reader is told -----

  const MAX31865_RTDLSB_REG := 0x02
  const MAX31856_LTCBL_REG := 0x0E

  /**
   * `get_read_cmd`: a register read (the write flag 0x80 of the
   * configuration commands clear) whose burst of `ReadBytes` bytes ends on
   * the last byte of the chip's temperature: RTD MSB..LSB on the MAX31865,
   * LTCBH..LTCBL on the MAX31856.
   */
  function ReadCmd(s: Sensor): (r: u8)
    ensures r < 0x80
    ensures s.Rtd? ==> r as int + ReadBytes(s) - 1 == MAX31865_RTDLSB_REG
    ensures s.Max31856? ==> r as int + ReadBytes(s) - 1 == MAX31856_LTCBL_REG
    ensures s.SimpleK? ==> r == 0x00
  {
    match s
    case Rtd(_, _) => 0x01
    case Max31856(_, _, _) => 0x0C
    case SimpleK => 0x00
  }

  /** `get_read_bytes`: at most the four bytes the firmware's 32-bit value holds, the RTD's 16-bit word in two. */
  function ReadBytes(s: Sensor): (n: nat)
    ensures 2 <= n <= 4
    ensures s.Rtd? ==> n == 2
  {
    match s
    case Rtd(_, _) => 2
    case Max31856(_, _, _) => 3
    case SimpleK => 4
  }

  /**
   * `get_fault_filter`, the bits of the read value on which the firmware
   * shuts down: the fault flag, bit 0, of the RTD word; nothing on the
   * MAX31856, whose faults the host checks; the "short to Vcc" bit alone on
   * a simple reader.
   */
  function FaultFilter(s: Sensor): (r: bv32)
    ensures s.Rtd? ==> r == 0x0001
    ensures s.Max31856? <==> r == 0
    ensures s.SimpleK? ==> r == 0x4 && FirstFault(r, SIMPLE_FAULTS) == Some("MAX6675/MAX31855 : Short to Vcc")
  {
    match s
    case Rtd(_, _) => 0x0001
    case Max31856(_, _, _) => 0
    case SimpleK => 0x4
  }

  // ----- chip configuration -----

  /** `RTD.get_configs`: one write of the MAX31865 configuration register. */
  function RtdConfigs(use50Hz: bool, numWires: int): (cfg: seq<bv32>)
    ensures |cfg| == 2 && cfg[0] == 0x80
    ensures cfg[1] & 0xC2 == 0xC2
    ensures cfg[1] & 0x01 != 0 <==> use50Hz
    ensures cfg[1] & 0x10 != 0 <==> numWires == 3
    ensures cfg[1] & !0xD3 == 0
  {
    var v0: bv32 := 0x80 | 0x40 | 0x02;
    var v1 := if use50Hz then v0 | 0x01 else v0;
    var v2 := if numWires == 3 then v1 | 0x10 else v1;
    [0x80 + 0x00, v2]
  }

  /** `Thermocouple.get_configs` as written: on a MAX31856 it reads `self.num_wires`, which the class never defines. */
  function ThermocoupleConfigs(s: Sensor): (r: Result<seq<bv32>>)
    requires !s.Rtd?
    ensures s.SimpleK? ==> r == Ok([])
  {
    if s.SimpleK? then Ok([])
    else Err("AttributeError: 'Thermocouple' object has no attribute 'num_wires'")
  }

  /** As written, no MAX31856 can be configured. */
  lemma Max31856ConfigAlwaysFails(use50Hz: bool, tcType: bv32, averageBits: bv32)
    ensures ThermocoupleConfigs(Max31856(use50Hz, tcType, averageBits)).Err?
  {
  }

  /**
   * Corrected: the 3-wire test, which belongs to the RTD, is dropped; CR0,
   * CR1 and MASK are written.  The list is pairs of a register write and its
   * value, and agrees with the as-written one wherever that succeeds.
   */
  function ThermocoupleConfigsFixed(s: Sensor): (cfg: seq<bv32>)
    requires !s.Rtd?
    ensures |cfg| % 2 == 0
    ensures forall i | 0 <= i < |cfg| && i % 2 == 0 :: cfg[i] & 0x80 == 0x80
    ensures ThermocoupleConfigs(s).Ok? ==> cfg == ThermocoupleConfigs(s).value
  {
    match s
    case SimpleK => []
    case Max31856(use50Hz, tcType, averageBits) =>
      var cr0: bv32 := if use50Hz then 0x80 | 0x01 else 0x80;
      [0x80 + 0x00, cr0, 0x80 + 0x01, tcType | averageBits, 0x80 + 0x02, 0x02 | 0x01]
  }

  /** The corrected MAX31856 configuration is three register writes (write flag 0x80 on CR0, CR1, MASK), auto-conversion on, the mains filter as chosen, and the type and averaging combined in CR1. */
  lemma ThermocoupleConfigsFixedPairs(use50Hz: bool, tcType: bv32, averageBits: bv32)
    ensures var cfg := ThermocoupleConfigsFixed(Max31856(use50Hz, tcType, averageBits));
      |cfg| == 6 && cfg[0] == 0x80 && cfg[2] == 0x81 && cfg[4] == 0x82 &&
      cfg[1] & 0x80 != 0 && (cfg[1] & 0x01 != 0 <==> use50Hz) &&
      cfg[3] == tcType | averageBits && cfg[5] == 0x03
  {
  }

  // ----- integer stage of calc_temp -----

  /** The sign bit of the shifted reading and the shift, per reader. */
  function SignBit(simple: bool): nat { if simple then 0x2000 else 0x40000 }
  function Scale(simple: bool): nat { if simple then 18 else 5 }

  /** The top bit of the bytes read is what the shift moves onto the sign bit. */
  lemma SignBitIsTopReadBit(s: Sensor)
    requires !s.Rtd?
    ensures var simple := s.SimpleK?;
      Pow2(8 * ReadBytes(s) - 1) == SignBit(simple) * Pow2(Scale(simple))
  {
    Pow2Add(13, 18);
    Pow2Add(18, 5);
    assert Pow2(13) == 0x2000 by { Pow2Add(8, 5); }
    assert Pow2(18) == 0x40000 by { Pow2Add(8, 10); Pow2Add(5, 5); Pow2Add(10, 8); }
  }

  /** The sign fix as written: with the sign bit set the value becomes `-((adc & (sign - 1)) + 1)`. */
  function SignFix(adc: nat, sign: nat): int
    requires sign > 0
  {
    if (adc / sign) % 2 == 1 then -((adc % sign) + 1) else adc
  }

  /**
   * The integer stage as written: a simple reader's faults first, then the
   * shift and the sign fix.  With the sign bit set it lands one below minus
   * the sum of the corrected value and the sign weight; otherwise the two agree.
   */
  function IntegerStage(simple: bool, adc: bv32): (r: Result<int>)
    ensures r.Err? <==> simple && adc & 0x7 != 0
    ensures r.Ok? && (Shifted(simple, adc) / SignBit(simple)) % 2 == 1 ==>
      r.value == -(IntegerStageFixed(simple, adc).value + SignBit(simple) + 1)
    ensures r.Ok? && (Shifted(simple, adc) / SignBit(simple)) % 2 == 0 ==> r == IntegerStageFixed(simple, adc)
  {
    if simple && CheckFaultsSimple(SimpleK, adc).Some? then Err(CheckFaultsSimple(SimpleK, adc).value)
    else Ok(SignFix(Shifted(simple, adc), SignBit(simple)))
  }

  /** `adc >> self.scale`. */
  function Shifted(simple: bool, adc: bv32): nat
  {
    (if simple then adc >> 18 else adc >> 5) as nat
  }

  /** Two's-complement encoding of `t` in a field whose top bit is `sign`. */
  function TwosComplement(t: int, sign: nat): nat
    requires sign > 0
  {
    t % (2 * sign)
  }

  /** As written: the 14-bit reading 0x3FFF, which encodes -1, is decoded as -8192 (0.25 * -8192 = -2048 degrees instead of -0.25). */
  lemma MinusOneDecodedWrong()
    ensures TwosComplement(-1, 0x2000) == 0x3FFF
    ensures SignFix(0x3FFF, 0x2000) == -8192
  {
  }

  /** Corrected sign fix: a set sign bit subtracts its weight once more. */
  function SignFixFixed(adc: nat, sign: nat): int
    requires sign > 0
  {
    if (adc / sign) % 2 == 1 then (adc % sign) - sign else adc
  }

  /** The corrected fix decodes every two's-complement value of the field and agrees with the original on non-negative readings. */
  lemma SignFixFixedRoundTrip(t: int, sign: nat)
    requires sign > 0 && -(sign as int) <= t < sign
    ensures SignFixFixed(TwosComplement(t, sign), sign) == t
    ensures t >= 0 ==> SignFix(TwosComplement(t, sign), sign) == t
  {
    var e := TwosComplement(t, sign);
    if t >= 0 {
      DivModUnique(t, 2 * sign, 0, t);
      DivModUnique(e, sign, 0, e);
    } else {
      DivModUnique(t, 2 * sign, -1, t + 2 * sign);
      DivModUnique(e, sign, 1, e - sign);
    }
  }

  /**
   * Corrected integer stage; the readers then use this one.  When the shifted
   * reading fits its field, the result is the signed value whose two's-complement
   * encoding it is.
   */
  function IntegerStageFixed(simple: bool, adc: bv32): (r: Result<int>)
    ensures r.Err? <==> simple && adc & 0x7 != 0
    ensures r.Ok? && Shifted(simple, adc) < 2 * SignBit(simple) ==>
      -(SignBit(simple) as int) <= r.value < SignBit(simple) && TwosComplement(r.value, SignBit(simple)) == Shifted(simple, adc)
  {
    if simple && CheckFaultsSimple(SimpleK, adc).Some? then Err(CheckFaultsSimple(SimpleK, adc).value)
    else
      var e := Shifted(simple, adc);
      if e < 2 * SignBit(simple) then SignFixFixedEncodes(e, SignBit(simple)); Ok(SignFixFixed(e, SignBit(simple)))
      else Ok(SignFixFixed(e, SignBit(simple)))
  }

  /** A field value decodes to a signed value in range that encodes back to it. */
  lemma SignFixFixedEncodes(e: nat, sign: nat)
    requires sign > 0 && e < 2 * sign
    ensures -(sign as int) <= SignFixFixed(e, sign) < sign
    ensures TwosComplement(SignFixFixed(e, sign), sign) == e
  {
    var t := SignFixFixed(e, sign);
    if e < sign {
      DivModUnique(e, sign, 0, e);
      DivModUnique(t, 2 * sign, 0, t);
    } else {
      DivModUnique(e, sign, 1, e - sign);
      DivModUnique(t, 2 * sign, -1, e);
    }
  }
}
