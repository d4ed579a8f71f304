/**
 * Host-side TMC2130 stepper driver: the shadow copies of the write-only
 * configuration registers, their field tables, and the 40-bit SPI frames
 * (one address or status byte, then four data bytes).
 *
 * A shadow register is an unbounded Python int, modelled as a `nat`. Every
 * mask of the tables is a run of ones, `(2^width - 1) << low`, so
 * `(reg >> offset) & mask` is a base-2 digit range of `reg` and the bitwise
 * updates of `modify_REG_*` are digit replacements; the model states them
 * with division and remainder by powers of two.
 */
module Tmc2130 {
  import opened Ints
  import opened Wrappers

  /** A value handed to `modify_REG_*`: an int (a bool is 0 or 1) or a string key. */
  datatype PyVal = PInt(i: int) | PStr(s: string)



  /** One `(offset, mask, map)` entry of a `*_reg_def` table, with
    * `mask == (2^width - 1) << low`; a `None` map is the empty map. */
  datatype FieldDef = FieldDef(offset: nat, low: nat, width: nat, codes: map<PyVal, int>)

  /** The registers that keep a shadow copy on the host. */
  datatype Reg = GConf | IholdIrun | ChopConf | CoolConf | PwmConf

  function Address(r: Reg): bv8
  {
    match r
    case GConf => 0x00
    case IholdIrun => 0x10
    case ChopConf => 0x6C
    case CoolConf => 0x6D
    case PwmConf => 0x70
  }

  const REG_TPOWERDOWN: bv8 := 0x11
  const REG_TPWMTHRS: bv8 := 0x13
  const REG_TCOOLTHRS: bv8 := 0x14
  const REG_THIGH: bv8 := 0x15

  // ---------------------------------------------------------------------
  // Register definition tables
  // ---------------------------------------------------------------------

  /** A field whose mask is `2^width - 1`. */
  function Field(offset: nat, width: nat): FieldDef
  {
    FieldDef(offset, 0, width, map[])
  }

  function Flag(offset: nat): FieldDef
  {
    Field(offset, 1)
  }

  const MSTEPS_MAP: map<PyVal, int> :=
    map[PInt(256) := 0, PInt(128) := 1, PInt(64) := 2, PInt(32) := 3, PInt(16) := 4,
        PInt(8) := 5, PInt(4) := 6, PInt(2) := 7, PInt(1) := 8]
  const BLANK_TIME_MAP: map<PyVal, int> := map[PInt(16) := 0, PInt(24) := 1, PInt(36) := 2, PInt(54) := 3]
  const SEUP_MAP: map<PyVal, int> := map[PInt(1) := 0, PInt(2) := 1, PInt(4) := 2, PInt(8) := 3]
  const SEDN_MAP: map<PyVal, int> := map[PInt(32) := 0, PInt(8) := 1, PInt(2) := 2, PInt(1) := 3]
  const PWM_FREQ_MAP: map<PyVal, int> :=
    map[PStr("fPWM_2/1024") := 0, PStr("fPWM_2/683") := 1, PStr("fPWM_2/512") := 2, PStr("fPWM_2/410") := 3]
  const FREEWHEEL_MAP: map<PyVal, int> :=
    map[PStr("FREEWHEEL_NORMAL") := 0, PStr("FREEWHEEL_FREEWHEEL") := 1,
        PStr("FREEWHEEL_SHORT_LS") := 2, PStr("FREEWHEEL_SHORT_HS") := 3]

  /** The one field split over two bit ranges: `(4, 0b0111)` and `(8, 0b1000)`,
    * the second being bit 3 of the value placed at register bit 11. */
  const FAST_DECAY_TIME: seq<FieldDef> := [Field(4, 3), FieldDef(8, 3, 1, map[])]

  function GconfDefs(name: string): Option<seq<FieldDef>>
  {
    match name
    case "stop_enable" => Some([Flag(15)])
    case "small_hysterisis" => Some([Flag(14)])
    case "diag1_active_high" => Some([Flag(13)])
    case "diag0_active_high" => Some([Flag(12)])
    case "diag1_steps_skipped" => Some([Flag(11)])
    case "diag1_chopper_on" => Some([Flag(10)])
    case "diag1_index" => Some([Flag(9)])
    case "diag1_stall" => Some([Flag(8)])
    case "diag0_stall" => Some([Flag(7)])
    case "diag0_temp_prewarn" => Some([Flag(6)])
    case "diag0_errors" => Some([Flag(5)])
    case "shaft_dir" => Some([Flag(4)])
    case "stealthChop" => Some([Flag(2)])
    case "internal_Rsense" => Some([Flag(1)])
    case "external_ref" => Some([Flag(0)])
    case _ => None
  }

  function IholdIrunDefs(name: string): Option<seq<FieldDef>>
  {
    match name
    case "IHOLD" => Some([Field(0, 5)])
    case "IRUN" => Some([Field(8, 5)])
    case "IHOLDDELAY" => Some([Field(16, 4)])
    case _ => None
  }

  function ChopconfDefs(name: string): Option<seq<FieldDef>>
  {
    match name
    case "off_time" => Some([Field(0, 4)])
    case "hysterisis_start" => Some([Field(4, 3)])
    case "hysterisis_end" => Some([Field(7, 4)])
    case "fast_decay_time" => Some(FAST_DECAY_TIME)
    case "sine_offset" => Some([Field(7, 4)])
    case "disable_I_comparator" => Some([Flag(12)])
    case "random_off_time" => Some([Flag(13)])
    case "chopper_mode" => Some([Flag(14)])
    case "blank_time" => Some([FieldDef(15, 0, 2, BLANK_TIME_MAP)])
    case "vsense" => Some([Flag(17)])
    case "fullstep_threshold" => Some([Flag(18)])
    case "high_speed_mode" => Some([Flag(19)])
    case "sync_phases" => Some([Field(20, 4)])
    case "microsteps" => Some([FieldDef(24, 0, 4, MSTEPS_MAP)])
    case "interpolate" => Some([Flag(28)])
    case "double_edge_step" => Some([Flag(29)])
    case "disable_short_protection" => Some([Flag(30)])
    case _ => None
  }

  function CoolconfDefs(name: string): Option<seq<FieldDef>>
  {
    match name
    case "sg_min" => Some([Field(0, 4)])
    case "sg_step_width" => Some([FieldDef(5, 0, 2, SEUP_MAP)])
    case "sg_max" => Some([Field(8, 4)])
    case "sg_current_decrease" => Some([FieldDef(13, 0, 2, SEDN_MAP)])
    case "smart_min_current" => Some([Flag(15)])
    case "sg_stall_value" => Some([Field(16, 7)])
    case "sg_filter" => Some([Flag(24)])
    case _ => None
  }

  function PwmconfDefs(name: string): Option<seq<FieldDef>>
  {
    match name
    case "stealth_amplitude" => Some([Field(0, 8)])
    case "stealth_gradient" => Some([Field(8, 8)])
    case "stealth_freq" => Some([FieldDef(16, 0, 2, PWM_FREQ_MAP)])
    case "stealth_autoscale" => Some([Flag(18)])
    case "stealth_symmetric" => Some([Flag(19)])
    case "standstill_mode" => Some([FieldDef(20, 0, 2, FREEWHEEL_MAP)])
    case _ => None
  }

  /** The `*_reg_def[name]` lookup; `None` is the KeyError. */
  function Defs(r: Reg, name: string): Option<seq<FieldDef>>
  {
    match r
    case GConf => GconfDefs(name)
    case IholdIrun => IholdIrunDefs(name)
    case ChopConf => ChopconfDefs(name)
    case CoolConf => CoolconfDefs(name)
    case PwmConf => PwmconfDefs(name)
  }

  // ---------------------------------------------------------------------
  // Field access on a shadow register
  // ---------------------------------------------------------------------

  /** The weight of the field's lowest register bit, `1 << (offset + low)`. */
  function Unit(d: FieldDef): (u: nat)
    ensures u >= 1
  {
    Pow2(d.offset + d.low)
  }

  /** The number of values the field holds. */
  function Span(d: FieldDef): (w: nat)
    ensures w >= 1
  {
    Pow2(d.width)
  }

  /** The field's bits of `reg`, shifted down to bit 0. */
  function Digit(reg: nat, d: FieldDef): (y: nat)
    ensures y < Span(d)
  {
    (reg / Unit(d)) % Span(d)
  }

  /** `(reg >> offset) & mask` */
  function Get(reg: nat, d: FieldDef): nat
  {
    Digit(reg, d) * Pow2(d.low)
  }

  /** The bits of `val & mask` shifted down to bit 0 (Python's `&` on a negative int
    * is two's complement, which floor division gives). */
  function Code(val: int, d: FieldDef): (y: nat)
    ensures y < Span(d)
  {
    (val / Pow2(d.low)) % Span(d)
  }

  /** `val & mask` */
  function And(val: int, d: FieldDef): nat
  {
    Code(val, d) * Pow2(d.low)
  }

  /** `reg &= ~(mask << offset); reg |= (val & mask) << offset`, the new field bits being `y`. */
  function Place(reg: nat, d: FieldDef, y: nat): nat
    requires y < Span(d)
  {
    DigitBelow(reg, d);
    reg - Digit(reg, d) * Unit(d) + y * Unit(d)
  }

  /** `val = _map[val]` when the definition's map has the value. */
  function Mapped(v: PyVal, d: FieldDef): PyVal
  {
    if v in d.codes then PInt(d.codes[v]) else v
  }

  /** Register bit `j` of `x`. */
  function Bit(x: int, j: nat): int
  {
    (x / Pow2(j)) % 2
  }

  predicate InField(d: FieldDef, j: nat)
  {
    d.offset + d.low <= j < d.offset + d.low + d.width
  }

  /** Some definition of the field owns register bit `j`. */
  predicate InSpan(defs: seq<FieldDef>, j: nat)
  {
    exists i :: 0 <= i < |defs| && InField(defs[i], j)
  }

  /** The state after the loop over `defs[k..]`: the register so far, whether a field
    * changed, and whether `val & mask` raised a TypeError (a string no map translated).
    * `current_val` and `val & mask` are `Digit` and `Code` times `1 << low`, so their
    * xor is non-zero iff the digits differ. */
  datatype Pass = Pass(reg: nat, send: bool, failed: bool)

  function ModifyFrom(reg: nat, defs: seq<FieldDef>, v: PyVal, k: nat): (r: Pass)
    ensures !r.send ==> r.reg == reg
    decreases |defs| - k
  {
    if k >= |defs| then Pass(reg, false, false)
    else
      var d := defs[k];
      var v' := Mapped(v, d);
      if v'.PStr? then Pass(reg, false, true)
      else
        var y := Code(v'.i, d);
        var changed := Digit(reg, d) != y;
        var rest := ModifyFrom(if changed then Place(reg, d, y) else reg, defs, v', k + 1);
        Pass(rest.reg, changed || rest.send, rest.failed)
  }

  /** The new shadow value and the register value written on the bus, if any. */
  datatype Modification = Modification(reg: nat, write: Option<nat>)

  /** `modify_REG_*(name, val)`: a KeyError leaves everything as it was; a TypeError keeps
    * the fields already replaced but writes nothing; otherwise the register is written
    * iff `send` was set. */
  function ModifyReg(reg: nat, r: Reg, name: string, v: PyVal): (m: Modification)
    ensures Defs(r, name).None? ==> m == Modification(reg, None)
    ensures m.write.Some? ==> m.write.value == m.reg
  {
    match Defs(r, name)
    case None => Modification(reg, None)
    case Some(defs) =>
      var p := ModifyFrom(reg, defs, v, 0);
      Modification(p.reg, if !p.failed && p.send then Some(p.reg) else None)
  }

  lemma ModifyRegOf(reg: nat, r: Reg, name: string, v: PyVal, defs: seq<FieldDef>)
    requires Defs(r, name) == Some(defs)
    ensures var p := ModifyFrom(reg, defs, v, 0);
      ModifyReg(reg, r, name, v) == Modification(p.reg, if !p.failed && p.send then Some(p.reg) else None)
  {
  }

  /** The sum of `(reg >> offset) & mask` over `defs[k..]`; on one range it is that range's piece. */
  function ReadFrom(reg: nat, defs: seq<FieldDef>, k: nat): (r: nat)
    ensures k + 1 == |defs| ==> r == Get(reg, defs[k])
    decreases |defs| - k
  {
    if k >= |defs| then 0 else Get(reg, defs[k]) + ReadFrom(reg, defs, k + 1)
  }

  /** `read_REG_*(name)`: the sum of the field pieces, `None` for an unknown name. */
  function ReadReg(reg: nat, r: Reg, name: string): (v: Option<nat>)
    ensures v.None? <==> Defs(r, name).None?
  {
    match Defs(r, name)
    case None => None
    case Some(defs) => Some(ReadFrom(reg, defs, 0))
  }

  /** Register bit `j` belongs to the named field. */
  predicate Owns(r: Reg, name: string, j: nat)
  {
    Defs(r, name).Some? && InSpan(Defs(r, name).value, j)
  }

  // ---------------------------------------------------------------------
  // Digit arithmetic
  // ---------------------------------------------------------------------

  lemma DigitBelow(reg: nat, d: FieldDef)
    ensures Digit(reg, d) * Unit(d) <= reg
  {
    DigitBelowN(reg, Unit(d), Span(d));
  }

  lemma DigitBelowN(x: nat, u: nat, w: nat)
    requires u > 0 && w > 0
    ensures ((x / u) % w) * u <= x
  {
    var q := x / u;
    assert q == (q / w) * w + q % w;
    assert (q / w) * w >= 0;
    MulLe(q % w, q, u);
    assert x == q * u + x % u;
  }

  lemma DivDiv(x: nat, a: nat, b: nat)
    requires a > 0 && b > 0
    ensures x / (a * b) == (x / a) / b
  {
    var q, r := x / a, x % a;
    var q2, r2 := q / b, q % b;
    assert x == a * q + r;
    assert q == b * q2 + r2;
    assert a * q == a * (b * q2) + a * r2;
    assert a * (b * q2) == (a * b) * q2;
    MulLe(r2, b - 1, a);
    assert a * (b - 1) == a * b - a;
    DivModUnique(x, a * b, q2, a * r2 + r);
  }

  /** `x` written as its digits above, inside and below a field of weight `u` and `w` values. */
  lemma LayersN(x: nat, u: nat, w: nat)
    requires u > 0 && w > 0
    ensures x == (x / (u * w)) * (u * w) + ((x / u) % w) * u + x % u
  {
    var q := x / u;
    DivDiv(x, u, w);
    assert q == (q / w) * w + q % w;
    assert x == q * u + x % u;
    assert q * u == ((q / w) * w) * u + (q % w) * u;
    assert ((q / w) * w) * u == (q / w) * (u * w);
  }

  /** Replacing the middle digit: the new digit reads back and the outer layers stay. */
  lemma ReplaceN(x: nat, u: nat, w: nat, y: nat)
    requires u > 0 && w > 0 && y < w
    requires ((x / u) % w) * u <= x
    ensures var x' := x - ((x / u) % w) * u + y * u;
      (x' / u) % w == y && x' % u == x % u && x' / (u * w) == x / (u * w)
  {
    var a, c := x / (u * w), x % u;
    LayersN(x, u, w);
    var x' := x - ((x / u) % w) * u + y * u;
    assert x' == a * (u * w) + y * u + c;
    assert a * (u * w) + y * u == (a * w + y) * u;
    DivModUnique(x', u, a * w + y, c);
    DivModUnique(a * w + y, w, a, y);
    DivDiv(x', u, w);
  }

  /** Placing `y` sets the field to `y` and keeps the bits below and above it. */
  lemma PlaceDigit(reg: nat, d: FieldDef, y: nat)
    requires y < Span(d)
    ensures Digit(Place(reg, d, y), d) == y
    ensures Place(reg, d, y) % Unit(d) == reg % Unit(d)
    ensures Place(reg, d, y) / (Unit(d) * Span(d)) == reg / (Unit(d) * Span(d))
  {
    DigitBelow(reg, d);
    ReplaceN(reg, Unit(d), Span(d), y);
  }

  lemma PlaceCurrent(reg: nat, d: FieldDef)
    ensures Place(reg, d, Digit(reg, d)) == reg
  {
  }

  /** A bit below bit `e` depends only on `x % 2^e`. */
  lemma BitOfRem(x: nat, e: nat, j: nat)
    requires j < e
    ensures Bit(x, j) == Bit(x % Pow2(e), j)
  {
    Pow2Add(j, e - j);
    BitOfRemN(x, Pow2(j), Pow2(e - j));
  }

  lemma BitOfRemN(x: nat, p: nat, m: nat)
    requires p > 0 && m > 0 && m % 2 == 0
    ensures (x / p) % 2 == ((x % (p * m)) / p) % 2
  {
    var q, r := x / (p * m), x % (p * m);
    assert x == q * (p * m) + r;
    assert r == (r / p) * p + r % p;
    assert q * (p * m) == (q * m) * p;
    assert x == (q * m + r / p) * p + r % p;
    DivModUnique(x, p, q * m + r / p, r % p);
    var h := m / 2;
    assert q * m == (q * h) * 2;
    DivModUnique(q * m + r / p, 2, q * h + (r / p) / 2, (r / p) % 2);
  }

  /** A bit at or above bit `e` is a bit of `x / 2^e`. */
  lemma BitOfQuot(x: nat, e: nat, j: nat)
    requires j >= e
    ensures Bit(x, j) == Bit(x / Pow2(e), j - e)
  {
    Pow2Add(e, j - e);
    DivDiv(x, Pow2(e), Pow2(j - e));
  }

  /** Two registers that agree below and above a field agree on every bit outside it. */
  lemma SameOutside(x: nat, x': nat, d: FieldDef)
    requires x % Unit(d) == x' % Unit(d)
    requires x / (Unit(d) * Span(d)) == x' / (Unit(d) * Span(d))
    ensures forall j: nat :: !InField(d, j) ==> Bit(x, j) == Bit(x', j)
  {
    var lo := d.offset + d.low;
    Pow2Add(lo, d.width);
    forall j: nat | !InField(d, j)
      ensures Bit(x, j) == Bit(x', j)
    {
      if j < lo {
        BitOfRem(x, lo, j);
        BitOfRem(x', lo, j);
      } else {
        BitOfQuot(x, lo + d.width, j);
        BitOfQuot(x', lo + d.width, j);
      }
    }
  }

  // ---------------------------------------------------------------------
  // Properties of modify and read
  // ---------------------------------------------------------------------

  lemma {:induction false} ModifyFromKeepsBits(reg: nat, defs: seq<FieldDef>, v: PyVal, k: nat)
    ensures forall j: nat :: !InSpan(defs, j) ==> Bit(ModifyFrom(reg, defs, v, k).reg, j) == Bit(reg, j)
    decreases |defs| - k
  {
    if k < |defs| {
      var d := defs[k];
      var v' := Mapped(v, d);
      if v'.PInt? {
        var y := Code(v'.i, d);
        var reg' := if Digit(reg, d) != y then Place(reg, d, y) else reg;
        PlaceDigit(reg, d, y);
        SameOutside(reg, reg', d);
        ModifyFromKeepsBits(reg', defs, v', k + 1);
        forall j: nat | !InSpan(defs, j)
          ensures Bit(ModifyFrom(reg, defs, v, k).reg, j) == Bit(reg, j)
        {
          assert !InField(defs[k], j);
        }
      }
    }
  }

  /** `modify_REG_*` changes no register bit outside the named field's masks; an unknown
    * name changes nothing at all. */
  lemma ModifyKeepsOtherBits(reg: nat, r: Reg, name: string, v: PyVal)
    ensures forall j: nat :: !Owns(r, name, j) ==> Bit(ModifyReg(reg, r, name, v).reg, j) == Bit(reg, j)
  {
    if Defs(r, name).Some? {
      ModifyFromKeepsBits(reg, Defs(r, name).value, v, 0);
    }
  }

  // ---------------------------------------------------------------------
  // Facts about the tables
  // ---------------------------------------------------------------------

  /** The field is a single bit range. */
  predicate SingleRange(r: Reg, name: string)
  {
    Defs(r, name).Some? && |Defs(r, name).value| == 1
  }

  function OnlyDef(r: Reg, name: string): FieldDef
    requires SingleRange(r, name)
  {
    Defs(r, name).value[0]
  }

  /** A map's codes fit the unshifted field. */
  predicate CodesWithin(d: FieldDef)
  {
    forall v | v in d.codes :: d.low == 0 && 0 <= d.codes[v] < Span(d)
  }

  /** The shapes a definition list takes: one range whose codes fit, or the split `fast_decay_time`. */
  predicate Shaped(defs: seq<FieldDef>)
  {
    (|defs| == 1 && CodesWithin(defs[0])) || defs == FAST_DECAY_TIME
  }

  lemma GconfShaped(name: string)
    ensures GconfDefs(name).Some? ==> |GconfDefs(name).value| == 1 && GconfDefs(name).value[0].codes == map[]
  {
  }

  lemma IholdIrunShaped(name: string)
    ensures IholdIrunDefs(name).Some? ==> |IholdIrunDefs(name).value| == 1 && IholdIrunDefs(name).value[0].codes == map[]
  {
  }

  lemma ChopconfShaped(name: string)
    ensures ChopconfDefs(name).Some? && name != "fast_decay_time" ==> |ChopconfDefs(name).value| == 1
    ensures name == "fast_decay_time" ==> ChopconfDefs(name) == Some(FAST_DECAY_TIME)
    ensures ChopconfDefs(name).Some? && name != "fast_decay_time" && name != "blank_time" && name != "microsteps" ==>
      ChopconfDefs(name).value[0].codes == map[]
  {
    ChopconfSingle(name);
    ChopconfPlain(name);
  }

  lemma ChopconfSingle(name: string)
    ensures ChopconfDefs(name).Some? && name != "fast_decay_time" ==> |ChopconfDefs(name).value| == 1
  {
  }

  lemma ChopconfPlain(name: string)
    ensures ChopconfDefs(name).Some? && name != "fast_decay_time" && name != "blank_time" && name != "microsteps" ==>
      |ChopconfDefs(name).value| == 1 && ChopconfDefs(name).value[0].codes == map[]
  {
  }

  lemma CoolconfShaped(name: string)
    ensures CoolconfDefs(name).Some? ==> |CoolconfDefs(name).value| == 1
    ensures CoolconfDefs(name).Some? && name != "sg_step_width" && name != "sg_current_decrease" ==>
      CoolconfDefs(name).value[0].codes == map[]
  {
  }

  lemma PwmconfShaped(name: string)
    ensures PwmconfDefs(name).Some? ==> |PwmconfDefs(name).value| == 1
    ensures PwmconfDefs(name).Some? && name != "stealth_freq" && name != "standstill_mode" ==>
      PwmconfDefs(name).value[0].codes == map[]
  {
  }

  /** A map whose codes are below `n`. */
  predicate CodesBelow(m: map<PyVal, int>, n: int)
  {
    forall v | v in m :: 0 <= m[v] < n
  }

  lemma TwoBitFits(offset: nat, m: map<PyVal, int>)
    requires CodesBelow(m, 4)
    ensures CodesWithin(FieldDef(offset, 0, 2, m))
  {
    assert Pow2(2) == 4;
  }

  lemma MstepsFits()
    ensures CodesWithin(FieldDef(24, 0, 4, MSTEPS_MAP))
  {
    assert CodesBelow(MSTEPS_MAP, 9);
    assert Pow2(4) == 16;
  }

  lemma BlankTimeFits()
    ensures CodesWithin(FieldDef(15, 0, 2, BLANK_TIME_MAP))
  {
    assert CodesBelow(BLANK_TIME_MAP, 4);
    TwoBitFits(15, BLANK_TIME_MAP);
  }

  lemma SeupFits()
    ensures CodesWithin(FieldDef(5, 0, 2, SEUP_MAP))
  {
    assert CodesBelow(SEUP_MAP, 4);
    TwoBitFits(5, SEUP_MAP);
  }

  lemma SednFits()
    ensures CodesWithin(FieldDef(13, 0, 2, SEDN_MAP))
  {
    assert CodesBelow(SEDN_MAP, 4);
    TwoBitFits(13, SEDN_MAP);
  }

  lemma PwmFreqFits()
    ensures CodesWithin(FieldDef(16, 0, 2, PWM_FREQ_MAP))
  {
    assert CodesBelow(PWM_FREQ_MAP, 4);
    TwoBitFits(16, PWM_FREQ_MAP);
  }

  lemma FreewheelFits()
    ensures CodesWithin(FieldDef(20, 0, 2, FREEWHEEL_MAP))
  {
    assert CodesBelow(FREEWHEEL_MAP, 4);
    TwoBitFits(20, FREEWHEEL_MAP);
  }

  /** The six mapped fields: two-bit fields with codes 0..3, and `microsteps`, four bits with codes 0..8. */
  lemma MappedFieldsFit()
    ensures CodesWithin(FieldDef(15, 0, 2, BLANK_TIME_MAP)) && CodesWithin(FieldDef(24, 0, 4, MSTEPS_MAP))
    ensures CodesWithin(FieldDef(5, 0, 2, SEUP_MAP)) && CodesWithin(FieldDef(13, 0, 2, SEDN_MAP))
    ensures CodesWithin(FieldDef(16, 0, 2, PWM_FREQ_MAP)) && CodesWithin(FieldDef(20, 0, 2, FREEWHEEL_MAP))
  {
    BlankTimeFits();
    SeupFits();
    SednFits();
    PwmFreqFits();
    FreewheelFits();
    MstepsFits();
  }

  lemma DefsShaped(r: Reg, name: string)
    requires Defs(r, name).Some?
    ensures Shaped(Defs(r, name).value)
  {
    MappedFieldsFit();
    match r
    case GConf => GconfShaped(name);
    case IholdIrun => IholdIrunShaped(name);
    case ChopConf => ChopconfShaped(name);
    case CoolConf => CoolconfShaped(name);
    case PwmConf => PwmconfShaped(name);
  }

  /** Every field is one bit range except `fast_decay_time`. */
  lemma TableShapes(r: Reg, name: string)
    requires Defs(r, name).Some?
    ensures SingleRange(r, name) || (r == ChopConf && name == "fast_decay_time")
  {
    DefsShaped(r, name);
    if r == ChopConf {
      ChopconfShaped(name);
    }
  }

  /** Every map sends its keys to codes that fit the (unshifted) field. */
  lemma CodesFit(r: Reg, name: string, v: PyVal)
    requires SingleRange(r, name) && v in OnlyDef(r, name).codes
    ensures OnlyDef(r, name).low == 0 && 0 <= OnlyDef(r, name).codes[v] < Span(OnlyDef(r, name))
  {
    DefsShaped(r, name);
  }

  /** One pass over a single-range field. */
  lemma SinglePass(reg: nat, d: FieldDef, v: PyVal)
    ensures var p := ModifyFrom(reg, [d], v, 0); var v' := Mapped(v, d);
      if v'.PStr? then p == Pass(reg, false, true)
      else
        var y := Code(v'.i, d);
        && !p.failed
        && Digit(p.reg, d) == y
        && (p.send <==> Digit(reg, d) != y)
        && (p.send <==> p.reg != reg)
  {
    var v' := Mapped(v, d);
    if v'.PInt? {
      var y := Code(v'.i, d);
      PlaceDigit(reg, d, y);
      assert ModifyFrom(Place(reg, d, y), [d], v', 1) == Pass(Place(reg, d, y), false, false);
      assert ModifyFrom(reg, [d], v', 1) == Pass(reg, false, false);
    }
  }

  const DECAY_LOW: FieldDef := FAST_DECAY_TIME[0]
  const DECAY_HIGH: FieldDef := FAST_DECAY_TIME[1]

  /** Placing bit 11 keeps the low `fast_decay_time` range, bits 4..6. */
  lemma HighKeepsLow(reg: nat, y: nat)
    requires y < 2
    ensures Digit(Place(reg, DECAY_HIGH, y), DECAY_LOW) == Digit(reg, DECAY_LOW)
  {
    PlaceDigit(reg, DECAY_HIGH, y);
    var x := Place(reg, DECAY_HIGH, y);
    assert Unit(DECAY_HIGH) == 2048 && Unit(DECAY_LOW) == 16 && Span(DECAY_LOW) == 8;
    assert x % 2048 == reg % 2048;
    LowDigitOfRem(x);
    LowDigitOfRem(reg);
  }

  lemma LowDigitOfRem(x: nat)
    ensures (x / 16) % 8 == ((x % 2048) / 16) % 8
  {
    var q, r := x / 2048, x % 2048;
    assert x == (q * 128 + r / 16) * 16 + r % 16;
    DivModUnique(x, 16, q * 128 + r / 16, r % 16);
    DivModUnique(q * 128 + r / 16, 8, q * 16 + (r / 16) / 8, (r / 16) % 8);
  }

  /** The two passes over `fast_decay_time`. */
  lemma FastDecayPass(reg: nat, v: PyVal)
    ensures var p := ModifyFrom(reg, FAST_DECAY_TIME, v, 0);
      if v.PStr? then p == Pass(reg, false, true)
      else
        && !p.failed
        && Digit(p.reg, DECAY_LOW) == Code(v.i, DECAY_LOW)
        && Digit(p.reg, DECAY_HIGH) == Code(v.i, DECAY_HIGH)
        && (p.send <==> Digit(reg, DECAY_LOW) != Code(v.i, DECAY_LOW) || Digit(reg, DECAY_HIGH) != Code(v.i, DECAY_HIGH))
        && (p.send <==> p.reg != reg)
  {
    var defs := FAST_DECAY_TIME;
    if v.PInt? {
      var y0, y1 := Code(v.i, DECAY_LOW), Code(v.i, DECAY_HIGH);
      var r1 := if Digit(reg, DECAY_LOW) != y0 then Place(reg, DECAY_LOW, y0) else reg;
      PlaceDigit(reg, DECAY_LOW, y0);
      assert Digit(r1, DECAY_LOW) == y0;
      assert Digit(r1, DECAY_HIGH) == Digit(reg, DECAY_HIGH) by {
        PlaceDigit(reg, DECAY_LOW, y0);
        HighOfLowPlace(reg, y0);
      }
      var r2 := if Digit(r1, DECAY_HIGH) != y1 then Place(r1, DECAY_HIGH, y1) else r1;
      PlaceDigit(r1, DECAY_HIGH, y1);
      HighKeepsLow(r1, y1);
      assert ModifyFrom(r2, defs, v, 2) == Pass(r2, false, false);
      assert ModifyFrom(r1, defs, v, 1).reg == r2;
      assert Digit(r2, DECAY_LOW) == y0 && Digit(r2, DECAY_HIGH) == y1;
    }
  }

  /** Placing bits 4..6 keeps bit 11. */
  lemma HighOfLowPlace(reg: nat, y: nat)
    requires y < 8
    ensures Digit(Place(reg, DECAY_LOW, y), DECAY_HIGH) == Digit(reg, DECAY_HIGH)
  {
    PlaceDigit(reg, DECAY_LOW, y);
    var x := Place(reg, DECAY_LOW, y);
    assert Unit(DECAY_LOW) * Span(DECAY_LOW) == 128;
    assert x / 128 == reg / 128;
    HighDigitOfQuot(x);
    HighDigitOfQuot(reg);
  }

  lemma HighDigitOfQuot(x: nat)
    ensures (x / 2048) % 2 == ((x / 128) / 16) % 2
  {
    DivDiv(x, 128, 16);
  }

  // ---------------------------------------------------------------------
  // Properties of modify and read over the whole tables
  // ---------------------------------------------------------------------

  /** On a shaped definition list, the pass sends iff it changed the register. */
  lemma PassSendsIffChanged(reg: nat, defs: seq<FieldDef>, v: PyVal)
    requires Shaped(defs)
    ensures var p := ModifyFrom(reg, defs, v, 0);
      (!p.failed && p.send <==> p.reg != reg)
  {
    if |defs| == 1 {
      assert defs == [defs[0]];
      SinglePass(reg, defs[0], v);
    } else {
      FastDecayPass(reg, v);
    }
  }

  /** On a shaped definition list, a second pass with the same value changes and sends nothing. */
  lemma PassIdempotent(reg: nat, defs: seq<FieldDef>, v: PyVal)
    requires Shaped(defs)
    ensures var p := ModifyFrom(reg, defs, v, 0);
      var q := ModifyFrom(p.reg, defs, v, 0);
      q.reg == p.reg && !(!q.failed && q.send)
  {
    var p := ModifyFrom(reg, defs, v, 0);
    if |defs| == 1 {
      assert defs == [defs[0]];
      SinglePass(reg, defs[0], v);
      SinglePass(p.reg, defs[0], v);
    } else {
      FastDecayPass(reg, v);
      FastDecayPass(p.reg, v);
    }
  }

  /** A register write is issued iff the shadow register actually changed, and it
    * carries the new shadow value. */
  lemma ModifyWritesIffChanged(reg: nat, r: Reg, name: string, v: PyVal)
    ensures var m := ModifyReg(reg, r, name, v);
      (m.write.Some? <==> m.reg != reg) && (m.write.Some? ==> m.write.value == m.reg)
  {
    match Defs(r, name)
    case None =>
    case Some(defs) =>
      DefsShaped(r, name);
      ModifyRegOf(reg, r, name, v, defs);
      PassSendsIffChanged(reg, defs, v);
  }

  /** Repeating the same modify changes nothing and sends nothing. */
  lemma ModifyIdempotent(reg: nat, r: Reg, name: string, v: PyVal)
    ensures var m := ModifyReg(reg, r, name, v);
      ModifyReg(m.reg, r, name, v) == Modification(m.reg, None)
  {
    match Defs(r, name)
    case None =>
    case Some(defs) =>
      DefsShaped(r, name);
      var p := ModifyFrom(reg, defs, v, 0);
      ModifyRegOf(reg, r, name, v, defs);
      ModifyRegOf(p.reg, r, name, v, defs);
      PassIdempotent(reg, defs, v);
  }

  /** Reading back one range after writing an integer its map does not translate. */
  lemma SingleReadBack(reg: nat, d: FieldDef, i: int)
    requires PInt(i) !in d.codes
    ensures ReadFrom(ModifyFrom(reg, [d], PInt(i), 0).reg, [d], 0) == And(i, d)
  {
    SinglePass(reg, d, PInt(i));
  }

  /** A single-range field's definition list is its one definition. */
  lemma OnlyDefList(r: Reg, name: string)
    requires SingleRange(r, name)
    ensures Defs(r, name) == Some([OnlyDef(r, name)])
  {
    var defs := Defs(r, name).value;
    assert defs == [defs[0]];
  }

  /** The read and modify of a single-range field, through its one definition. */
  lemma SingleRangeOf(reg: nat, r: Reg, name: string, v: PyVal)
    requires SingleRange(r, name)
    ensures var d := OnlyDef(r, name);
      ModifyReg(reg, r, name, v).reg == ModifyFrom(reg, [d], v, 0).reg
      && forall x: nat {:trigger ReadReg(x, r, name)} :: ReadReg(x, r, name) == Some(ReadFrom(x, [d], 0))
  {
    OnlyDefList(r, name);
    ModifyRegOf(reg, r, name, v, [OnlyDef(r, name)]);
  }

  /** Reading a single-range field after writing an integer it does not map gives
    * `val & mask`. */
  lemma ReadAfterModify(reg: nat, r: Reg, name: string, i: int)
    requires SingleRange(r, name) && PInt(i) !in OnlyDef(r, name).codes
    ensures ReadReg(ModifyReg(reg, r, name, PInt(i)).reg, r, name) == Some(And(i, OnlyDef(r, name)))
  {
    SingleRangeOf(reg, r, name, PInt(i));
    SingleReadBack(reg, OnlyDef(r, name), i);
  }

  lemma MappedReadBack(reg: nat, d: FieldDef, v: PyVal)
    requires v in d.codes && d.low == 0 && 0 <= d.codes[v] < Span(d)
    ensures ReadFrom(ModifyFrom(reg, [d], v, 0).reg, [d], 0) == d.codes[v]
  {
    SinglePass(reg, d, v);
    var c := d.codes[v];
    assert Pow2(d.low) == 1;
    DivModUnique(c, Span(d), 0, c);
    assert Code(c, d) == c;
  }

  /** Reading a mapped field after writing one of its map's keys gives the code, not
    * the value written. */
  lemma ReadAfterModifyMapped(reg: nat, r: Reg, name: string, v: PyVal)
    requires SingleRange(r, name) && v in OnlyDef(r, name).codes
    ensures ReadReg(ModifyReg(reg, r, name, v).reg, r, name) == Some(OnlyDef(r, name).codes[v])
  {
    SingleRangeOf(reg, r, name, v);
    CodesFit(r, name, v);
    MappedReadBack(reg, OnlyDef(r, name), v);
  }

  /** `microsteps = 16` reads back as 4. */
  lemma MicrostepsReadBackCode(reg: nat)
    ensures ReadReg(ModifyReg(reg, ChopConf, "microsteps", PInt(16)).reg, ChopConf, "microsteps") == Some(4)
  {
    ReadAfterModifyMapped(reg, ChopConf, "microsteps", PInt(16));
  }

  /** The split `fast_decay_time` reads back as `val & 0xF`. */
  lemma FastDecayReadBack(reg: nat, i: int)
    ensures ReadReg(ModifyReg(reg, ChopConf, "fast_decay_time", PInt(i)).reg, ChopConf, "fast_decay_time")
      == Some(i % 16)
  {
    FastDecayPass(reg, PInt(i));
    var x := ModifyReg(reg, ChopConf, "fast_decay_time", PInt(i)).reg;
    assert ReadFrom(x, FAST_DECAY_TIME, 2) == 0;
    var q := i / 8;
    assert Code(i, DECAY_LOW) == i % 8 && Code(i, DECAY_HIGH) == q % 2;
    assert i == q * 8 + i % 8;
    assert q == (q / 2) * 2 + q % 2;
    DivModUnique(i, 16, q / 2, (q % 2) * 8 + i % 8);
  }

  /** A string no map translates raises TypeError on the first range: nothing changes. */
  lemma UntranslatedStringIgnored(reg: nat, r: Reg, name: string, s: string)
    requires Defs(r, name).Some? && PStr(s) !in Defs(r, name).value[0].codes
    ensures ModifyReg(reg, r, name, PStr(s)) == Modification(reg, None)
  {
  }

  // ---------------------------------------------------------------------
  // SPI frames
  // ---------------------------------------------------------------------

  /** A frame handed to the SPI bus: the command byte and the data bytes. */
  datatype Frame = Frame(cmd: bv8, data: seq<u8>)

  /** The `val` argument of `__command_write`: `None`, an int, or a byte list. */
  datatype WriteArg = NoValue | IntValue(n: int) | ListValue(items: seq<u8>)

  /** `struct.Struct('>I').pack(n)`, as byte values. */
  function Be4(n: nat): (b: seq<u8>)
    requires n < 0x1_0000_0000
    ensures |b| == 4 && BigEndian(b) == n
  {
    Be4Value(n);
    BigEndian4((n / 0x100_0000) as u8, ((n / 0x1_0000) % 0x100) as u8, ((n / 0x100) % 0x100) as u8, (n % 0x100) as u8);
    [(n / 0x100_0000) as u8, ((n / 0x1_0000) % 0x100) as u8, ((n / 0x100) % 0x100) as u8, (n % 0x100) as u8]
  }

  lemma BigEndian4(a: u8, b: u8, c: u8, d: u8)
    ensures BigEndian([a, b, c, d]) == ((a as nat * 0x100 + b as nat) * 0x100 + c as nat) * 0x100 + d as nat
  {
    assert [a, b, c, d][..3] == [a, b, c];
    assert [a, b, c][..2] == [a, b];
    assert [a, b][..1] == [a];
    assert [a][..0] == [];
    assert BigEndian([a]) == a as nat;
    assert BigEndian([a, b]) == a as nat * 0x100 + b as nat;
    assert BigEndian([a, b, c]) == (a as nat * 0x100 + b as nat) * 0x100 + c as nat;
  }

  lemma Be4Value(n: nat)
    requires n < 0x1_0000_0000
    ensures ((n / 0x100_0000) * 0x100 + (n / 0x1_0000) % 0x100) * 0x100 + (n / 0x100) % 0x100 == n / 0x100
    ensures n / 0x100_0000 < 0x100
  {
    DivDiv(n, 0x100, 0x100);
    DivDiv(n, 0x1_0000, 0x100);
    var a := n / 0x100;
    var b := a / 0x100;
    assert a == b * 0x100 + a % 0x100;
    assert b == (b / 0x100) * 0x100 + b % 0x100;
    assert n / 0x1_0000 == b && n / 0x100_0000 == b / 0x100;
  }

  /** `__command_write(cmd, val)`: nothing for `None`; an int is packed as four
    * big-endian bytes (`struct.error` outside `0..2^32-1`); the write bit is set; any
    * length but 4 raises. */
  function WriteFrame(cmd: bv8, val: WriteArg): (r: Result<Option<Frame>>)
    ensures val.NoValue? ==> r == Ok(None)
    ensures r.Ok? && r.value.Some? ==>
      |r.value.value.data| == 4 && r.value.value.cmd == cmd | 0x80 && r.value.value.cmd & 0x80 == 0x80
    ensures val.IntValue? ==>
      (r.Ok? <==> 0 <= val.n < 0x1_0000_0000) && (r.Ok? ==> r.value.Some? && BigEndian(r.value.value.data) == val.n)
    ensures val.ListValue? ==>
      (r.Ok? <==> |val.items| == 4) && (r.Ok? ==> r.value == Some(Frame(cmd | 0x80, val.items)))
  {
    match val
    case NoValue => Ok(None)
    case IntValue(n) =>
      if 0 <= n < 0x1_0000_0000 then Ok(Some(Frame(cmd | 0x80, Be4(n))))
      else Err("struct.error: integer out of range for 'I' format code")
    case ListValue(items) =>
      if |items| != 4 then Err("TMC2130 internal error! len(val) != 4")
      else Ok(Some(Frame(cmd | 0x80, items)))
  }

  /** The frames a write puts on the bus. */
  function Issued(r: Result<Option<Frame>>): seq<Frame>
  {
    if r.Ok? && r.value.Some? then [r.value.value] else []
  }

  /** An integer write issues its frame exactly when the value fits 32 bits. */
  lemma IssuedWrite(cmd: bv8, n: nat)
    ensures Issued(WriteFrame(cmd, IntValue(n))) == if n < 0x1_0000_0000 then [Frame(cmd | 0x80, Be4(n))] else []
  {
  }

  /** The value `__command_read` builds: the bytes after the status byte, big-endian. */
  function ReplyValue(reply: seq<u8>): nat
  {
    if |reply| == 0 then 0 else BigEndian(reply[1..])
  }

  /** `status & bit` on the status byte. */
  predicate StatusHas(status: u8, bit: bv32)
  {
    ((status as bv8) as bv32) & bit != 0
  }

  /** The reply flags the status byte sets; bit 0x1000 never fits in a byte. */
  lemma StatusBits(status: u8)
    ensures !StatusHas(status, 0x1000)
    ensures StatusHas(status, 1) <==> status % 2 == 1
  {
    var b := status as bv8;
    assert (b as bv32) & 0x1000 == 0;
    assert ((b as bv32) & 1 != 0) <==> (b & 1 != 0);
    ByteLowBit(status);
  }

  lemma ByteLowBit(status: u8)
    ensures ((status as bv8) & 1 != 0) <==> status % 2 == 1
  {
    var b := status as bv8;
    assert b & 1 == b % 2;
    assert (b % 2) as int == (status as int) % 2;
  }

  /** A value written as a frame is read back from a reply that carries it after the
    * status byte. */
  lemma ReadReturnsWritten(cmd: bv8, n: nat, status: u8)
    requires n < 0x1_0000_0000
    ensures var f := WriteFrame(cmd, IntValue(n)).value.value; ReplyValue([status] + f.data) == n
  {
    var f := WriteFrame(cmd, IntValue(n)).value.value;
    assert ([status] + f.data)[1..] == f.data;
  }

  /** The frame of a threshold setter: the value reduced to its low bits. */
  function ThresholdFrame(addr: bv8, x: int, modulus: nat): (f: Frame)
    requires 0 < modulus <= 0x1_0000_0000
    ensures f.cmd == addr | 0x80 && |f.data| == 4
    ensures BigEndian(f.data) == x % modulus && BigEndian(f.data) < modulus
  {
    Frame(addr | 0x80, Be4(x % modulus))
  }

  /** The frames `__reset_driver` sends: a zero word to each configuration register, then TCOOLTHRS 0. */
  function ResetFrames(): (fs: seq<Frame>)
    ensures |fs| == 5 && forall i | 0 <= i < 5 :: fs[i].cmd & 0x80 == 0x80 && BigEndian(fs[i].data) == 0
  {
    [Frame(Address(GConf) | 0x80, Be4(0)), Frame(Address(ChopConf) | 0x80, Be4(0)),
     Frame(Address(CoolConf) | 0x80, Be4(0)), Frame(Address(PwmConf) | 0x80, Be4(0)),
     ThresholdFrame(REG_TCOOLTHRS, 0, 0x10_0000)]
  }

  /** The loop of `modify_REG_*` over a field's definitions: each range is replaced
    * in turn; a TypeError ends the loop with the ranges so far kept. */
  method ModifyPass(start: nat, defs: seq<FieldDef>, v: PyVal) returns (reg: nat, send: bool, failed: bool)
    ensures ModifyFrom(start, defs, v, 0) == Pass(reg, send, failed)
  {
    reg, send, failed := start, false, false;
    var val := v;
    var i := 0;
    while i < |defs|
      invariant 0 <= i <= |defs|
      invariant var p := ModifyFrom(reg, defs, val, i);
        ModifyFrom(start, defs, v, 0) == Pass(p.reg, send || p.send, p.failed)
    {
      var d := defs[i];
      if val in d.codes {
        val := PInt(d.codes[val]);
      }
      if val.PStr? {
        failed := true;
        return;
      }
      var y := Code(val.i, d);
      if Digit(reg, d) != y {
        reg := Place(reg, d, y);
        send := true;
      }
      i := i + 1;
    }
  }

  // ---------------------------------------------------------------------
  // The driver object
  // ---------------------------------------------------------------------

  class Driver {
    /** `val_GCONF`, `val_IHOLD_IRUN`, `val_CHOPCONF`, `val_COOLCONF`, `val_PWMCONF` */
    var gconf: nat
    var iholdIrun: nat
    var chopconf: nat
    var coolconf: nat
    var pwmconf: nat
    /** Every `mcu_driver.write`, in order. */
    var frames: seq<Frame>
    /** Every command byte sent by `mcu_driver.read`, in order. */
    var readCmds: seq<bv8>
    var isReset: bool
    var isError: bool
    var isStallguard: bool
    var isStandstill: bool

    /** A driver before `__reset_driver`: the fault flags are the class-level `False`s
      * and nothing has been sent.  In the source the `val_*` shadows do not exist
      * until `__reset_driver` sets them, which `__init_callback` always calls before
      * anything else reads them; the 0 here is a placeholder that no reachable
      * behaviour observes, not an initial value of the source. */
    constructor ()
      ensures gconf == 0 && chopconf == 0 && coolconf == 0 && pwmconf == 0 && iholdIrun == 0
      ensures frames == [] && readCmds == []
      ensures !isReset && !isError && !isStallguard && !isStandstill
    {
      gconf, chopconf, coolconf, pwmconf, iholdIrun := 0, 0, 0, 0, 0;
      frames, readCmds := [], [];
      isReset, isError, isStallguard, isStandstill := false, false, false, false;
    }

    function Shadow(r: Reg): nat
      reads this`gconf, this`iholdIrun, this`chopconf, this`coolconf, this`pwmconf
    {
      match r
      case GConf => gconf
      case IholdIrun => iholdIrun
      case ChopConf => chopconf
      case CoolConf => coolconf
      case PwmConf => pwmconf
    }

    method SetShadow(r: Reg, x: nat)
      modifies this`gconf, this`iholdIrun, this`chopconf, this`coolconf, this`pwmconf
      ensures Shadow(r) == x
      ensures forall r' :: r' != r ==> Shadow(r') == old(Shadow(r'))
    {
      match r
      case GConf => gconf := x;
      case IholdIrun => iholdIrun := x;
      case ChopConf => chopconf := x;
      case CoolConf => coolconf := x;
      case PwmConf => pwmconf := x;
    }

    method CommandWrite(cmd: bv8, val: WriteArg) returns (r: Result<Option<Frame>>)
      modifies this`frames
      ensures r == WriteFrame(cmd, val)
      ensures frames == old(frames) + Issued(r)
    {
      var bytes: seq<u8>;
      match val {
        case NoValue =>
          return Ok(None);
        case IntValue(n) =>
          if !(0 <= n < 0x1_0000_0000) {
            return Err("struct.error: integer out of range for 'I' format code");
          }
          bytes := Be4(n);
        case ListValue(items) =>
          bytes := items;
      }
      var c := cmd | 0x80;
      if |bytes| != 4 {
        return Err("TMC2130 internal error! len(val) != 4");
      }
      frames := frames + [Frame(c, bytes)];
      r := Ok(Some(Frame(c, bytes)));
    }

    /** `__command_read(cmd)`: the command is sent twice with bit 7 clear and the second
      * reply is decoded; `reply` is that reply. */
    method CommandRead(cmd: bv8, reply: seq<u8>) returns (val: nat)
      modifies this`readCmds, this`isReset, this`isError, this`isStallguard
      ensures readCmds == old(readCmds) + [cmd & 0x7F, cmd & 0x7F]
      ensures val == ReplyValue(reply)
      ensures isReset == (old(isReset) || (|reply| > 0 && StatusHas(reply[0], 1)))
      ensures isError == (old(isError) || (|reply| > 0 && StatusHas(reply[0], 2)))
      ensures isStallguard == (old(isStallguard) || (|reply| > 0 && StatusHas(reply[0], 4)))
      ensures isStandstill == old(isStandstill)
    {
      var c := cmd & 0x7F;
      readCmds := readCmds + [c, c];
      val := 0;
      var size := |reply|;
      if 0 < size {
        var status := reply[0];
        StatusBits(status);
        if status != 0 {
          if StatusHas(status, 1) { isReset := true; }
          if StatusHas(status, 2) { isError := true; }
          if StatusHas(status, 4) { isStallguard := true; }
          // The `status & 0x1000` test that would set isStandstill never holds for a
          // byte (StatusBits), so that branch is not reachable.
        }
        var idx := 1;
        while idx < size
          invariant 1 <= idx <= size
          invariant val == BigEndian(reply[1..idx])
        {
          // `val <<= 8; val |= byte` adds the byte below the shifted value.
          assert reply[1..idx + 1][..idx - 1] == reply[1..idx];
          val := val * 0x100 + reply[idx] as nat;
          idx := idx + 1;
        }
        assert reply[1..size] == reply[1..];
      }
    }

    /** `modify_REG_*(name, val)`: a KeyError or TypeError (and any error of the write)
      * is swallowed. */
    method Modify(r: Reg, name: string, v: PyVal)
      modifies this`gconf, this`iholdIrun, this`chopconf, this`coolconf, this`pwmconf, this`frames
      ensures var m := ModifyReg(old(Shadow(r)), r, name, v);
        && Shadow(r) == m.reg
        && (forall r' :: r' != r ==> Shadow(r') == old(Shadow(r')))
        && frames == old(frames) + (if m.write.Some? && m.reg < 0x1_0000_0000 then [Frame(Address(r) | 0x80, Be4(m.reg))] else [])
    {
      var found := Defs(r, name);
      if found.None? {
        return;
      }
      ghost var m := ModifyReg(Shadow(r), r, name, v);
      var reg, send, failed := ModifyPass(Shadow(r), found.value, v);
      ModifyRegOf(Shadow(r), r, name, v, found.value);
      assert m.reg == reg && (m.write.Some? <==> !failed && send);
      SetShadow(r, reg);
      if !failed && send {
        var w := CommandWrite(Address(r), IntValue(reg));
        IssuedWrite(Address(r), reg);
      }
    }

    /** `read_REG_*` on the shadow register: `None` exactly for an unknown name, and a
      * single-range field reads as its `(reg >> offset) & mask`. */
    function Read(r: Reg, name: string): (v: Option<nat>)
      reads this
      ensures v.None? <==> Defs(r, name).None?
      ensures Defs(r, name).Some? && |Defs(r, name).value| == 1 ==> v == Some(Get(Shadow(r), Defs(r, name).value[0]))
    {
      ReadReg(Shadow(r), r, name)
    }

    method SetTpowerdown(powerDownDelay: int)
      modifies this`frames
      ensures frames == old(frames) + [ThresholdFrame(REG_TPOWERDOWN, powerDownDelay, 0x100)]
    {
      var _ := CommandWrite(REG_TPOWERDOWN, IntValue(powerDownDelay % 0x100));
    }

    method SetTpwmthrs(stealthMaxSpeed: int)
      modifies this`frames
      ensures frames == old(frames) + [ThresholdFrame(REG_TPWMTHRS, stealthMaxSpeed, 0x10_0000)]
    {
      var _ := CommandWrite(REG_TPWMTHRS, IntValue(stealthMaxSpeed % 0x10_0000));
    }

    method SetTcoolthrs(coolstepMinSpeed: int)
      modifies this`frames
      ensures frames == old(frames) + [ThresholdFrame(REG_TCOOLTHRS, coolstepMinSpeed, 0x10_0000)]
    {
      var _ := CommandWrite(REG_TCOOLTHRS, IntValue(coolstepMinSpeed % 0x10_0000));
    }

    method SetThigh(modeSwSpeed: int)
      modifies this`frames
      ensures frames == old(frames) + [ThresholdFrame(REG_THIGH, modeSwSpeed, 0x10_0000)]
    {
      var _ := CommandWrite(REG_THIGH, IntValue(modeSwSpeed % 0x10_0000));
    }

    /** `__reset_driver`: IHOLD_IRUN is read from the chip, `reply` being the answer, then
      * GCONF, CHOPCONF, COOLCONF, PWMCONF and TCOOLTHRS are written 0 and the four
      * configuration shadows cleared. */
    method ResetDriver(reply: seq<u8>)
      modifies this`gconf, this`iholdIrun, this`chopconf, this`coolconf, this`pwmconf, this`frames
      modifies this`readCmds, this`isReset, this`isError, this`isStallguard
      ensures iholdIrun == ReplyValue(reply)
      ensures gconf == 0 && chopconf == 0 && coolconf == 0 && pwmconf == 0
      ensures readCmds == old(readCmds) + [Address(IholdIrun) & 0x7F, Address(IholdIrun) & 0x7F]
      ensures frames == old(frames) + ResetFrames()
      ensures isReset == (old(isReset) || (|reply| > 0 && StatusHas(reply[0], 1)))
      ensures isError == (old(isError) || (|reply| > 0 && StatusHas(reply[0], 2)))
      ensures isStallguard == (old(isStallguard) || (|reply| > 0 && StatusHas(reply[0], 4)))
    {
      iholdIrun := CommandRead(Address(IholdIrun), reply);
      WriteResetFrames();
      gconf, chopconf, coolconf, pwmconf := 0, 0, 0, 0;
    }

    /** The writes of `__reset_driver`, in order. */
    method WriteResetFrames()
      modifies this`frames
      ensures frames == old(frames) + ResetFrames()
    {
      WriteZero(GConf);
      WriteZero(ChopConf);
      WriteZero(CoolConf);
      WriteZero(PwmConf);
      SetTcoolthrs(0);
    }

    /** `__command_write(REG, 0)`: a zero word to the register. */
    method WriteZero(r: Reg)
      modifies this`frames
      ensures frames == old(frames) + [Frame(Address(r) | 0x80, Be4(0))]
    {
      IssuedWrite(Address(r), 0);
      var _ := CommandWrite(Address(r), IntValue(0));
    }

    method ClearFaults()
      modifies this`isReset, this`isError, this`isStallguard, this`isStandstill
      ensures !isReset && !isError && !isStallguard && !isStandstill
    {
      isReset, isError, isStallguard, isStandstill := false, false, false, false;
    }
  }
}
