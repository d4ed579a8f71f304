/**
 * The AVR board layer (src/avr/gpio.c): the ADC backend around the
 * `last_analog_read` marker, PWM prescaler selection, and the SPI
 * configuration word.
 *
 * The pin tables depend on the MCU the firmware is built for, so they are
 * constructor parameters.  The ADSC "conversion running" bit and the ADC data
 * register are inputs of the calls that read them.
 */
module AvrGpio {
  import opened Ints
  import opened Wrappers

  /** `ADC_DUMMY`: the marker value meaning "no channel owns the converter". */
  const ADC_DUMMY: u8 := 0xFF
  /** The retry delay `(13 + 1) * 128 + 200` of every non-ready sample. */
  const SAMPLE_DELAY: u32 := 1992

  /** Bit positions of SPCR and SPSR (avr/io.h is not part of this model). */
  const SPE: bv16 := 1 << 6
  const MSTR: bv16 := 1 << 4
  const CPOL: bv16 := 1 << 3
  const CPHA: bv16 := 1 << 2
  const SPI2X: bv16 := 1 << 0

  /** The PWM flags of `pwm_regs` entries. */
  const GP_8BIT: bv8 := 1
  const GP_AFMT: bv8 := 2

  /** Result of one `gpio_adc_sample`: the new marker, the delay returned, and whether a conversion was started. */
  datatype SampleStep = SampleStep(last: u8, delay: u32, start: bool)

  /** `gpio_adc_sample` on the marker value `last`, with `busy` the ADSC bit. */
  function Sample(last: u8, chan: u8, busy: bool): (r: SampleStep)
    ensures r.delay == 0 <==> !busy && last == chan
    ensures r.delay != 0 ==> r.delay == SAMPLE_DELAY
    ensures r.start <==> !busy && last == ADC_DUMMY && chan != ADC_DUMMY
    ensures r.last == if r.start then chan else last
  {
    if busy then SampleStep(last, SAMPLE_DELAY, false)
    else if last == chan then SampleStep(last, 0, false)
    else if last != ADC_DUMMY then SampleStep(last, SAMPLE_DELAY, false)
    else SampleStep(chan, SAMPLE_DELAY, true)
  }

  /** `gpio_adc_cancel_sample`: frees the marker only when the caller owns it. */
  function Cancel(last: u8, chan: u8): (r: u8)
    ensures last == chan ==> r == ADC_DUMMY
    ensures last != chan ==> r == last
  {
    if last == chan then ADC_DUMMY else last
  }

  /** A sample on another channel never disturbs the owner's claim. */
  lemma SampleKeepsOtherClaim(last: u8, chan: u8, busy: bool)
    requires last != ADC_DUMMY && last != chan
    ensures Sample(last, chan, busy).last == last && Sample(last, chan, busy).delay == SAMPLE_DELAY
  {
  }

  /** Cancel is idempotent and harmless on a non-owner. */
  lemma CancelIdempotent(last: u8, chan: u8)
    ensures Cancel(Cancel(last, chan), chan) == Cancel(last, chan)
    ensures last != chan ==> Cancel(last, chan) == last
  {
  }

  /**
   * The converter state a channel sees: after it claimed the marker, its own
   * samples report ready as soon as ADSC clears, and no other channel's
   * sample (busy or not) can take the marker away or return 0.
   */
  lemma {:induction false} OwnerKeepsConverter(last: u8, chan: u8, other: u8, busy: bool)
    requires Sample(last, chan, false).start
    requires other != chan
    ensures Sample(Sample(last, chan, false).last, other, busy).last == chan
    ensures Sample(Sample(last, chan, false).last, other, busy).delay != 0
    ensures Sample(Sample(last, chan, false).last, chan, false).delay == 0
  {
    var s := Sample(last, chan, false);
    assert s.last == chan;
  }

  /** The clock-select bits `gpio_pwm_setup` chooses for `cycle_time` on a timer with or without GP_AFMT. */
  function PwmClockSelect(afmt: bool, cycleTime: u32): (cs: u8)
    ensures afmt ==> 1 <= cs <= 7
    ensures !afmt ==> 1 <= cs <= 5
    ensures cs == 1 <==> cycleTime < 8 * 510
    ensures cs == (if afmt then 7 else 5) <==> cycleTime >= 1024 * 510
  {
    if afmt then
      if cycleTime < 8 * 510 then 1
      else if cycleTime < 32 * 510 then 2
      else if cycleTime < 64 * 510 then 3
      else if cycleTime < 128 * 510 then 4
      else if cycleTime < 256 * 510 then 5
      else if cycleTime < 1024 * 510 then 6
      else 7
    else
      if cycleTime < 8 * 510 then 1
      else if cycleTime < 64 * 510 then 2
      else if cycleTime < 256 * 510 then 3
      else if cycleTime < 1024 * 510 then 4
      else 5
  }

  /** A longer cycle never selects a faster clock. */
  lemma PwmClockSelectMonotone(afmt: bool, c1: u32, c2: u32)
    requires c1 <= c2
    ensures PwmClockSelect(afmt, c1) <= PwmClockSelect(afmt, c2)
  {
  }

  /** One entry of `pwm_regs`: which timer it drives and its GP_* flags. */
  datatype PwmInfo = PwmInfo(timer: nat, flags: bv8)

  /** The `struct gpio_pwm` handle: the output-compare channel and whether it is 8-bit. */
  datatype GpioPwm = GpioPwm(chan: nat, size8: bool)

  /** `struct gpio_adc`: the index into `adc_pins`. */
  datatype GpioAdc = GpioAdc(chan: u8)

  /** The first index of `x` in `s`, if any. */
  function IndexOf(s: seq<u8>, x: u8): (r: Option<nat>)
    ensures r.Some? <==> x in s
    ensures r.Some? ==> r.value < |s| && s[r.value] == x && x !in s[..r.value]
  {
    if |s| == 0 then None
    else if s[0] == x then Some(0)
    else match IndexOf(s[1..], x)
      case None => None
      case Some(i) =>
        assert s[1..][..i] == s[1..i + 1];
        assert s[..i + 1] == [s[0]] + s[1..i + 1];
        Some(i + 1)
  }

  class AvrBoard {
    const adcPins: seq<u8>
    const hasDidr2: bool
    const pwmPins: seq<u8>
    const pwmInfo: seq<PwmInfo>
    /** The static `last_analog_read`. */
    var lastAnalogRead: u8
    /** The channel last written into ADMUX (and MUX5), i.e. the conversion in the converter. */
    var mux: u8
    var didr0: bv8
    var didr2: bv8
    /** TCCRnB of each timer, by timer number. */
    var tccrb: map<nat, u8>

    ghost predicate Valid()
      reads this
    {
      |adcPins| <= 16 && (!hasDidr2 ==> |adcPins| <= 8) &&
      |pwmPins| == |pwmInfo| && (forall i | 0 <= i < |pwmInfo| :: pwmInfo[i].timer in tccrb) &&
      (lastAnalogRead != ADC_DUMMY ==> mux == lastAnalogRead)
    }

    constructor (adcPins: seq<u8>, hasDidr2: bool, pwmPins: seq<u8>, pwmInfo: seq<PwmInfo>, tccrb: map<nat, u8>)
      requires |adcPins| <= 16 && (!hasDidr2 ==> |adcPins| <= 8)
      requires |pwmPins| == |pwmInfo| && forall i | 0 <= i < |pwmInfo| :: pwmInfo[i].timer in tccrb
      ensures Valid() && lastAnalogRead == ADC_DUMMY && didr0 == 0 && didr2 == 0 && this.tccrb == tccrb
      ensures this.adcPins == adcPins && this.hasDidr2 == hasDidr2
      ensures this.pwmPins == pwmPins && this.pwmInfo == pwmInfo
    {
      this.adcPins, this.hasDidr2, this.pwmPins, this.pwmInfo := adcPins, hasDidr2, pwmPins, pwmInfo;
      lastAnalogRead, mux, didr0, didr2 := ADC_DUMMY, 0, 0, 0;
      this.tccrb := tccrb;
    }

    /**
     * `gpio_adc_setup`: the index of `pin` in `adc_pins`, shutting down when
     * it is absent, and the digital input of that pin disabled.
     */
    method AdcSetup(pin: u8) returns (r: Result<GpioAdc>)
      requires Valid()
      modifies this`didr0, this`didr2
      ensures Valid()
      ensures r.Ok? <==> pin in adcPins
      ensures r.Ok? ==> (r.value.chan as int) < |adcPins| && adcPins[r.value.chan] == pin && pin !in adcPins[..r.value.chan]
      ensures r.Err? ==> r.msg == "Not a valid ADC pin" && didr0 == old(didr0) && didr2 == old(didr2)
      ensures r.Ok? && hasDidr2 && r.value.chan >= 8 ==>
        didr2 == old(didr2) | (1 << (r.value.chan as bv8 & 7)) && didr0 == old(didr0)
      ensures r.Ok? && !(hasDidr2 && r.value.chan >= 8) ==>
        didr0 == old(didr0) | (1 << r.value.chan as bv8) && didr2 == old(didr2)
    {
      var chan := 0;
      while true
        invariant 0 <= chan <= |adcPins|
        invariant pin !in adcPins[..chan]
        decreases |adcPins| - chan
      {
        if chan >= |adcPins| {
          assert adcPins[..chan] == adcPins;
          return Err("Not a valid ADC pin");
        }
        if adcPins[chan] == pin {
          break;
        }
        assert adcPins[..chan + 1] == adcPins[..chan] + [adcPins[chan]];
        chan := chan + 1;
      }
      if hasDidr2 && chan >= 8 {
        didr2 := didr2 | (1 << (chan as bv8 & 7));
      } else {
        didr0 := didr0 | (1 << chan as bv8);
      }
      r := Ok(GpioAdc(chan as u8));
    }

    /** `gpio_adc_sample`, with `busy` the ADSC bit of ADCSRA. */
    method AdcSample(g: GpioAdc, busy: bool) returns (delay: u32)
      requires Valid() && g.chan != ADC_DUMMY
      modifies this`lastAnalogRead, this`mux
      ensures Valid()
      ensures delay == Sample(old(lastAnalogRead), g.chan, busy).delay
      ensures lastAnalogRead == Sample(old(lastAnalogRead), g.chan, busy).last
      ensures Sample(old(lastAnalogRead), g.chan, busy).start ==> mux == g.chan
      ensures !Sample(old(lastAnalogRead), g.chan, busy).start ==> mux == old(mux)
      ensures delay == 0 ==> mux == g.chan
    {
      if busy {
        return SAMPLE_DELAY;
      }
      if lastAnalogRead == g.chan {
        return 0;
      }
      if lastAnalogRead != ADC_DUMMY {
        return SAMPLE_DELAY;
      }
      lastAnalogRead := g.chan;
      mux := g.chan;
      return SAMPLE_DELAY;
    }

    /** `gpio_adc_read`: frees the marker and returns the ADC data register `adc`. */
    method AdcRead(g: GpioAdc, adc: u16) returns (v: u16)
      requires Valid()
      modifies this`lastAnalogRead
      ensures Valid() && lastAnalogRead == ADC_DUMMY && v == adc
    {
      lastAnalogRead := ADC_DUMMY;
      v := adc;
    }

    /** `gpio_adc_cancel_sample`. */
    method AdcCancel(g: GpioAdc)
      requires Valid()
      modifies this`lastAnalogRead
      ensures Valid() && lastAnalogRead == Cancel(old(lastAnalogRead), g.chan)
    {
      if lastAnalogRead == g.chan {
        lastAnalogRead := ADC_DUMMY;
      }
    }

    /**
     * `gpio_pwm_setup` up to the timer programming: finds the pin, picks the
     * clock select, refuses timer1 and a timer already running at another
     * speed, then writes TCCRnB.
     */
    method PwmSetup(pin: u8, cycleTime: u32) returns (r: Result<GpioPwm>)
      requires Valid()
      modifies this`tccrb
      ensures Valid()
      ensures pin !in pwmPins ==> r == Err("Not a valid PWM pin") && tccrb == old(tccrb)
      ensures pin in pwmPins ==>
        var i := IndexOf(pwmPins, pin).value;
        var info := pwmInfo[i];
        var cs := PwmClockSelect(info.flags & GP_AFMT != 0, cycleTime);
        var oldCs := old(tccrb)[info.timer] % 8;
        if info.timer == 1 then
          r == Err("Can not use timer1 for PWM; timer1 is used for timers") && tccrb == old(tccrb)
        else if oldCs != 0 && oldCs != cs then
          r == Err("PWM already programmed at different speed") && tccrb == old(tccrb)
        else
          r == Ok(GpioPwm(i, info.flags & GP_8BIT != 0)) && tccrb == old(tccrb)[info.timer := cs]
    {
      var chan := 0;
      while true
        invariant 0 <= chan <= |pwmPins|
        invariant pin !in pwmPins[..chan]
        decreases |pwmPins| - chan
      {
        if chan >= |pwmPins| {
          assert pwmPins[..chan] == pwmPins;
          return Err("Not a valid PWM pin");
        }
        if pwmPins[chan] == pin {
          break;
        }
        assert pwmPins[..chan + 1] == pwmPins[..chan] + [pwmPins[chan]];
        chan := chan + 1;
      }
      IndexOfFirst(pwmPins, pin, chan);
      var info := pwmInfo[chan];
      var cs := PwmClockSelect(info.flags & GP_AFMT != 0, cycleTime);
      if info.timer == 1 {
        return Err("Can not use timer1 for PWM; timer1 is used for timers");
      }
      var oldCs := tccrb[info.timer] % 8;
      if oldCs != 0 && oldCs != cs {
        return Err("PWM already programmed at different speed");
      }
      tccrb := tccrb[info.timer := cs];
      r := Ok(GpioPwm(chan, info.flags & GP_8BIT != 0));
    }
  }

  /** The first occurrence found by a scan is the one `IndexOf` names. */
  lemma IndexOfFirst(s: seq<u8>, x: u8, i: nat)
    requires i < |s| && s[i] == x && x !in s[..i]
    ensures IndexOf(s, x) == Some(i)
  {
  }

  // ----- SPI -----

  /** The clock divider index: the first k in 0..5 with `clock >= F / 2^k`, else 6. */
  function ClockDiv(clock: u32, freq: u32): (k: nat)
    ensures k <= 6
    ensures forall j | 0 <= j < k :: clock as int < freq as int / Pow2(j)
    ensures k < 6 ==> clock as int >= freq as int / Pow2(k)
  {
    if clock >= freq then 0
    else if clock >= freq / 2 then 1
    else if clock >= freq / 4 then 2
    else if clock >= freq / 8 then 3
    else if clock >= freq / 16 then 4
    else if clock >= freq / 32 then 5
    else 6
  }

  function ModeBits(mode: u8): bv16
  {
    if mode == 1 then CPHA else if mode == 2 then CPOL else if mode == 3 then CPOL | CPHA else 0
  }

  /**
   * `spi_get_config`: SPCR in the high byte, SPSR in the low byte.  Unpacking
   * it programs master mode, SPI enable and the mode's CPOL/CPHA bits, and an
   * SCK of `F / 2^(k+1)` for the chosen divider index k; so SCK never exceeds
   * the requested clock unless even the slowest setting is too fast.
   */
  function GetConfig(mode: u8, clock: u32, freq: u32): (r: bv16)
    ensures var (spcr, spsr) := SetConfig(r);
            spcr & (SPE as bv8) != 0 && spcr & (MSTR as bv8) != 0 &&
            spcr & 0x0C == ModeBits(mode) as bv8 &&
            HardwareDivisor(spcr, spsr) == Pow2(ClockDiv(clock, freq) + 1)
    ensures ClockDiv(clock, freq) < 6 ==> freq as int / Pow2(ClockDiv(clock, freq) + 1) <= clock as int
  {
    var div := ClockDiv(clock, freq);
    PackedRegisters(ModeBits(mode), div);
    DivHalves(freq as int, Pow2(div));
    var spcr := SPE | MSTR | ModeBits(mode) | (div as bv16 >> 1);
    (spcr << 8) | (if div % 2 == 1 || div == 6 then 0 else SPI2X)
  }

  /** `spi_set_config`: the (SPCR, SPSR) register pair written, the high and low bytes of the word. */
  function SetConfig(config: bv16): (r: (bv8, bv8))
    ensures (r.0 as bv16 << 8) | r.1 as bv16 == config
  {
    ((config >> 8) as bv8, (config & 0xFF) as bv8)
  }

  /**
   * The SCK divisor of the datasheet's table (ATmega SPI section): SPR1:SPR0
   * select 4, 16, 64, 128, halved when SPI2X is set.
   */
  function HardwareDivisor(spcr: bv8, spsr: bv8): nat
  {
    var spr := (spcr & 3) as nat;
    var base := if spr == 0 then 4 else if spr == 1 then 16 else if spr == 2 then 64 else 128;
    if spsr & 1 == 1 then base / 2 else base
  }

  /** The register pair for each divider index and mode bits. */
  lemma PackedRegisters(mb: bv16, div: nat)
    requires mb == 0 || mb == CPHA || mb == CPOL || mb == CPOL | CPHA
    requires div <= 6
    ensures var config := ((SPE | MSTR | mb | (div as bv16 >> 1)) << 8) | (if div % 2 == 1 || div == 6 then 0 else SPI2X);
            var (spcr, spsr) := SetConfig(config);
            spcr & (SPE as bv8) != 0 && spcr & (MSTR as bv8) != 0 && spcr & 0x0C == mb as bv8 &&
            HardwareDivisor(spcr, spsr) == Pow2(div + 1)
  {
    assert Pow2(1) == 2 && Pow2(2) == 4 && Pow2(3) == 8 && Pow2(4) == 16;
    assert Pow2(5) == 32 && Pow2(6) == 64 && Pow2(7) == 128;
    var d := div as bv16 >> 1;
    assert d == 0 || d == 1 || d == 2 || d == 3;
  }

  lemma DivHalves(f: int, p: nat)
    requires f >= 0 && p >= 1
    ensures f / (2 * p) <= f / p
  {
    var q := f / (2 * p);
    var r := f % (2 * p);
    assert f == (2 * q) * p + r;
    if r < p {
      DivModUnique(f, p, 2 * q, r);
    } else {
      assert f == (2 * q + 1) * p + (r - p);
      DivModUnique(f, p, 2 * q + 1, r - p);
    }
  }
}
