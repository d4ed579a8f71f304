/**
 * The STM32F1 ADC backend (src/stm32f1xx/adc.c): a 10-entry table of
 * (port, pin) pairs and the static `CFG_CHAN` marker.  The STM32 pin
 * decoding macros are not part of this model, so setup takes the decoded
 * (port, pin).  The EOC flag and the ADC data register are inputs.
 */
module Stm32Adc {
  import opened Ints
  import opened Wrappers
  import AdcMarker

  /** `adc_pins`: (port, pin) of ADC0..ADC9. */
  const ADC_PINS: seq<(nat, nat)> := [(0, 0), (0, 1), (0, 2), (0, 3), (0, 4), (0, 5), (0, 6), (0, 7), (1, 0), (1, 1)]

  /** `ADC_FREQ_MAX`. */
  const ADC_FREQ_MAX: nat := 12000000

  datatype GpioAdc = GpioAdc(channel: nat)

  class Stm32AdcUnit {
    /** `CONFIG_CLOCK_FREQ` of the build. */
    const clockFreq: u32
    /** The static `CFG_CHAN`: the channel converting, 0 when free. */
    var cfgChan: nat
    /** The channel last written to SQR3. */
    var sqr3: nat
    /** How many conversions were started (CR2 writes). */
    var starts: nat

    constructor (clockFreq: u32)
      ensures this.clockFreq == clockFreq && cfgChan == 0 && starts == 0
    {
      this.clockFreq := clockFreq;
      cfgChan, sqr3, starts := 0, 0, 0;
    }

    /** The retry delay `CONFIG_CLOCK_FREQ / ADC_FREQ_MAX`. */
    function Delay(): (d: u32)
      reads this
      ensures d as int * ADC_FREQ_MAX <= clockFreq as int < (d as int + 1) * ADC_FREQ_MAX
    {
      (clockFreq as int / ADC_FREQ_MAX) as u32
    }

    /** `gpio_adc_setup` on the decoded (port, pin). */
    method Setup(port: nat, pin: nat) returns (r: Result<GpioAdc>)
      ensures r.Err? <==> (port, pin) !in ADC_PINS
      ensures r.Err? ==> r.msg == "Not a valid ADC pin"
      ensures r.Ok? ==> (r.value.channel < |ADC_PINS| && ADC_PINS[r.value.channel] == (port, pin) &&
        (port, pin) !in ADC_PINS[..r.value.channel])
    {
      var chan := 0;
      while true
        invariant 0 <= chan <= |ADC_PINS|
        invariant (port, pin) !in ADC_PINS[..chan]
        decreases |ADC_PINS| - chan
      {
        if chan >= |ADC_PINS| {
          assert ADC_PINS[..chan] == ADC_PINS;
          return Err("Not a valid ADC pin");
        }
        if ADC_PINS[chan] == (port, pin) {
          break;
        }
        assert ADC_PINS[..chan + 1] == ADC_PINS[..chan] + [ADC_PINS[chan]];
        chan := chan + 1;
      }
      r := Ok(GpioAdc(chan));
    }

    /**
     * `gpio_adc_sample`, with `eoc` the EOC bit of SR.  Every path that is not
     * ready returns `Delay()`; note that `Delay()` is itself 0 when the clock
     * is below 12 MHz.
     */
    method Sample(g: GpioAdc, eoc: bool) returns (delay: u32)
      modifies this`cfgChan, this`sqr3, this`starts
      ensures AdcMarker.Sample(old(cfgChan), g.channel, eoc).ready ==> delay == 0
      ensures !AdcMarker.Sample(old(cfgChan), g.channel, eoc).ready ==> delay == Delay()
      ensures cfgChan == AdcMarker.Sample(old(cfgChan), g.channel, eoc).cur
      ensures old(cfgChan) == 0 ==> sqr3 == g.channel && starts == old(starts) + 1
      ensures old(cfgChan) != 0 ==> sqr3 == old(sqr3) && starts == old(starts)
    {
      if cfgChan == 0 {
        sqr3 := g.channel;
        starts := starts + 1;
        cfgChan := g.channel;
        return Delay();
      }
      if cfgChan != g.channel {
        return Delay();
      }
      if !eoc {
        return Delay();
      }
      return 0;
    }

    /** `gpio_adc_read`: cancels, then returns the low 16 bits (`& 0xFFFF`) of DR. */
    method Read(g: GpioAdc, dr: u32) returns (v: u16)
      modifies this`cfgChan
      ensures cfgChan == 0
      ensures v as int == dr as int % 0x1_0000
    {
      Cancel(g);
      v := ToU16(dr as int);
    }

    /** `gpio_adc_cancel_sample`: frees the marker whoever owns it. */
    method Cancel(g: GpioAdc)
      modifies this`cfgChan
      ensures cfgChan == 0
    {
      cfgChan := 0;
    }
  }
}
