/**
 * The LPC176x ADC backend (src/lpc176x/adc.c, non-burst path): an 8-entry
 * table of (port, pin) pairs and the static `CFG_CURRENT` marker.  The done
 * flag of ADGDR and the channel data registers are inputs of the calls that
 * read them.
 */
module LpcAdc {
  import opened Ints
  import opened Wrappers
  import LpcGpio
  import AdcMarker

  /** `adc_pins`: (port, pin) of ADC0..ADC7. */
  const ADC_PINS: seq<(nat, nat)> := [(0, 23), (0, 24), (0, 25), (0, 26), (1, 30), (1, 31), (0, 3), (0, 2)]

  /** The retry delay of every non-ready sample. */
  const SAMPLE_DELAY: u32 := 500

  /** `struct gpio_adc`. */
  datatype GpioAdc = GpioAdc(channel: nat)

  /** `ADC_GDR_RESULT`: the 12-bit result field (bits 4..15) of a data register. */
  function GdrResult(reg: bv32): (v: u16)
    ensures v as int < 0x1000
  {
    ((reg >> 4) & 0xFFF) as int as u16
  }

  class LpcAdcUnit {
    /** The static `CFG_CURRENT`: the channel converting, 0 when free. */
    var cfgCurrent: nat
    /** The channel selected in ADCR by the last start of a conversion. */
    var adcrChannel: nat
    /** How many conversions were started (ADCR writes with START_NOW). */
    var starts: nat

    constructor ()
      ensures cfgCurrent == 0 && starts == 0
    {
      cfgCurrent, adcrChannel, starts := 0, 0, 0;
    }

    /**
     * `gpio_adc_setup`: the index of `(GPIO2PORT(pin), GPIO2PIN(pin))` in
     * `adc_pins`, or the shutdown "Not a valid ADC pin".
     */
    method Setup(pin: nat) returns (r: Result<GpioAdc>)
      ensures r.Err? <==> (LpcGpio.Gpio2Port(pin), LpcGpio.Gpio2Pin(pin)) !in ADC_PINS
      ensures r.Err? ==> r.msg == "Not a valid ADC pin"
      ensures r.Ok? ==> (r.value.channel < |ADC_PINS| &&
        ADC_PINS[r.value.channel] == (LpcGpio.Gpio2Port(pin), LpcGpio.Gpio2Pin(pin)) &&
        (LpcGpio.Gpio2Port(pin), LpcGpio.Gpio2Pin(pin)) !in ADC_PINS[..r.value.channel])
    {
      var key := (LpcGpio.Gpio2Port(pin), LpcGpio.Gpio2Pin(pin));
      var chan := 0;
      while true
        invariant 0 <= chan <= |ADC_PINS|
        invariant key !in ADC_PINS[..chan]
        decreases |ADC_PINS| - chan
      {
        if chan >= |ADC_PINS| {
          assert ADC_PINS[..chan] == ADC_PINS;
          return Err("Not a valid ADC pin");
        }
        if ADC_PINS[chan] == key {
          break;
        }
        assert ADC_PINS[..chan + 1] == ADC_PINS[..chan] + [ADC_PINS[chan]];
        chan := chan + 1;
      }
      r := Ok(GpioAdc(chan));
    }

    /** `gpio_adc_sample`, with `done` the done flag of ADGDR. */
    method Sample(g: GpioAdc, done: bool) returns (delay: u32)
      modifies this
      ensures delay == 0 <==> AdcMarker.Sample(old(cfgCurrent), g.channel, done).ready
      ensures delay != 0 ==> delay == SAMPLE_DELAY
      ensures cfgCurrent == AdcMarker.Sample(old(cfgCurrent), g.channel, done).cur
      ensures old(cfgCurrent) == 0 ==> adcrChannel == g.channel && starts == old(starts) + 1
      ensures old(cfgCurrent) != 0 ==> adcrChannel == old(adcrChannel) && starts == old(starts)
    {
      if cfgCurrent == 0 {
        adcrChannel := g.channel;
        starts := starts + 1;
        cfgCurrent := g.channel;
        return SAMPLE_DELAY;
      }
      if cfgCurrent != g.channel {
        return SAMPLE_DELAY;
      }
      if !done {
        return SAMPLE_DELAY;
      }
      return 0;
    }

    /** `gpio_adc_read`: cancels, then returns the result field of the channel's data register `addr`. */
    method Read(g: GpioAdc, addr: bv32) returns (v: u16)
      modifies this`cfgCurrent
      ensures cfgCurrent == 0
      ensures v == GdrResult(addr)
    {
      Cancel(g);
      v := GdrResult(addr);
    }

    /** `gpio_adc_cancel_sample`: frees the marker whoever owns it. */
    method Cancel(g: GpioAdc)
      modifies this`cfgCurrent
      ensures cfgCurrent == 0
    {
      cfgCurrent := 0;
    }
  }
}
