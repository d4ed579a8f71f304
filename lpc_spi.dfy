/**
 * The LPC176x SPI configuration word (src/lpc176x/spi.c): the prescaler
 * search, the packing of control bits and counter, and their unpacking
 * into the SPCR and SPCCR registers.  The peripheral clock is a parameter.
 */
module LpcSpi {
  import opened Ints
  import SpiTrace

  const MASTER_MODE: bv32 := 0x20
  const DATA_MSB_FIRST: bv32 := 0
  const DATABIT_8: bv32 := 0x800
  const CPHA_FIRST: bv32 := 0
  const CPHA_SECOND: bv32 := 0x8
  const CPOL_HI: bv32 := 0
  const CPOL_LO: bv32 := 0x10
  const SPCR_BITMASK: bv32 := 0xFFC

  /** `target_clock * prescale` in 32-bit arithmetic. */
  function Mul32(a: u32, b: nat): nat
  {
    (a as nat * b) % 0x1_0000_0000
  }

  /** The loop's stop test: the prescaled target reaches the peripheral clock. */
  predicate Reaches(pclk: u32, target: u32, p: nat)
  {
    pclk as nat <= Mul32(target, p)
  }

  /** The prescale the search settles on, starting from the even `p`: an even value
    * from `p` to 256 that reaches the clock unless it is 256. */
  function PrescaleFrom(pclk: u32, target: u32, p: nat): (r: nat)
    requires 8 <= p <= 254 && p % 2 == 0
    ensures p <= r <= 256 && r % 2 == 0 && (r <= 254 ==> Reaches(pclk, target, r))
    decreases 256 - p
  {
    if Reaches(pclk, target, p) then p
    else if 254 < p + 2 then p + 2
    else PrescaleFrom(pclk, target, p + 2)
  }

  /** The smallest even prescale from 8 with `pclk <= target * prescale`, or 256 if none up to 254 is. */
  function Prescale(pclk: u32, target: u32): (r: nat)
    ensures 8 <= r <= 256 && r % 2 == 0 && (r <= 254 ==> Reaches(pclk, target, r))
    ensures forall q | 8 <= q < r && q % 2 == 0 :: !Reaches(pclk, target, q)
  {
    PrescaleFromIsFirst(pclk, target, 8);
    PrescaleFrom(pclk, target, 8)
  }

  /** What `spi_get_clock` returns: the prescale through the 8-bit `SPI_SPCCR_COUNTER` mask. */
  function ClockCounter(pclk: u32, target: u32): (c: u32)
    ensures c < 0x100
  {
    (Prescale(pclk, target) % 0x100) as u32
  }

  /** No even prescale the search passes over reaches the clock. */
  lemma {:induction false} PrescaleFromSkips(pclk: u32, target: u32, p: nat, q: nat)
    requires 8 <= p <= 254 && p % 2 == 0
    requires p <= q < PrescaleFrom(pclk, target, p) && q % 2 == 0
    ensures !Reaches(pclk, target, q)
    decreases 256 - p
  {
    if q != p {
      PrescaleFromSkips(pclk, target, p + 2, q);
    }
  }

  /** The search finds the smallest even prescale from `p` on that reaches the clock, or 256 if none up to 254 does. */
  lemma PrescaleFromIsFirst(pclk: u32, target: u32, p: nat)
    requires 8 <= p <= 254 && p % 2 == 0
    ensures var r := PrescaleFrom(pclk, target, p);
      p <= r <= 256 && r % 2 == 0 && (r <= 254 ==> Reaches(pclk, target, r)) &&
      forall q | p <= q < r && q % 2 == 0 :: !Reaches(pclk, target, q)
  {
    forall q | p <= q < PrescaleFrom(pclk, target, p) && q % 2 == 0
      ensures !Reaches(pclk, target, q)
    {
      PrescaleFromSkips(pclk, target, p, q);
    }
  }

  /** `spi_get_clock`: the `while` loop stepping the prescale by 2. */
  method GetClock(pclk: u32, target: u32) returns (counter: u32)
    ensures counter == ClockCounter(pclk, target)
  {
    var prescale: u32 := 8;
    while true
      invariant 8 <= prescale <= 254 && prescale % 2 == 0
      invariant PrescaleFrom(pclk, target, prescale as nat) == Prescale(pclk, target)
      decreases 256 - prescale as int
    {
      if pclk as nat <= ToU32(target as nat * prescale as nat) as nat {
        break;
      }
      prescale := prescale + 2;
      if 254 < prescale {
        break;
      }
    }
    return prescale % 0x100;
  }

  /** The CPHA/CPOL constants the `switch` adds for SPI mode `mode`. */
  function ModeBits(mode: u8): bv32
  {
    match mode
    case 0 => CPHA_FIRST | CPOL_HI
    case 1 => CPHA_SECOND
    case 2 => CPOL_LO
    case 3 => CPHA_SECOND | CPOL_LO
    case _ => 0
  }

  /** The control half of the configuration word, before the clock counter is added. */
  function Control(mode: u8): bv32
  {
    (MASTER_MODE | DATA_MSB_FIRST | DATABIT_8 | ModeBits(mode)) & SPCR_BITMASK
  }

  /** The control bits: always master and 8 data bits, second-edge phase for modes 1 and 3, idle-low polarity for modes 2 and 3. */
  lemma ControlBits(mode: u8)
    ensures Control(mode) & MASTER_MODE != 0 && Control(mode) & DATABIT_8 != 0
    ensures Control(mode) & CPHA_SECOND != 0 <==> mode == 1 || mode == 3
    ensures Control(mode) & CPOL_LO != 0 <==> mode == 2 || mode == 3
    ensures Control(mode) & !SPCR_BITMASK == 0
  {
  }

  /** Control bits with the counter at bit 24: `spi_set_config` splits it back into the
    * control bits and the counter. */
  function Pack(mode: u8, counter: bv32): (r: bv32)
    requires counter < 0x100
    ensures Unpack(r) == Registers(Control(mode), counter)
  {
    Control(mode) | (counter << 24)
  }

  /** `spi_get_config` as written: SPCR gets the control bits and SPCCR the masked counter. */
  function GetConfig(pclk: u32, mode: u8, clock: u32): (r: bv32)
    ensures Unpack(r) == Registers(Control(mode), ClockCounter(pclk, clock) as bv32)
  {
    Pack(mode, ClockCounter(pclk, clock) as bv32)
  }

  /** The values `spi_set_config` writes to SPCR and SPCCR. */
  datatype Registers = Registers(spcr: bv32, spccr: bv32)

  /** SPCR keeps only the control bits and SPCCR only the low 8 counter bits. */
  function Unpack(config: bv32): (r: Registers)
    ensures r.spcr & !SPCR_BITMASK == 0 && r.spccr < 0x100
  {
    Registers(config & SPCR_BITMASK, (config >> 24) & 0xFF)
  }

  /** A slow target leaves every prescale below 256 short of the clock. */
  lemma {:induction false} SlowTargetFrom(pclk: u32, target: u32, p: nat)
    requires 8 <= p <= 254 && p % 2 == 0 && target as nat * 254 < pclk as nat
    ensures PrescaleFrom(pclk, target, p) == 256
    decreases 256 - p
  {
    assert target as nat * p <= target as nat * 254;
    assert Mul32(target, p) == target as nat * p;
    if p + 2 <= 254 {
      SlowTargetFrom(pclk, target, p + 2);
    }
  }

  /** As written: a 100 kHz target at a 100 MHz peripheral clock gives counter 0 (the capped 256 masked to 8 bits). */
  lemma SlowTargetCounterIsZero()
    ensures ClockCounter(100_000_000, 100_000) == 0
  {
    SlowTargetFrom(100_000_000, 100_000, 8);
  }

  /** Corrected: the search stops at the largest counter the 8-bit register holds, 254,
    * so the counter is an even value in [8, 254], the original one whenever the search succeeds. */
  function ClockCounterFixed(pclk: u32, target: u32): (c: u32)
    ensures 8 <= c <= 254 && c % 2 == 0
    ensures Prescale(pclk, target) <= 254 ==> c == ClockCounter(pclk, target)
  {
    if Prescale(pclk, target) > 254 then 254 else Prescale(pclk, target) as u32
  }

  /** With the correction, SPCCR receives the corrected counter, an even value in [8, 254]. */
  function GetConfigFixed(pclk: u32, mode: u8, clock: u32): (r: bv32)
    ensures Unpack(r) == Registers(Control(mode), ClockCounterFixed(pclk, clock) as bv32)
  {
    Pack(mode, ClockCounterFixed(pclk, clock) as bv32)
  }

  /** The SPI block's two registers. */
  class LpcSpiPort {
    var spcr: bv32
    var spccr: bv32

    constructor ()
      ensures spcr == 0 && spccr == 0
    {
      spcr, spccr := 0, 0;
    }

    /** `spi_set_config`. */
    method SetConfig(config: bv32)
      modifies this
      ensures Registers(spcr, spccr) == Unpack(config)
    {
      spcr := config & SPCR_BITMASK;
      spccr := (config >> 24) & 0xFF;
    }

    /** `spi_transfer_len`: every byte replaced by its reply, none flagged last. */
    method TransferLen(data: array<u8>, len: u8, miso: seq<u8>) returns (ops: seq<SpiTrace.BusOp>)
      requires len as int <= data.Length && len as int <= |miso|
      modifies data
      ensures data[..len] == miso[..len]
      ensures data[len..] == old(data[len..])
      ensures ops == SpiTrace.Plain(old(data[..len]))
    {
      ops := SpiTrace.TransferInPlace(data, len, miso);
    }
  }
}
