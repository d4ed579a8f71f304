/**
 * The STM32F1 SPI configuration word (src/stm32f1xx/spi.c): the baud-rate
 * prescaler search, CR1 bit packing, and the split into CR1 and CR2.
 * The APB1 clock is a parameter.
 */
module Stm32Spi {
  import opened Ints
  import SpiTrace

  const CR1_CPHA: bv32 := 0x1
  const CR1_CPOL: bv32 := 0x2
  const CR1_MSTR: bv32 := 0x4
  const CR1_BR_POS: bv32 := 3
  const CR1_BR: bv32 := 0x38
  const CR1_SPE: bv32 := 0x40

  /** `target_clock * (2 * (1 << prescale))` in 32-bit arithmetic. */
  function Scaled(target: u32, p: nat): nat
  {
    (target as nat * (2 * Pow2(p))) % 0x1_0000_0000
  }

  /** The `do`/`while` condition for keeping on. */
  predicate TooFast(pclk: u32, target: u32, p: nat)
  {
    Scaled(target, p) < pclk as nat && p <= 7
  }

  /** The search from `p`: the first prescale from `p` whose divided clock no longer exceeds
    * the target, 8 when none below 8 does. */
  function PrescaleFrom(pclk: u32, target: u32, p: nat): (r: nat)
    requires 1 <= p <= 8
    ensures p <= r <= 8 && (r < 8 ==> pclk as nat <= Scaled(target, r))
    ensures forall q | p <= q < r :: Scaled(target, q) < pclk as nat
    decreases 8 - p
  {
    if TooFast(pclk, target, p) then PrescaleFrom(pclk, target, p + 1) else p
  }

  /** What `spi_get_clock` returns: the least prescale in 1..7 whose divided clock reaches
    * the bus clock, 8 when none does. */
  function Prescale(pclk: u32, target: u32): (r: nat)
    ensures 1 <= r <= 8 && (r < 8 ==> pclk as nat <= Scaled(target, r))
    ensures forall q | 1 <= q < r :: Scaled(target, q) < pclk as nat
  {
    PrescaleFrom(pclk, target, 1)
  }

  /** `spi_get_clock`: the `do`/`while` loop. */
  method GetClock(pclk: u32, target: u32) returns (prescale: u32)
    ensures prescale as nat == Prescale(pclk, target)
  {
    prescale := 0;
    var div: nat := 1;
    while true
      invariant 0 <= prescale <= 7 && div == Pow2(prescale as nat)
      invariant prescale > 0 ==> TooFast(pclk, target, prescale as nat)
      invariant prescale > 0 ==> PrescaleFrom(pclk, target, prescale as nat) == Prescale(pclk, target)
      decreases 8 - prescale as int
    {
      prescale := prescale + 1;
      div := 2 * div;
      if !(ToU32(target as nat * (2 * div)) as nat < pclk as nat && prescale <= 7) {
        break;
      }
    }
  }

  /** The CPHA/CPOL bits the `switch` adds for SPI mode `mode`. */
  function ModeBits(mode: u8): bv32
  {
    match mode
    case 0 => 0
    case 1 => CR1_CPHA
    case 2 => CR1_CPOL
    case 3 => CR1_CPHA | CR1_CPOL
    case _ => 0
  }

  /** The configuration word for a given prescale: master and enable are always set, CPHA
    * exactly for modes 1 and 3, CPOL exactly for modes 2 and 3, and the prescale goes through
    * the 3-bit BR field, so 8 becomes 0, the fastest divider. */
  function Pack(mode: u8, prescale: bv32): (r: bv32)
    ensures prescale <= 8 ==> BaudField(r) == if prescale == 8 then 0 else prescale
    ensures r & CR1_MSTR != 0 && r & CR1_SPE != 0
    ensures r & CR1_CPHA != 0 <==> mode == 1 || mode == 3
    ensures r & CR1_CPOL != 0 <==> mode == 2 || mode == 3
  {
    (CR1_MSTR | CR1_SPE | ModeBits(mode) | ((prescale << CR1_BR_POS) & CR1_BR)) & 0xFFFF
  }

  /** `spi_get_config` as written: the BR field holds the search's prescale, except that 8 wraps to 0. */
  function GetConfig(pclk: u32, mode: u8, clock: u32): (r: bv32)
    ensures BaudField(r) == if Prescale(pclk, clock) == 8 then 0 else Bits(Prescale(pclk, clock))
    ensures Unpack(r) == Registers(r, 0)
  {
    Pack(mode, Bits(Prescale(pclk, clock)))
  }

  /** The BR field (bits 3..5) of a configuration word. */
  function BaudField(config: bv32): bv32
  {
    (config & CR1_BR) >> CR1_BR_POS
  }

  /** The values `spi_set_config` writes to CR1 and CR2. */
  datatype Registers = Registers(cr1: bv32, cr2: bv32)

  /** CR1 takes the low half of the word and CR2 the high half. */
  function Unpack(config: bv32): (r: Registers)
    ensures r.cr1 <= 0xFFFF && r.cr2 <= 0xFFFF
    ensures r.cr1 | (r.cr2 << 16) == config
  {
    Registers(config & 0xFFFF, config >> 16)
  }

  /** The word has been truncated to 16 bits, so CR2 always receives 0 and CR1 the whole word. */
  lemma SetConfigLeavesCr2Zero(mode: u8, prescale: bv32)
    ensures Unpack(Pack(mode, prescale)) == Registers(Pack(mode, prescale), 0)
  {
  }

  /** As written: a 100 kHz target at a 36 MHz clock runs the search to 8, which the BR field turns into 0 (divide by 2, 18 MHz). */
  lemma SlowTargetGetsFastestDivider()
    ensures Prescale(36_000_000, 100_000) == 8
    ensures BaudField(GetConfig(36_000_000, 0, 100_000)) == 0
  {
    assert Pow2(8) == 256 by {
      assert Pow2(1) == 2 && Pow2(2) == 4 && Pow2(3) == 8 && Pow2(4) == 16;
      assert Pow2(5) == 32 && Pow2(6) == 64 && Pow2(7) == 128;
    }
    assert PrescaleFrom(36_000_000, 100_000, 7) == 8;
    assert PrescaleFrom(36_000_000, 100_000, 1) == 8;
  }

  /** Corrected: the search result is clamped to 7, the slowest divider (256) the field
    * holds, so it lies in 1..7 and is the search's answer whenever that is below 8. */
  function PrescaleFixed(pclk: u32, target: u32): (p: nat)
    ensures 1 <= p <= 7
    ensures Prescale(pclk, target) < 8 ==> p == Prescale(pclk, target)
  {
    if Prescale(pclk, target) > 7 then 7 else Prescale(pclk, target)
  }

  /** With the clamp the BR field holds the chosen prescale, so the divider is never smaller
    * than the search asked for. */
  function GetConfigFixed(pclk: u32, mode: u8, clock: u32): (r: bv32)
    ensures BaudField(r) == Bits(PrescaleFixed(pclk, clock))
  {
    Pack(mode, Bits(PrescaleFixed(pclk, clock)))
  }

  /** A prescale in 0..8 as a register value. */
  function Bits(p: nat): (b: bv32)
    requires p <= 8
    ensures b <= 8 && (b == 8 <==> p == 8)
  {
    match p
    case 0 => 0 case 1 => 1 case 2 => 2 case 3 => 3 case 4 => 4
    case 5 => 5 case 6 => 6 case 7 => 7 case 8 => 8
  }

  /** The SPI block's two control registers. */
  class Stm32SpiPort {
    var cr1: bv32
    var cr2: bv32

    constructor ()
      ensures cr1 == 0 && cr2 == 0
    {
      cr1, cr2 := 0, 0;
    }

    /** `spi_set_config`. */
    method SetConfig(config: bv32)
      modifies this
      ensures Registers(cr1, cr2) == Unpack(config)
    {
      cr1 := config & 0xFFFF;
      cr2 := config >> 16;
    }

    /** `spi_transfer_len`: every byte replaced by its reply, each sent with last = 0. */
    method TransferLen(data: array<u8>, len: u8, miso: seq<u8>) returns (ops: seq<SpiTrace.BusOp>)
      requires len as int <= data.Length && len as int <= |miso|
      modifies data
      ensures data[..len] == miso[..len]
      ensures data[len..] == old(data[len..])
      ensures ops == SpiTrace.Plain(old(data[..len]))
    {
      ops := SpiTrace.TransferInPlace(data, len, miso);
    }
  }
}
