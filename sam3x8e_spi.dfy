/**
 * The SAM3X8E SPI (src/sam3x8e/spi.c): the chip-select register word,
 * the transmit-data word of one transfer, and the buffer transfer loop.
 * The receive register's replies are supplied as a stream.
 */
module Sam3x8eSpi {
  import opened Ints

  const CHIP_FREQ_CPU_MAX: nat := 84_000_000
  const CHANNEL: bv32 := 0
  const CSR_CPOL: bv32 := 0x1
  const CSR_NCPHA: bv32 := 0x2
  const CSR_CSAAT: bv32 := 0x8
  const TDR_LASTXFER: bv32 := 0x100_0000

  /** `SPI_CSR_SCBR(v)` and `SPI_CSR_DLYBCT(v)`: 8-bit fields at bits 8 and 24. */
  function Scbr(v: bv32): bv32 { (v & 0xFF) << 8 }
  function Dlybct(v: bv32): bv32 { (v & 0xFF) << 24 }
  /** `SPI_TDR_TD(v)` and `SPI_TDR_PCS(v)`: the data half-word and the 4-bit chip select at bit 16. */
  function Td(v: bv32): bv32 { v & 0xFFFF }
  function Pcs(v: bv32): bv32 { (v & 0xF) << 16 }

  /** The serial clock divider `spi_get_config` chooses for `clock`. */
  function ClockDiv(clock: u32): (d: u8)
    ensures 2 <= d <= 255
    ensures clock as nat < CHIP_FREQ_CPU_MAX / 255 ==> d == 255
    ensures clock as nat >= CHIP_FREQ_CPU_MAX / 2 ==> d == 2
    ensures CHIP_FREQ_CPU_MAX / 255 <= clock as nat < CHIP_FREQ_CPU_MAX / 2 ==>
      d as nat == CHIP_FREQ_CPU_MAX / (clock as nat + 1) + 1
  {
    if clock as nat < CHIP_FREQ_CPU_MAX / 255 then 255
    else if clock as nat >= CHIP_FREQ_CPU_MAX / 2 then 2
    else
      DividerBounds(clock as nat);
      (CHIP_FREQ_CPU_MAX / (clock as nat + 1) + 1) as u8
  }

  /** In the middle range `MAX / (clock + 1) + 1` lies in [3, 255], so the `uint8_t` holds it. */
  lemma DividerBounds(clock: nat)
    requires CHIP_FREQ_CPU_MAX / 255 <= clock < CHIP_FREQ_CPU_MAX / 2
    ensures 2 <= CHIP_FREQ_CPU_MAX / (clock + 1) <= 254
  {
    var m := CHIP_FREQ_CPU_MAX;
    DivMonotone(m, 329_412, clock + 1);
    DivMonotone(m, clock + 1, 42_000_000);
  }

  lemma DivMonotone(m: nat, a: nat, b: nat)
    requires 0 < a <= b
    ensures m / b <= m / a
  {
    var qa, qb := m / a, m / b;
    assert m == qa * a + m % a && m == qb * b + m % b;
    MulLe(a, b, qb);
    if qb > qa {
      MulLe(qa + 1, qb, a);
      assert false;
    }
  }

  /** A byte as a register value. */
  function ByteBits(b: u8): (r: bv32)
    ensures r < 0x100
  {
    (b as bv8) as bv32
  }

  function DivBits(clock: u32): bv32
  {
    ByteBits(ClockDiv(clock))
  }

  /** The NCPHA/CPOL bits the `switch` adds for SPI mode `mode`. */
  function ModeBits(mode: u8): bv32
  {
    match mode
    case 0 => 0
    case 1 => CSR_NCPHA
    case 2 => CSR_CPOL
    case 3 => CSR_NCPHA | CSR_CPOL
    case _ => 0
  }

  /** The chip-select word for a given mode and divider: the divider's low byte in SCBR,
    * delay 1 in DLYBCT, chip select kept active, and the mode in NCPHA/CPOL. */
  function Csr(mode: u8, div: bv32): (r: bv32)
    ensures (r >> 8) & 0xFF == div & 0xFF
    ensures (r >> 24) & 0xFF == 1
    ensures r & CSR_CSAAT != 0
    ensures r & CSR_NCPHA != 0 <==> mode == 1 || mode == 3
    ensures r & CSR_CPOL != 0 <==> mode == 2 || mode == 3
  {
    CSR_CSAAT | Dlybct(1) | ModeBits(mode) | Scbr(div)
  }

  /** `spi_get_config`: the selected divider, in 2..255, goes into SCBR unchanged. */
  function GetConfig(mode: u8, clock: u32): (r: bv32)
    ensures (r >> 8) & 0xFF == ByteBits(ClockDiv(clock))
    ensures 2 <= (r >> 8) & 0xFF <= 255
    ensures r & CSR_NCPHA != 0 <==> mode == 1 || mode == 3
    ensures r & CSR_CPOL != 0 <==> mode == 2 || mode == 3
  {
    Csr(mode, DivBits(clock))
  }

  /** The TDR word `spi_transfer` writes for one byte: the byte in its low half, chip
    * select 0, and LASTXFER exactly when `last`. */
  function TdrWord(data: u8, last: bool): (r: bv32)
    ensures r & 0xFFFF == ByteBits(data)
    ensures (r >> 16) & 0xF == 0
    ensures r & TDR_LASTXFER != 0 <==> last
  {
    var tmp := Td(ByteBits(data)) | Pcs(CHANNEL);
    if last then tmp | TDR_LASTXFER else tmp
  }

  /** TDR words for the bytes of `out`, only the final one with LASTXFER. */
  function Words(out: seq<u8>): (w: seq<bv32>)
    ensures |w| == |out|
    ensures forall i | 0 <= i < |w| :: w[i] == TdrWord(out[i], i == |out| - 1)
  {
    seq(|out|, i requires 0 <= i < |out| => TdrWord(out[i], i == |out| - 1))
  }

  /** As written, `_lenTmp = len - 1` in 16 bits and the loop touches `_lenTmp + 1` bytes. */
  function TouchedBytes(len: u8): nat
  {
    ToU16(len as int - 1) as nat + 1
  }

  /** An empty transfer wraps `_lenTmp` to 65535 and touches 65536 bytes; any other length touches exactly `len`. */
  lemma EmptyTransferTouches65536(len: u8)
    ensures TouchedBytes(0) == 65536
    ensures len > 0 ==> TouchedBytes(len) == len as nat
  {
  }

  /** The SPI block: the chip-select register of channel 0 and the TDR words written so far. */
  class Sam3xSpiPort {
    var csr0: bv32
    var tdr: seq<bv32>

    constructor ()
      ensures csr0 == 0 && tdr == []
    {
      csr0, tdr := 0, [];
    }

    /** `spi_set_config`. */
    method SetConfig(config: bv32)
      modifies this`csr0
      ensures csr0 == config
    {
      csr0 := config;
    }

    /** `spi_transfer`, with `rdr` the byte the receive register then holds. */
    method Transfer(data: u8, last: bool, rdr: u8) returns (reply: u8)
      modifies this`tdr
      ensures tdr == old(tdr) + [TdrWord(data, last)] && reply == rdr
    {
      var tmp := Td(ByteBits(data)) | Pcs(CHANNEL);
      if last {
        tmp := tmp | TDR_LASTXFER;
      }
      tdr := tdr + [tmp];
      return rdr;
    }

    /**
     * `spi_transfer_len`, with the empty transfer corrected to do nothing:
     * every byte is replaced by its reply and only the final one is sent
     * with LASTXFER.
     */
    method TransferLen(data: array<u8>, len: u8, miso: seq<u8>)
      requires len as int <= data.Length && len as int <= |miso|
      modifies data, this`tdr
      ensures data[..len] == miso[..len]
      ensures data[len..] == old(data[len..])
      ensures tdr == old(tdr) + Words(old(data[..len]))
    {
      if len == 0 {
        assert old(data[..len]) == [];
        return;
      }
      ghost var out := data[..len];
      var lenTmp := len as int - 1;
      var i := 0;
      while i < lenTmp
        invariant 0 <= i <= lenTmp
        invariant data[..i] == miso[..i]
        invariant data[i..] == old(data[i..])
        invariant tdr == old(tdr) + Words(out)[..i]
      {
        data[i] := Transfer(data[i], false, miso[i]);
        i := i + 1;
      }
      data[i] := Transfer(data[i], true, miso[i]);
      assert Words(out)[..len] == Words(out);
    }
  }
}
