/**
 * What the firmware's SPI command modules do on the bus, as a log of
 * operations.  `spi_transfer` itself is a byte exchange whose replies are
 * supplied to the model as a stream.
 */
module SpiTrace {
  import opened Ints

  /** `spi_set_config`, a write of a slave-select pin, or one `spi_transfer(out, last)`. */
  datatype BusOp = SetConfig(config: nat) | CsWrite(pin: nat, high: bool) | Xfer(out: u8, last: bool)

  /** `spi_transfer` of each byte of `out`, only the final one flagged last. */
  function Transfers(out: seq<u8>): (ops: seq<BusOp>)
    ensures |ops| == |out|
    ensures forall i | 0 <= i < |ops| :: ops[i] == Xfer(out[i], i == |out| - 1)
  {
    seq(|out|, i requires 0 <= i < |out| => Xfer(out[i], i == |out| - 1))
  }

  /** A prefix of `Transfers(out)`, while the loop that issues it runs. */
  function TransfersBelow(out: seq<u8>, k: nat): (ops: seq<BusOp>)
    requires k <= |out|
    ensures |ops| == k
    ensures forall i | 0 <= i < k :: ops[i] == Xfer(out[i], i == |out| - 1)
  {
    seq(k, i requires 0 <= i < k => Xfer(out[i], i == |out| - 1))
  }

  lemma TransfersBelowStep(out: seq<u8>, k: nat)
    requires k < |out|
    ensures TransfersBelow(out, k + 1) == TransfersBelow(out, k) + [Xfer(out[k], k == |out| - 1)]
  {
  }

  lemma TransfersBelowAll(out: seq<u8>)
    ensures TransfersBelow(out, |out|) == Transfers(out)
  {
  }

  /** `spi_transfer(out[i], 0)` for each byte: no transfer is flagged last. */
  function Plain(out: seq<u8>): (ops: seq<BusOp>)
    ensures |ops| == |out|
    ensures forall i | 0 <= i < |ops| :: ops[i] == Xfer(out[i], false)
  {
    seq(|out|, i requires 0 <= i < |out| => Xfer(out[i], false))
  }

  /**
   * The `spi_transfer_len` loop of the LPC176x and STM32F1 ports: each of the
   * first `len` bytes of `data` is sent in order with last = 0 and replaced by
   * the reply, `miso[i]` being the reply to the i-th byte.
   */
  method TransferInPlace(data: array<u8>, len: u8, miso: seq<u8>) returns (ops: seq<BusOp>)
    requires len as int <= data.Length && len as int <= |miso|
    modifies data
    ensures data[..len] == miso[..len]
    ensures data[len..] == old(data[len..])
    ensures ops == Plain(old(data[..len]))
  {
    ghost var out := data[..len];
    ops := [];
    var i: int := 0;
    while i < len as int
      invariant 0 <= i <= len as int
      invariant data[..i] == miso[..i]
      invariant data[i..] == old(data[i..])
      invariant ops == Plain(out[..i])
    {
      ops := ops + [Xfer(data[i], false)];
      data[i] := miso[i];
      i := i + 1;
    }
  }

  /**
   * The chip-select raises of a shutdown loop over the oids below `n`, with
   * `pins` the chip-select pin of each configured device: one raise per
   * configured oid, in oid order, and nothing else.
   */
  function DeselectBelow(pins: map<nat, nat>, n: nat): (ops: seq<BusOp>)
    ensures forall i | 0 <= i < |ops| :: ops[i].CsWrite? && ops[i].high
  {
    if n == 0 then [] else DeselectBelow(pins, n - 1) + (if n - 1 in pins then [CsWrite(pins[n - 1], true)] else [])
  }

  /** Every configured device's chip select is among those the shutdown raises. */
  lemma {:induction false} DeselectCovers(pins: map<nat, nat>, n: nat, oid: nat)
    requires oid in pins && oid < n
    ensures CsWrite(pins[oid], true) in DeselectBelow(pins, n)
  {
    if oid < n - 1 {
      DeselectCovers(pins, n - 1, oid);
    }
  }
}
