/**
 * The generic SPI bus commands (src/spibus.c): `spibus_write` and
 * `spibus_read` exchange bytes with the slave behind one configured chip
 * select and answer with a status and the bytes received, collected in a
 * 32-byte `resp` array.
 *
 * As written, both commands can store more bytes than `resp` holds
 * (`ReadStores`, `WriteStores`); the methods of `SpiBuses` use the bound
 * that keeps every store inside the array.
 */
module SpiBus {
  import opened Ints
  import opened SpiTrace

  /** The size of the `resp` array. */
  const RESP_SIZE: nat := 32

  /** `struct spibus_t`: the SPI configuration word and the chip-select pin. */
  datatype Bus = Bus(config: nat, pin: nat)

  /** A `spibus_write_resp` / `spibus_read_resp` message. */
  datatype Response = Response(oid: nat, status: u8, data: seq<u8>)

  /** As written: the `resp` indices `spibus_read` stores to for a request of `len` bytes. */
  function ReadStores(len: nat): (ix: seq<nat>)
    ensures 1 <= len <= 32 ==> |ix| == len + 1 && forall i | 0 <= i < |ix| :: ix[i] == i
    ensures !(1 <= len <= 32) ==> ix == []
  {
    if 1 <= len <= 32 then seq(len + 1, i => i) else []
  }

  /** As written: the `resp` indices `spibus_write` stores to for `len` data bytes; there is no upper bound. */
  function WriteStores(len: nat): (ix: seq<nat>)
    ensures 1 <= len ==> |ix| == len + 1 && forall i | 0 <= i < |ix| :: ix[i] == i
    ensures len == 0 ==> ix == []
  {
    if 1 <= len then seq(len + 1, i => i) else []
  }

  /** `spibus_read` with `len == 32` passes its guard and stores to `resp[32]`, one past the array. */
  lemma ReadOverflowsAt32()
    ensures 1 <= 32 <= 32 && RESP_SIZE in ReadStores(32)
  {
    assert ReadStores(32)[32] == 32;
  }

  /** `spibus_write` with 32 data bytes stores to `resp[32]`. */
  lemma WriteOverflowsAt32()
    ensures RESP_SIZE in WriteStores(32)
  {
    assert WriteStores(32)[32] == 32;
  }

  /** The corrected guard of both commands: the command byte and `len` data bytes fit in `resp`. */
  predicate Fits(len: nat)
  {
    1 <= len && len + 1 <= RESP_SIZE
  }

  /** The bus operations of a successful `spibus_write`. */
  function WriteOps(b: Bus, cmd: u8, data: seq<u8>): (ops: seq<BusOp>)
    requires |data| >= 1
    ensures |ops| == |data| + 4
    ensures ops[0] == SetConfig(b.config) && ops[1] == CsWrite(b.pin, false) && ops[|ops| - 1] == CsWrite(b.pin, true)
    ensures ops[2] == Xfer(cmd, false)
    ensures forall i | 0 <= i < |ops| :: (ops[i].Xfer? && ops[i].last) <==> i == |ops| - 2
  {
    [SetConfig(b.config), CsWrite(b.pin, false), Xfer(cmd, false)] + Transfers(data) + [CsWrite(b.pin, true)]
  }

  /** The bus operations of a successful `spibus_read` of `len` bytes: the command, then `len` reads of `SPI_READ_CMD` (0). */
  function ReadOps(b: Bus, cmd: u8, len: nat): (ops: seq<BusOp>)
    requires len >= 1
    ensures |ops| == len + 4
    ensures ops[0] == SetConfig(b.config) && ops[1] == CsWrite(b.pin, false) && ops[|ops| - 1] == CsWrite(b.pin, true)
    ensures ops[2] == Xfer(cmd, false)
    ensures forall i | 3 <= i < |ops| - 1 :: ops[i].Xfer? && ops[i].out == 0
    ensures forall i | 0 <= i < |ops| :: (ops[i].Xfer? && ops[i].last) <==> i == |ops| - 2
  {
    [SetConfig(b.config), CsWrite(b.pin, false), Xfer(cmd, false)] + Transfers(seq(len, _ => 0)) + [CsWrite(b.pin, true)]
  }

  /** The chip-select pin of each configured bus. */
  function Pins(buses: map<nat, Bus>): (pins: map<nat, nat>)
    ensures pins.Keys == buses.Keys
    ensures forall o | o in buses :: pins[o] == buses[o].pin
  {
    map o | o in buses :: buses[o].pin
  }

  /**
   * The configured buses (`oid` -> `struct spibus_t`), the log of bus
   * operations, and the responses sent.
   */
  class SpiBuses {
    var buses: map<nat, Bus>
    var bus: seq<BusOp>
    var responses: seq<Response>

    constructor ()
      ensures buses == map[] && bus == [] && responses == []
    {
      buses, bus, responses := map[], [], [];
    }

    /** `command_config_spibus_ss_pin`, given the configuration word `spi_get_config` produced. */
    method ConfigSsPin(oid: nat, pin: nat, config: nat)
      requires oid < 0x100 && oid !in buses
      modifies this`buses
      ensures buses == old(buses)[oid := Bus(config, pin)]
    {
      buses := buses[oid := Bus(config, pin)];
    }

    /**
     * `command_spibus_write` with the corrected guard; `replies` are the
     * bytes the slave returns, in order.
     */
    method Write(oid: nat, cmd: u8, data: seq<u8>, replies: seq<u8>)
      requires oid in buses && |replies| > |data|
      modifies this`bus, this`responses
      ensures Fits(|data|) ==>
        bus == old(bus) + WriteOps(buses[oid], cmd, data) &&
        responses == old(responses) + [Response(oid, 0, replies[..|data| + 1])]
      ensures !Fits(|data|) ==> bus == old(bus) && responses == old(responses) + [Response(oid, 1, [])]
    {
      var b := buses[oid];
      var resp := new u8[RESP_SIZE];
      var status: u8 := 1;
      var iter := 0;
      if Fits(|data|) {
        bus := bus + [SetConfig(b.config), CsWrite(b.pin, false), Xfer(cmd, false)];
        resp[iter] := replies[0];
        iter := iter + 1;
        var k := 0;
        while k < |data|
          invariant 0 <= k <= |data| && iter == k + 1
          invariant resp[..iter] == replies[..iter] && responses == old(responses)
          invariant bus == old(bus) + [SetConfig(b.config), CsWrite(b.pin, false), Xfer(cmd, false)] + TransfersBelow(data, k)
        {
          resp[iter] := replies[iter];
          TransfersBelowStep(data, k);
          bus := bus + [Xfer(data[k], k == |data| - 1)];
          iter := iter + 1;
          k := k + 1;
        }
        TransfersBelowAll(data);
        bus := bus + [CsWrite(b.pin, true)];
        status := 0;
      }
      responses := responses + [Response(oid, status, resp[..iter])];
    }

    /** `command_spibus_read` of `len` bytes after the command byte, with the corrected guard. */
    method Read(oid: nat, cmd: u8, len: u16, replies: seq<u8>)
      requires oid in buses && |replies| > len as int
      modifies this`bus, this`responses
      ensures Fits(len as nat) ==>
        bus == old(bus) + ReadOps(buses[oid], cmd, len as nat) &&
        responses == old(responses) + [Response(oid, 0, replies[..len + 1])]
      ensures !Fits(len as nat) ==> bus == old(bus) && responses == old(responses) + [Response(oid, 1, [])]
    {
      var b := buses[oid];
      var resp := new u8[RESP_SIZE];
      var status: u8 := 1;
      var iter: nat := 0;
      if Fits(len as nat) {
        ghost var zeros := seq(len as nat, _ => 0 as u8);
        bus := bus + [SetConfig(b.config), CsWrite(b.pin, false), Xfer(cmd, false)];
        resp[0] := replies[0];
        iter := 1;
        while iter < len as nat
          invariant 1 <= iter <= len as nat
          invariant resp[..iter] == replies[..iter] && responses == old(responses)
          invariant bus == old(bus) + [SetConfig(b.config), CsWrite(b.pin, false), Xfer(cmd, false)] + TransfersBelow(zeros, iter - 1)
        {
          TransfersBelowStep(zeros, iter - 1);
          bus := bus + [Xfer(0, false)];
          resp[iter] := replies[iter];
          iter := iter + 1;
        }
        TransfersBelowStep(zeros, iter - 1);
        TransfersBelowAll(zeros);
        bus := bus + [Xfer(0, true), CsWrite(b.pin, true)];
        resp[iter] := replies[iter];
        assert resp[..iter + 1] == resp[..iter] + [resp[iter]];
        iter := iter + 1;
        status := 0;
        assert iter == len as nat + 1;
        assert resp[..iter] == replies[..len + 1];
      }
      responses := responses + [Response(oid, status, resp[..iter])];
    }

    /** `spibus_shutdown`: raises the chip select of every configured bus. */
    method Shutdown()
      modifies this`bus
      ensures bus == old(bus) + DeselectBelow(Pins(buses), 0x100)
    {
      var oid := 0;
      while oid < 0x100
        invariant 0 <= oid <= 0x100
        invariant bus == old(bus) + DeselectBelow(Pins(buses), oid)
      {
        if oid in buses {
          bus := bus + [CsWrite(buses[oid].pin, true)];
        }
        oid := oid + 1;
      }
    }
  }
}
