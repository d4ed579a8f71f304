/**
 * The console byte FIFOs of the serial drivers.  src/avr/serial.c,
 * src/sam3x8e/serial.c, src/lpc176x/serial_usb.c and
 * src/stm32f1xx/serial_usb.c share one algorithm over a receive buffer with
 * a fill position and a transmit buffer with a send position and an end
 * position; they differ in the buffer sizes and in whether `console_sendf`
 * enables the transmit interrupt.  Each interrupt handler and each task step
 * is one atomic step here: the retry loop of `console_pop_input`, which
 * exists because the receive interrupt may append while the task copies, is
 * not modelled.
 */
module ConsoleFifo {
  import opened Ints
  import opened Wrappers

  /** `MESSAGE_SYNC`, the byte that ends every protocol block. */
  const MESSAGE_SYNC: u8 := 0x7E

  /** The receive side: `receive_buf` and `receive_pos`, and whether the scheduler was woken. */
  class RxFifo {
    const size: nat
    const buf: array<u8>
    var pos: nat
    var woken: bool

    ghost predicate Valid()
      reads this
    {
      buf.Length == size && pos <= size
    }

    /** The bytes received and not yet consumed. */
    function Received(): seq<u8>
      reads this, buf
      requires Valid()
    {
      buf[..pos]
    }

    constructor (size: nat)
      ensures Valid() && this.size == size && pos == 0 && !woken && fresh(buf)
    {
      this.size := size;
      buf := new u8[size];
      pos := 0;
      woken := false;
    }

    /** `serial_init` of the USB drivers: the receive position is reset. */
    method Clear()
      requires Valid()
      modifies this`pos
      ensures Valid() && Received() == []
    {
      pos := 0;
    }

    /**
     * One received byte (the receive interrupt): appended while there is
     * room and silently dropped otherwise; a sync byte wakes the tasks
     * either way.
     */
    method ReceiveByte(data: u8)
      requires Valid()
      modifies this, buf
      ensures Valid()
      ensures old(pos) < size ==> Received() == old(Received()) + [data]
      ensures old(pos) >= size ==> Received() == old(Received())
      ensures woken == (old(woken) || data == MESSAGE_SYNC)
    {
      if data == MESSAGE_SYNC {
        woken := true;
      }
      if pos >= size {
        return;
      }
      buf[pos] := data;
      pos := pos + 1;
    }

    /**
     * `BulkOut`: a USB packet of at most `maxPacket` bytes is refused whole
     * when fewer than `maxPacket` bytes are free, otherwise appended in
     * order.  Sync bytes wake the tasks.
     */
    method ReceivePacket(packet: seq<u8>, maxPacket: nat) returns (accepted: bool)
      requires Valid() && |packet| <= maxPacket
      modifies this, buf
      ensures Valid()
      ensures accepted <==> size - old(pos) >= maxPacket
      ensures accepted ==> Received() == old(Received()) + packet && woken == (old(woken) || MESSAGE_SYNC in packet)
      ensures !accepted ==> Received() == old(Received()) && woken == old(woken)
    {
      if size - pos < maxPacket {
        return false;
      }
      var i := 0;
      while i < |packet| && pos < size
        invariant 0 <= i <= |packet| && pos == old(pos) + i && Valid()
        invariant buf[..pos] == old(buf[..pos]) + packet[..i]
        invariant woken == (old(woken) || MESSAGE_SYNC in packet[..i])
      {
        if packet[i] == MESSAGE_SYNC {
          woken := true;
        }
        buf[pos] := packet[i];
        assert packet[..i + 1] == packet[..i] + [packet[i]];
        i := i + 1;
        pos := pos + 1;
      }
      assert packet[..i] == packet;
      return true;
    }

    /**
     * `console_pop_input(len)`: the unconsumed tail moves to the front, so
     * exactly the first `len` bytes are gone.  The caller (the framing code)
     * never pops more than was received.
     */
    method PopInput(len: nat)
      requires Valid() && len <= pos
      modifies this, buf
      ensures Valid()
      ensures Received() == old(Received())[len..]
      ensures woken == (old(woken) || old(pos) > len)
    {
      var needcopy := pos - len;
      ghost var b := buf[..pos];
      if needcopy > 0 {
        var i := 0;
        while i < needcopy
          invariant 0 <= i <= needcopy && Valid() && pos == old(pos)
          invariant forall j | 0 <= j < i :: buf[j] == b[j + len]
          invariant forall j | i <= j < pos :: buf[j] == b[j]
          invariant woken == old(woken)
        {
          buf[i] := buf[i + len];
          i := i + 1;
        }
        assert buf[..needcopy] == b[len..];
        woken := true;
      }
      pos := needcopy;
    }

    /**
     * `console_task` given what the framing code (`command_find_block`)
     * answered: a positive result dispatches the first `popCount` bytes as a
     * block, and any nonzero result pops them.
     */
    method Task(ret: int, popCount: nat) returns (dispatched: Option<seq<u8>>)
      requires Valid() && (ret != 0 ==> popCount <= pos)
      modifies this, buf
      ensures Valid()
      ensures dispatched.Some? <==> ret > 0
      ensures ret > 0 ==> dispatched.value == old(Received())[..popCount]
      ensures ret != 0 ==> Received() == old(Received())[popCount..]
      ensures ret == 0 ==> Received() == old(Received()) && woken == old(woken)
    {
      dispatched := None;
      if ret > 0 {
        dispatched := Some(buf[..popCount]);
      }
      if ret != 0 {
        PopInput(popCount);
      }
    }
  }

  /** Whether `console_sendf` accepts a message of `maxSize` bytes at most: the pending bytes and the message fit. */
  predicate SendFits(tpos: nat, tmax: nat, maxSize: nat, size: nat)
  {
    (if tpos >= tmax then 0 else tmax - tpos) + maxSize <= size
  }

  /**
   * The transmit side: `transmit_buf`, `transmit_pos` (next byte to send)
   * and `transmit_max` (end of the pending bytes), and whether the transmit
   * interrupt is enabled.
   */
  class TxFifo {
    const size: nat
    /** Whether `console_sendf` enables the transmit interrupt after queueing. */
    const enablesTx: bool
    const buf: array<u8>
    var tpos: nat
    var tmax: nat
    var txIrq: bool

    ghost predicate Valid()
      reads this
    {
      buf.Length == size && tpos <= tmax <= size
    }

    /** The bytes queued and not yet sent. */
    function Pending(): seq<u8>
      reads this, buf
      requires Valid()
    {
      buf[tpos..tmax]
    }

    constructor (size: nat, enablesTx: bool)
      ensures Valid() && this.size == size && this.enablesTx == enablesTx
      ensures tpos == 0 && tmax == 0 && !txIrq && fresh(buf)
    {
      this.size, this.enablesTx := size, enablesTx;
      buf := new u8[size];
      tpos, tmax, txIrq := 0, 0, false;
    }

    /** `serial_init` of the USB drivers: both positions are reset. */
    method Clear()
      requires Valid()
      modifies this`tpos, this`tmax
      ensures Valid() && tpos == 0 && tmax == 0
    {
      tpos, tmax := 0, 0;
    }

    /**
     * The transmit interrupt (`limit` 1 for a UART, the packet size for USB
     * `BulkIn`): sends up to `limit` pending bytes from `transmit_pos` on, or
     * disables the interrupt when nothing is pending.
     */
    method Transmit(limit: nat) returns (sent: seq<u8>)
      requires Valid() && limit >= 1
      modifies this`tpos, this`txIrq
      ensures Valid() && tmax == old(tmax)
      ensures old(Pending()) == sent + Pending()
      ensures |sent| == if |old(Pending())| < limit then |old(Pending())| else limit
      ensures |old(Pending())| == 0 ==> !txIrq
      ensures |old(Pending())| > 0 ==> txIrq == old(txIrq)
    {
      if tpos >= tmax {
        txIrq := false;
        return [];
      }
      var n := if tmax - tpos < limit then tmax - tpos else limit;
      sent := buf[tpos..tpos + n];
      tpos := tpos + n;
    }

    /** The `memmove` of `console_sendf`: the pending bytes move to the front. */
    method Compact()
      requires Valid()
      modifies this`tpos, this`tmax, buf
      ensures Valid() && tpos == 0 && tmax == old(tmax) - old(tpos)
      ensures Pending() == old(Pending())
    {
      var n := tmax - tpos;
      ghost var b := buf[..];
      var i := 0;
      while i < n
        invariant 0 <= i <= n && tmax == n + tpos && tpos == old(tpos) && tmax == old(tmax)
        invariant forall j | 0 <= j < i :: buf[j] == b[j + tpos]
        invariant forall j | i <= j < buf.Length :: buf[j] == b[j]
      {
        buf[i] := buf[i + tpos];
        i := i + 1;
      }
      assert buf[..n] == b[tpos..tmax];
      tpos, tmax := 0, n;
    }

    /** The message written at `transmit_max`, which then moves past it. */
    method Append(msg: seq<u8>)
      requires Valid() && tmax + |msg| <= size
      modifies this`tmax, buf
      ensures Valid() && tmax == old(tmax) + |msg|
      ensures Pending() == old(Pending()) + msg
    {
      ghost var before := buf[tpos..tmax];
      var k := 0;
      while k < |msg|
        invariant 0 <= k <= |msg| && tmax == old(tmax)
        invariant buf[tpos..tmax] == before
        invariant buf[tmax..tmax + k] == msg[..k]
      {
        buf[tmax + k] := msg[k];
        assert buf[tmax..tmax + k + 1] == buf[tmax..tmax + k] + [msg[k]];
        k := k + 1;
      }
      assert buf[tpos..tmax + |msg|] == buf[tpos..tmax] + buf[tmax..tmax + |msg|];
      tmax := tmax + |msg|;
    }

    /**
     * `console_sendf` of a message `msg` whose encoder announces at most
     * `maxSize` bytes.  A drained buffer is reset to empty first; a message
     * that does not fit beside the pending bytes is dropped; a message that
     * does not fit after them at the current end makes the pending bytes
     * move to the front; then the message is appended.
     */
    method Sendf(maxSize: nat, msg: seq<u8>) returns (accepted: bool)
      requires Valid() && |msg| <= maxSize
      modifies this, buf
      ensures Valid()
      ensures accepted <==> SendFits(old(tpos), old(tmax), maxSize, size)
      ensures accepted ==> Pending() == old(Pending()) + msg && txIrq == (old(txIrq) || enablesTx)
      ensures !accepted ==> Pending() == old(Pending()) && txIrq == old(txIrq)
      ensures accepted && old(tmax) + maxSize > size ==> tpos == 0
      ensures accepted && old(tpos) < old(tmax) && old(tmax) + maxSize <= size ==> tpos == old(tpos)
    {
      if tpos >= tmax {
        tpos, tmax := 0, 0;
      }
      if tmax + maxSize > size {
        if tmax + maxSize - tpos > size {
          return false;
        }
        Compact();
        if enablesTx {
          txIrq := true;
        }
      }
      Append(msg);
      if enablesTx {
        txIrq := true;
      }
      return true;
    }
  }
}
