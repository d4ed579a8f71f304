/**
 * The LPC176x USB CDC-ACM console (src/lpc176x/serial_usb.c): 1024-byte
 * buffers over the shared console FIFO algorithm, the bulk endpoint
 * handlers that fill and drain them in packets of at most 64 bytes, and the
 * CDC class requests.  The USB stack itself (endpoint reads and writes,
 * descriptors, interrupt enables other than the bulk-in NAK interrupt) is
 * not part of this model.
 */
module LpcSerialUsb {
  import opened Ints
  import opened ConsoleFifo

  const SERIAL_BUFFER_SIZE: nat := 1024
  /** `MAX_PACKET_SIZE` of the bulk endpoints. */
  const MAX_PACKET_SIZE: nat := 64

  /** CDC class request codes (section 6.2 of the USB CDC 1.1 class definition). */
  const SET_LINE_CODING: u8 := 0x20
  const GET_LINE_CODING: u8 := 0x21
  const SET_CONTROL_LINE_STATE: u8 := 0x22

  /** The buffers; `console_sendf` enables the bulk-in NAK interrupt after compaction and after appending. */
  method Open() returns (rx: RxFifo, tx: TxFifo)
    ensures fresh(rx) && fresh(tx) && fresh(rx.buf) && fresh(tx.buf)
    ensures rx.Valid() && rx.size == SERIAL_BUFFER_SIZE && rx.Received() == []
    ensures tx.Valid() && tx.size == SERIAL_BUFFER_SIZE && tx.enablesTx && tx.Pending() == []
  {
    rx := new RxFifo(SERIAL_BUFFER_SIZE);
    tx := new TxFifo(SERIAL_BUFFER_SIZE, true);
  }

  /** `serial_init`: the three positions return to 0 (the USB stack set-up and the debug print are not modelled). */
  method SerialInit(rx: RxFifo, tx: TxFifo)
    requires rx.Valid() && tx.Valid()
    modifies rx`pos, tx`tpos, tx`tmax
    ensures rx.Valid() && tx.Valid() && rx.pos == 0 && tx.tpos == 0 && tx.tmax == 0
  {
    rx.Clear();
    tx.Clear();
  }

  /** `BulkOut` with `packet` the bytes the endpoint holds: refused whole when fewer than 64 bytes are free. */
  method BulkOut(rx: RxFifo, packet: seq<u8>) returns (accepted: bool)
    requires rx.Valid() && rx.size == SERIAL_BUFFER_SIZE && |packet| <= MAX_PACKET_SIZE
    modifies rx, rx.buf
    ensures rx.Valid()
    ensures accepted <==> old(rx.pos) + MAX_PACKET_SIZE <= SERIAL_BUFFER_SIZE
    ensures accepted ==> rx.Received() == old(rx.Received()) + packet && rx.woken == (old(rx.woken) || MESSAGE_SYNC in packet)
    ensures !accepted ==> rx.Received() == old(rx.Received()) && rx.woken == old(rx.woken)
  {
    accepted := rx.ReceivePacket(packet, MAX_PACKET_SIZE);
  }

  /** `BulkIn`: the next `min(64, pending)` bytes are written to the endpoint, or the NAK interrupt is disabled. */
  method BulkIn(tx: TxFifo) returns (sent: seq<u8>)
    requires tx.Valid()
    modifies tx`tpos, tx`txIrq
    ensures tx.Valid() && tx.tmax == old(tx.tmax)
    ensures old(tx.Pending()) == sent + tx.Pending()
    ensures |sent| == if |old(tx.Pending())| < MAX_PACKET_SIZE then |old(tx.Pending())| else MAX_PACKET_SIZE
    ensures |old(tx.Pending())| == 0 ==> !tx.txIrq
  {
    sent := tx.Transmit(MAX_PACKET_SIZE);
  }

  /** The answer of `HandleClassRequest`: whether it was handled, the data-stage length and the data-stage bytes. */
  datatype ClassReply = ClassReply(handled: bool, len: int, data: seq<u8>)

  /** The four little-endian bytes of a `U32`. */
  function Le32(v: u32): (b: seq<u8>)
    ensures |b| == 4
  {
    [ToU8(v as int), ToU8(v as int / 0x100), ToU8(v as int / 0x1_0000), ToU8(v as int / 0x100_0000)]
  }

  /** The 7-byte `TLineCoding` record: rate, stop bits, parity, data bits. */
  class UsbCdc {
    var lineCoding: seq<u8>

    ghost predicate Valid()
      reads this
    {
      |lineCoding| == 7
    }

    /** The initial line coding `{CONFIG_SERIAL_BAUD, 0, 0, 8}`. */
    constructor (baud: u32)
      ensures Valid() && lineCoding == Le32(baud) + [0, 0, 8]
    {
      lineCoding := Le32(baud) + [0, 0, 8];
    }

    /**
     * `HandleClassRequest` for `request`, with `len` and `data` the length
     * and data-stage buffer the stack passes in: SET_LINE_CODING copies 7
     * bytes in, GET_LINE_CODING answers with the record and length 7,
     * SET_CONTROL_LINE_STATE is accepted with no effect, and anything else is
     * refused.
     */
    method HandleClassRequest(request: u8, len: int, data: seq<u8>) returns (r: ClassReply)
      requires Valid() && |data| >= 7
      modifies this
      ensures Valid()
      ensures r.handled <==> request in {SET_LINE_CODING, GET_LINE_CODING, SET_CONTROL_LINE_STATE}
      ensures request == SET_LINE_CODING ==> lineCoding == data[..7] && r == ClassReply(true, 7, data)
      ensures request == GET_LINE_CODING ==> lineCoding == old(lineCoding) && r == ClassReply(true, 7, lineCoding)
      ensures request != SET_LINE_CODING && request != GET_LINE_CODING ==>
        lineCoding == old(lineCoding) && r.len == len && r.data == data
    {
      if request == SET_LINE_CODING {
        var i := 0;
        while i < 7
          invariant 0 <= i <= 7 && |lineCoding| == 7
          invariant lineCoding[..i] == data[..i]
        {
          lineCoding := lineCoding[i := data[i]];
          assert lineCoding[..i + 1] == lineCoding[..i] + [data[i]];
          i := i + 1;
        }
        return ClassReply(true, 7, data);
      } else if request == GET_LINE_CODING {
        return ClassReply(true, 7, lineCoding);
      } else if request == SET_CONTROL_LINE_STATE {
        return ClassReply(true, len, data);
      }
      return ClassReply(false, len, data);
    }
  }
}
