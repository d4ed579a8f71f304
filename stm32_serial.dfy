/**
 * The STM32F1 console over the libmaple USB CDC-ACM stack
 * (src/stm32f1xx/serial.c): a 96-byte receive buffer over the shared console
 * FIFO algorithm, filled by a receive hook, and a `console_sendf` that hands
 * each message straight to the stack.
 */
module Stm32Serial {
  import opened Ints
  import opened ConsoleFifo

  const SERIAL_BUFFER_SIZE: nat := 96

  method OpenReceive() returns (rx: RxFifo)
    ensures fresh(rx) && fresh(rx.buf) && rx.Valid() && rx.size == SERIAL_BUFFER_SIZE && rx.Received() == []
  {
    rx := new RxFifo(SERIAL_BUFFER_SIZE);
  }

  /**
   * `rx_hook` with `available` the bytes the stack holds: the `return` inside
   * the `while` means at most one byte is taken per call.  `taken` is how
   * many bytes were read from the stack.
   */
  method RxHook(rx: RxFifo, available: seq<u8>) returns (taken: nat)
    requires rx.Valid()
    modifies rx, rx.buf
    ensures rx.Valid()
    ensures taken == if |available| == 0 then 0 else 1
    ensures |available| > 0 && old(rx.pos) < rx.size ==> rx.Received() == old(rx.Received()) + [available[0]]
    ensures |available| == 0 || old(rx.pos) >= rx.size ==> rx.Received() == old(rx.Received())
    ensures rx.woken == (old(rx.woken) || (|available| > 0 && available[0] == MESSAGE_SYNC))
  {
    if |available| == 0 {
      return 0;
    }
    rx.ReceiveByte(available[0]);
    return 1;
  }

  /** The transmit side: `transmit_buf` and the messages handed to `usb_cdcacm_tx`. */
  class CdcTransmit {
    const buf: array<u8>
    var sent: seq<seq<u8>>

    constructor ()
      ensures buf.Length == SERIAL_BUFFER_SIZE && sent == [] && fresh(buf)
    {
      buf := new u8[SERIAL_BUFFER_SIZE];
      sent := [];
    }

    /** `console_sendf`: the message is encoded at offset 0 and exactly its `msglen` bytes are handed over. */
    method Sendf(msg: seq<u8>)
      requires buf.Length == SERIAL_BUFFER_SIZE && |msg| <= SERIAL_BUFFER_SIZE
      modifies this`sent, buf
      ensures buf[..|msg|] == msg && buf[|msg|..] == old(buf[|msg|..])
      ensures sent == old(sent) + [msg]
    {
      var k := 0;
      while k < |msg|
        invariant 0 <= k <= |msg|
        invariant buf[..k] == msg[..k] && buf[|msg|..] == old(buf[|msg|..]) && sent == old(sent)
      {
        buf[k] := msg[k];
        assert buf[..k + 1] == buf[..k] + [msg[k]];
        k := k + 1;
      }
      sent := sent + [buf[..|msg|]];
    }
  }
}
