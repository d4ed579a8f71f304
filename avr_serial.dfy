/**
 * The AVR USART console (src/avr/serial.c): a 192-byte receive buffer and a
 * 96-byte transmit buffer with 8-bit positions (every position fits in 8
 * bits, so no wrap-around occurs), over the shared console FIFO algorithm.
 */
module AvrSerial {
  import opened Ints
  import opened ConsoleFifo

  const RECEIVE_SIZE: nat := 192
  const TRANSMIT_SIZE: nat := 96

  /** The buffers at reset; `console_sendf` enables UDRIE. */
  method Open() returns (rx: RxFifo, tx: TxFifo)
    ensures fresh(rx) && fresh(tx) && fresh(rx.buf) && fresh(tx.buf)
    ensures rx.Valid() && rx.size == RECEIVE_SIZE && rx.Received() == []
    ensures tx.Valid() && tx.size == TRANSMIT_SIZE && tx.enablesTx && tx.Pending() == []
  {
    rx := new RxFifo(RECEIVE_SIZE);
    tx := new TxFifo(TRANSMIT_SIZE, true);
  }

  /** The data-register-empty interrupt: one pending byte goes to UDR0, or UDRIE is cleared once drained. */
  method TxIsr(tx: TxFifo) returns (sent: seq<u8>)
    requires tx.Valid() && tx.size == TRANSMIT_SIZE
    modifies tx`tpos, tx`txIrq
    ensures tx.Valid() && tx.tmax == old(tx.tmax)
    ensures |old(tx.Pending())| > 0 ==> |sent| == 1 && old(tx.Pending()) == sent + tx.Pending()
    ensures |old(tx.Pending())| == 0 ==> sent == [] && !tx.txIrq
  {
    sent := tx.Transmit(1);
  }
}
