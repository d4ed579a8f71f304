/**
 * The SAM3X8E UART console (src/sam3x8e/serial.c): 96-byte buffers with
 * 32-bit positions over the shared console FIFO algorithm, and one interrupt
 * handler serving both directions.
 */
module Sam3x8eSerial {
  import opened Ints
  import opened ConsoleFifo

  const SERIAL_BUFFER_SIZE: nat := 96

  /** The buffers at reset; `console_sendf` enables the TXRDY interrupt. */
  method Open() returns (rx: RxFifo, tx: TxFifo)
    ensures fresh(rx) && fresh(tx) && fresh(rx.buf) && fresh(tx.buf)
    ensures rx.Valid() && rx.size == SERIAL_BUFFER_SIZE && rx.Received() == []
    ensures tx.Valid() && tx.size == SERIAL_BUFFER_SIZE && tx.enablesTx && tx.Pending() == []
  {
    rx := new RxFifo(SERIAL_BUFFER_SIZE);
    tx := new TxFifo(SERIAL_BUFFER_SIZE, true);
  }

  /**
   * `UART_Handler` for a status with RXRDY (`data` waiting in RHR) and/or
   * TXRDY set: the received byte is appended while there is room, then one
   * pending byte is sent or the TXRDY interrupt disabled.
   */
  method Handler(rx: RxFifo, tx: TxFifo, rxrdy: bool, txrdy: bool, data: u8) returns (sent: seq<u8>)
    requires rx.Valid() && tx.Valid() && rx.buf != tx.buf
    modifies rx, rx.buf, tx`tpos, tx`txIrq
    ensures rx.Valid() && tx.Valid() && tx.tmax == old(tx.tmax)
    ensures rxrdy && old(rx.pos) < rx.size ==> rx.Received() == old(rx.Received()) + [data]
    ensures !(rxrdy && old(rx.pos) < rx.size) ==> rx.Received() == old(rx.Received())
    ensures rx.woken == (old(rx.woken) || (rxrdy && data == MESSAGE_SYNC))
    ensures !txrdy ==> sent == [] && tx.tpos == old(tx.tpos) && tx.txIrq == old(tx.txIrq)
    ensures txrdy && |old(tx.Pending())| > 0 ==> |sent| == 1 && old(tx.Pending()) == sent + tx.Pending()
    ensures txrdy && |old(tx.Pending())| == 0 ==> sent == [] && !tx.txIrq
  {
    if rxrdy {
      rx.ReceiveByte(data);
    }
    sent := [];
    if txrdy {
      sent := tx.Transmit(1);
    }
  }
}
