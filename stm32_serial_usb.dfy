/**
 * The STM32F1 USB console stub (src/stm32f1xx/serial_usb.c): 1024-byte
 * buffers over the shared console FIFO algorithm.  Its `console_sendf` has
 * the interrupt enables commented out, and nothing in the file fills the
 * receive buffer or drains the transmit buffer.
 */
module Stm32SerialUsb {
  import opened ConsoleFifo

  const SERIAL_BUFFER_SIZE: nat := 1024

  method Open() returns (rx: RxFifo, tx: TxFifo)
    ensures fresh(rx) && fresh(tx) && fresh(rx.buf) && fresh(tx.buf)
    ensures rx.Valid() && rx.size == SERIAL_BUFFER_SIZE && rx.Received() == []
    ensures tx.Valid() && tx.size == SERIAL_BUFFER_SIZE && !tx.enablesTx && tx.Pending() == []
  {
    rx := new RxFifo(SERIAL_BUFFER_SIZE);
    tx := new TxFifo(SERIAL_BUFFER_SIZE, false);
  }

  /** `serial_init`: all three positions return to 0. */
  method SerialInit(rx: RxFifo, tx: TxFifo)
    requires rx.Valid() && tx.Valid()
    modifies rx`pos, tx`tpos, tx`tmax
    ensures rx.Valid() && tx.Valid() && rx.pos == 0 && tx.tpos == 0 && tx.tmax == 0
  {
    rx.Clear();
    tx.Clear();
  }
}
