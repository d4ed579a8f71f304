# A verified model of the Klipper firmware core

Klipper drives 3D printers from two halves. A host program, klippy, written in
Python, reads the printer configuration, parses G-code and plans the work. A small
C firmware on each micro-controller runs timers, samples the analog inputs,
talks SPI to sensors and drivers, and moves bytes over the serial link. This
project models, in Dafny, the integer and string logic at the core of both
halves and proves properties of that model:

- **Firmware analog inputs** (`adccmds.dfy`). One state machine per channel counts
  the reads of a sampling window, accumulates them into a 16-bit value, checks the
  inclusive range and reschedules. The reporting task claims completed windows.
- **ADC backends of three boards.** Each is built around one "who is converting"
  marker: AVR in `avr_gpio.dfy`, LPC176x in `lpc_adc.dfy`, STM32F1 in
  `stm32_adc.dfy`. The marker logic they share is stated once in `adc_marker.dfy`.
- **The LPC176x pin encoding** (`lpc_gpio.dfy`).
- **The SPI thermocouple reader** (`thermocouple.dfy`), the SPI bus commands
  (`spibus.dfy`) and the byte traffic on the bus (`spi_trace.dfy`).
- **The serial console FIFOs** of five platform drivers. They share one algorithm,
  stated in `console_fifo.dfy`, and each platform adds its own parts:
  `avr_serial.dfy`, `sam3x8e_serial.dfy`, `lpc_serial_usb.dfy`,
  `stm32_serial_usb.dfy` and `stm32_serial.dfy`.
- **The LPC176x debug UART** (`lpc_serial_uart.dfy`): baud-rate divisors, number
  formatting and a small `printf` interpreter.
- **SPI configuration words** for AVR (in `avr_gpio.dfy`), LPC176x, STM32F1 and
  SAM3X8E: `lpc_spi.dfy`, `stm32_spi.dfy` and `sam3x8e_spi.dfy`.
- **The LPC176x memory pool and heap break**: `mempool.dfy` and `custom_start.dfy`.
- **Host side:**
  - the TMC2130 register shadows and 40-bit SPI frames (`tmc2130.dfy`);
  - the G-code line parser and handler tables (`gcode.dfy`);
  - the typed config getters and printer shutdown state (`klippy.dfy`);
  - stepper enable and endstop-phase tracking (`stepper.dfy`);
  - the sensor fault decoding and configuration bytes (`heater.dfy`);
  - the stepper-driver factory (`drivers.dfy`);
  - the statistics-log parser (`graphstats.dfy`).
- **Shared helpers:** `wrappers.dfy` (Option and Result), `ints.dfy` (fixed-width
  integers) and `text.dfy` (the Python string methods used: `strip`, `upper`, `lower`,
  `split`, `find`, `int`).

How the model is built:

- **Code that updates state in place is modelled as classes.** This covers the
  static buffers and positions of the serial drivers, the converter markers, the
  channel table of the analog engine, the TMC2130 shadows, the G-code parser and
  the printer. Methods state the new state outright. Where the relation is more
  than one step, they state it through a specification function about which
  lemmas are proved.
- **Pure computations are functions with lemmas.** This covers the fault
  decoding, the config bytes, the driver lookup and the bound checks.
- **Fixed-width C arithmetic is written out.** `uint8_t`, `uint16_t` and
  `uint32_t` wrap-around, and truncating casts, are explicit.
- **Boundaries become data.** Calls into hardware or code not modelled become
  inputs, or a log of calls made.

## Model

| member | source | states |
|---|---|---|
| AdcCmds.Configured | src/adccmds.c:66-78 | a configured channel has `state` 1, `sample_count` 0 and the given pin, so it is not ready for the task |
| AdcCmds.Accumulate | src/adccmds.c:40-48 | when `state >= sample_count` a read starts a new window with value = reading and state 1; otherwise the reading is added modulo 2^16 and state advances by one; nothing else changes |
| AdcCmds.EventStep | src/adccmds.c:31-64 | a nonzero sample delay only moves the wake time on (mod 2^32); a read reschedules by `sample_time` mid-window; a finished window is out of range exactly when its value is outside [min,max], else it moves `next_begin_time` on by `rest_time` and wakes at it |
| AdcCmds.QueryStep | src/adccmds.c:81-100 | the query installs clock, ticks and limits truncated to their C widths, sets `state = sample_count + 1` mod 256, keeps value and pin, and arms the timer exactly when `sample_count` is nonzero |
| AdcCmds.Claim | src/adccmds.c:113-122 | a ready channel (`state == sample_count`) has its state bumped mod 256, any other is left alone, and the result is never ready again |
| AdcCmds.ClaimBelow | src/adccmds.c:112-126 | after visiting oids below n, exactly those channels are claimed and the key set is unchanged |
| AdcCmds.ClaimBelowStep | src/adccmds.c:112-126 | visiting one more oid claims exactly that channel, or nothing if it is not configured |
| AdcCmds.ReportOf | src/adccmds.c:113-125 | one pass of the task's loop sends one report exactly when the channel's window is complete, carrying its oid, `next_begin_time` and value, and none otherwise |
| AdcCmds.ReportsBelow | src/adccmds.c:112-126 | the reports for the oids below `n` come only from ready channels, each with that channel's time and value, in strictly ascending oid order and at most one per oid |
| AdcCmds.ReportsEveryReady | src/adccmds.c:112-126 | every ready channel below `n` is reported |
| AdcCmds.EventCalls | src/adccmds.c:35-40 | the event calls `gpio_adc_sample` first, and calls `gpio_adc_read` only when the sample returned 0 |
| AdcCmds.ReadsFollowAppend | src/adccmds.c:35-40 | appending one event's calls to a log keeps "every read directly follows a sample that returned 0" |
| AdcCmds.AnalogInputs.ConfigAnalogIn | src/adccmds.c:66-78 | the channel becomes `Configured(pin)` and nothing else changes |
| AdcCmds.AnalogInputs.QueryAnalogIn | src/adccmds.c:81-100 | the pending sample is cancelled, the fields of `QueryStep` installed, and the timer armed, or the firmware shut down with "ADC sample_count error!" |
| AdcCmds.AnalogInputs.TimerEvent | src/adccmds.c:31-64 | the channel becomes `EventStep`'s result, the backend calls are logged, an out-of-range window disarms and shuts down, and a finished window wakes the task |
| AdcCmds.AnalogInputs.Task | src/adccmds.c:105-127 | when woken, every ready channel in ascending oid order is reported with its `next_begin_time` and value and is claimed; the wake flag is cleared |
| AdcCmds.AnalogInputs.TaskVisit | src/adccmds.c:113-125 | one loop pass claims and reports channel `oid` only |
| AdcCmds.AnalogInputs.ShutdownHandler | src/adccmds.c:130-150 | one cancel per configured channel, in oid order, and no other state changes |
| AdcCmds.NoReadsInCancels | src/adccmds.c:135-136 | the shutdown handler's calls are all cancels, so the read-after-ready-sample invariant survives it |
| AdcCmds.RestOfWindow | src/adccmds.c:40-52 | mid-window, the remaining reads (with any number of retries) are added mod 2^16 and the window completes exactly at its last read |
| AdcCmds.WindowSum | src/adccmds.c:40-52 | from a finished or not-yet-started window, exactly `sample_count` reads make a ready window whose value is their sum mod 2^16 |
| AdcCmds.UnclaimedWindowOverwritten | src/adccmds.c:42-47 | a ready window that the task has not claimed is replaced by the next reading |
| AdcCmds.QueryWrapsAt255 | src/adccmds.c:90-91 | with `sample_count` 255 the sentinel wraps to 0, and the first read adds to the stale value |
| AdcCmds.ClaimWrapsAt255 | src/adccmds.c:122 | claiming a 255-read window wraps `state` to 0, and the next window adds to the claimed value |
| AdcCmds.StaleValueExample | src/adccmds.c:122 | a concrete channel whose next window starts at 1 instead of 0 |
| AdcCmds.QueryChecked | src/adccmds.c:90-98 | corrected query: it arms exactly when 1 <= `sample_count` <= 254, so `state == sample_count + 1` holds without wrapping |
| AdcCmds.CheckedWindowsReseed | src/adccmds.c:40-52 | with the corrected query every window is the sum of its readings, and claiming it leaves a fresh channel |
| AdcCmds.QueryCheckedIsFresh | src/adccmds.c:90-98 | an accepted corrected query leaves the channel fresh |
| AdcCmds.AnalogInputs.constructor | src/adccmds.c:21-29 | before any command no channel is configured, no timer is armed, the wake flag is clear and nothing has been reported or shut down |
| AdcMarker.Sample | src/lpc176x/adc.c:140-171 | a free marker (0) starts a conversion and claims the converter for the channel; the sample is ready only when the marker is the channel itself, nonzero, and the done flag is set |
| AdcMarker.ChannelZeroNeverReady | src/lpc176x/adc.c:149-165 | as written, over any sequence of samples and cancels, channel 0 never gets a ready sample |
| AdcMarker.ChannelZeroDoesNotBlock | src/stm32f1xx/adc.c:126-131 | as written, a conversion started for channel 0 leaves the marker "free", so the next sample of any channel starts its own conversion over it |
| AdcMarker.SampleFixed | src/stm32f1xx/adc.c:123-143 | corrected marker, with "free" kept apart from every channel number: a free marker is claimed; only the owner is ready, and only when done |
| AdcMarker.FixedOwnerKeepsConverter | src/stm32f1xx/adc.c:133-140 | with the corrected marker, samples of other channels leave the owner's claim in place, and the owner's next done sample is ready, channel 0 included |
| AdcMarker.FixedOthersKeep | src/stm32f1xx/adc.c:133-135 | samples of other channels never change a claimed marker |
| AdcMarker.FixedReadyOnlyOwner | src/stm32f1xx/adc.c:133-140 | with the corrected marker, two channels cannot both be ready on the same marker |
| LpcAdc.GdrResult | src/lpc176x/adc.c:181 | the result field is bits 4..15 of the data register, so the reading is below 4096 (`ADC_MAX` 4095) |
| LpcAdc.LpcAdcUnit.Setup | src/lpc176x/adc.c:112-135 | the channel is the first index of the (port, pin) pair in the eight-entry pin table, or the shutdown "Not a valid ADC pin" when it is absent |
| LpcAdc.LpcAdcUnit.Sample | src/lpc176x/adc.c:140-171 | returns 0 exactly when the shared marker says ready, and 500 otherwise; a free marker starts a conversion on the channel |
| LpcAdc.LpcAdcUnit.Read | src/lpc176x/adc.c:174-183 | the read cancels (frees the marker) and returns the 12-bit result of the channel's data register |
| LpcAdc.LpcAdcUnit.Cancel | src/lpc176x/adc.c:186-200 | the marker is freed, whoever owns it |
| Stm32Adc.Stm32AdcUnit.Delay | src/stm32f1xx/adc.c:141-142 | the retry delay is `CONFIG_CLOCK_FREQ / 12000000`, rounded down |
| Stm32Adc.Stm32AdcUnit.Setup | src/stm32f1xx/adc.c:101-118 | the channel is the first index of (port, pin) in the ten-entry pin table, or the shutdown "Not a valid ADC pin" |
| Stm32Adc.Stm32AdcUnit.Sample | src/stm32f1xx/adc.c:123-143 | a ready sample returns 0 and every other path returns `Delay()`; a free marker writes the channel into SQR3 and starts a conversion |
| Stm32Adc.Stm32AdcUnit.Read | src/stm32f1xx/adc.c:146-151 | the read frees the marker and returns DR & 0xFFFF |
| Stm32Adc.Stm32AdcUnit.Cancel | src/stm32f1xx/adc.c:154-158 | the marker is freed |
| LpcAdc.LpcAdcUnit.constructor | src/lpc176x/adc.c:65-66 | at start `CFG_CURRENT` is 0, so no channel is converting and none has been started |
| Stm32Adc.Stm32AdcUnit.constructor | src/stm32f1xx/adc.c:75-76 | at start `CFG_CHAN` is 0, so no channel is converting and none has been started |
| AvrGpio.Sample | src/avr/gpio.c:306-332 | the sample is ready (0) exactly when ADSC is clear and the caller owns the marker; otherwise it returns (13+1)*128+200; a conversion starts only from the free marker `ADC_DUMMY`, which then names the channel |
| AvrGpio.Cancel | src/avr/gpio.c:348-353 | the marker is freed only by its owner; any other channel leaves it unchanged |
| AvrGpio.SampleKeepsOtherClaim | src/avr/gpio.c:312-317 | a sample on another channel neither takes nor frees an owned marker, and waits |
| AvrGpio.CancelIdempotent | src/avr/gpio.c:348-353 | cancelling twice is cancelling once; a non-owner's cancel changes nothing |
| AvrGpio.OwnerKeepsConverter | src/avr/gpio.c:306-332 | after a channel starts a conversion, no other channel's sample takes the marker or reports ready, and the owner's next idle sample is ready |
| AvrGpio.PwmClockSelect | src/avr/gpio.c:187-208 | the clock select is 1..7 with GP_AFMT and 1..5 without; it is 1 exactly below 8*510 ticks and the largest value exactly from 1024*510 ticks |
| AvrGpio.PwmClockSelectMonotone | src/avr/gpio.c:187-208 | a longer cycle time never selects a faster clock |
| AvrGpio.IndexOf | src/avr/gpio.c:179-185 | the table scan finds the first index holding the pin, and fails exactly when the pin is absent |
| AvrGpio.IndexOfFirst | src/avr/gpio.c:279-284 | a position holding the pin with no earlier occurrence is the one the scan returns |
| AvrGpio.AvrBoard.AdcSetup | src/avr/gpio.c:274-298 | the channel is the pin's first index in `adc_pins`, or the shutdown "Not a valid ADC pin"; the pin's digital input is disabled in DIDR2 for channels 8 and up (when DIDR2 exists) and in DIDR0 otherwise |
| AvrGpio.AvrBoard.AdcSample | src/avr/gpio.c:306-332 | the delay and the new marker are those of `Sample`; a started conversion selects the channel in ADMUX, and a ready sample always has the channel selected |
| AvrGpio.AvrBoard.AdcRead | src/avr/gpio.c:335-345 | the read frees the marker and returns the ADC data register |
| AvrGpio.AvrBoard.AdcCancel | src/avr/gpio.c:348-353 | the marker becomes `Cancel` of the old marker |
| AvrGpio.AvrBoard.PwmSetup | src/avr/gpio.c:175-232 | an absent pin, timer1, or a timer already running at another clock select each shut down with their message and leave TCCRnB alone; otherwise TCCRnB is set to `PwmClockSelect` and the handle records the 8-bit flag |
| AvrGpio.ClockDiv | src/avr/gpio.c:400-418 | the divider index is the first k in 0..5 with `clock >= F / 2^k`, else 6 |
| AvrGpio.GetConfig | src/avr/gpio.c:399-459 | writing what `spi_get_config` packed enables SPI in master mode with the mode's CPOL/CPHA bits and an SCK divisor 2^(k+1), so SCK never exceeds the requested clock unless even the slowest setting is too fast |
| AvrGpio.SetConfig | src/avr/gpio.c:454-459 | SPCR and SPSR receive the high and low bytes of the word, which together give it back |
| AvrGpio.PackedRegisters | src/avr/gpio.c:445-458 | for every divider index and mode, the SPCR/SPSR pair gives the datasheet divisor 2^(k+1) |
| AvrGpio.AvrBoard.constructor | src/avr/gpio.c:300-301 | at start no conversion is claimed (`last_analog_read` is `ADC_DUMMY`) and no digital input is disabled |
| ConsoleFifo.RxFifo.Clear | src/lpc176x/serial_usb.c:318-320 | the receive buffer is emptied |
| ConsoleFifo.RxFifo.ReceiveByte | src/avr/serial.c:65-74 | a received byte is appended while there is room and dropped when the buffer is full; a sync byte wakes the tasks either way |
| ConsoleFifo.RxFifo.ReceivePacket | src/lpc176x/serial_usb.c:188-209 | a packet is refused whole when fewer than a full packet's bytes are free, otherwise appended in order; sync bytes in it wake the tasks |
| ConsoleFifo.RxFifo.PopInput | src/avr/serial.c:98-121 | exactly the first `len` received bytes are removed and the rest keep their order; the tasks are woken when bytes remain |
| ConsoleFifo.RxFifo.Task | src/avr/serial.c:124-133 | a positive framing result dispatches the first `pop_count` bytes as a block; any nonzero result removes them; 0 leaves the buffer alone |
| ConsoleFifo.TxFifo.Clear | src/lpc176x/serial_usb.c:318-320 | both transmit positions return to 0 |
| ConsoleFifo.TxFifo.Transmit | src/lpc176x/serial_usb.c:218-231 | the next min(limit, pending) bytes are sent in order and dropped from the pending bytes; with nothing pending the interrupt is disabled |
| ConsoleFifo.TxFifo.Compact | src/avr/serial.c:152-158 | the pending bytes move to the front of the buffer unchanged |
| ConsoleFifo.TxFifo.Append | src/avr/serial.c:162-168 | the message is appended after the pending bytes |
| ConsoleFifo.TxFifo.Sendf | src/avr/serial.c:137-170 | a drained buffer is reset first; a message that does not fit beside the pending bytes, even after compaction, is dropped; otherwise the message is queued after the pending bytes and the transmit interrupt enabled where the driver does so |
| AvrSerial.Open | src/avr/serial.c:17-20 | the AVR console has a 192-byte receive and a 96-byte transmit buffer, both empty, with UDRIE enabled by `console_sendf` |
| AvrSerial.TxIsr | src/avr/serial.c:77-83 | the data-register-empty interrupt sends one pending byte, or clears UDRIE when nothing is pending |
| LpcSerialUsb.Open | src/lpc176x/serial_usb.c:29-31 | 1024-byte receive and transmit buffers, both empty |
| LpcSerialUsb.SerialInit | src/lpc176x/serial_usb.c:318-325 | the three positions are reset to 0 |
| LpcSerialUsb.BulkOut | src/lpc176x/serial_usb.c:188-209 | a packet is accepted exactly when at least 64 bytes are free, and then appended in order, waking the tasks exactly when it holds a sync byte; a refused packet changes nothing |
| LpcSerialUsb.BulkIn | src/lpc176x/serial_usb.c:218-231 | the next min(64, pending) bytes go to the endpoint in order, or the NAK interrupt is disabled |
| LpcSerialUsb.Le32 | src/lpc176x/serial_usb.c:43-51 | `dwDTERate` is laid out as four bytes |
| LpcSerialUsb.UsbCdc.constructor | src/lpc176x/serial_usb.c:51 | the line coding starts as {CONFIG_SERIAL_BAUD, 0, 0, 8} |
| LpcSerialUsb.UsbCdc.HandleClassRequest | src/lpc176x/serial_usb.c:241-267 | SET_LINE_CODING copies seven bytes in, GET_LINE_CODING answers with the record, SET_CONTROL_LINE_STATE is accepted, and any other request is refused with the length and data left alone |
| Sam3x8eSerial.Open | src/sam3x8e/serial.c:18-20 | 96-byte buffers, both empty |
| Sam3x8eSerial.Handler | src/sam3x8e/serial.c:54-71 | RXRDY appends the byte while there is room, a sync byte wakes the tasks, and TXRDY sends one pending byte or disables the TXRDY interrupt |
| Stm32Serial.OpenReceive | src/stm32f1xx/serial.c:18 | the receive buffer starts empty |
| Stm32Serial.RxHook | src/stm32f1xx/serial.c:41-56 | at most one byte is taken per call, because the loop body always returns; it is kept when there is room |
| Stm32Serial.CdcTransmit.Sendf | src/stm32f1xx/serial.c:105-111 | the message is encoded at offset 0 and exactly its bytes are handed to the stack |
| Stm32SerialUsb.Open | src/stm32f1xx/serial_usb.c:21-23 | empty 1024-byte buffers; `console_sendf` never enables a transmit interrupt |
| Stm32SerialUsb.SerialInit | src/stm32f1xx/serial_usb.c:32-37 | the three positions are reset to 0 |
| ConsoleFifo.RxFifo.constructor | src/avr/serial.c:17-18 | the receive buffer starts empty and no task has been woken |
| ConsoleFifo.TxFifo.constructor | src/avr/serial.c:19-20 | the transmit buffer starts empty with the transmit interrupt off |
| Stm32Serial.CdcTransmit.constructor | src/stm32f1xx/serial.c:17-20 | the 96-byte transmit buffer starts with nothing handed to the USB stack |
| CustomStart.AlignTo32Bytes | src/lpc176x/custom_start.c:107-110 | the result is a multiple of 32; without 32-bit overflow it is the least multiple of 32 at or above the value, and with overflow it wraps to 0 |
| CustomStart.AlignIdempotent | src/lpc176x/custom_start.c:107-110 | aligning leaves a multiple of 32 alone and is idempotent |
| CustomStart.MaximumHeapAddress | src/lpc176x/custom_start.c:100-105 | the heap limit is 32-byte aligned |
| CustomStart.MaximumHeapBelowStack | src/lpc176x/custom_start.c:100-105 | when the reserved stack fits below its top, the limit lies between `top - limit - 32` and `top - limit`, so at least `limit` bytes stay reserved for the stack |
| CustomStart.Sbrk | src/lpc176x/custom_start.c:126-146 | `_sbrk` fails, leaving the break alone, exactly when the moved break (mod 2^32) reaches the stack pointer or the heap limit; otherwise it returns the old break and the new break is below both |
| CustomStart.ConsecutiveRegionsAdjacent | src/lpc176x/custom_start.c:133-146 | two successful calls hand out adjacent regions |
| CustomStart.BreakStaysBelowLimit | src/lpc176x/custom_start.c:133-146 | whatever sequence of calls is made, a break that starts below the heap limit stays below it |
| CustomStart.StartupHeap.constructor | src/lpc176x/custom_start.c:38 | at reset the break is `__end__` and the heap limit is 0 |
| CustomStart.StartupHeap.ConfigureStackSizeLimit | src/lpc176x/custom_start.c:100-105 | the stored limit is `MaximumHeapAddress` |
| CustomStart.StartupHeap.SbrkCall | src/lpc176x/custom_start.c:133-146 | the returned region and the new break are those of `Sbrk` |
| Mempool.RoundDown4 | src/lpc176x/mempool.c:7 | `& ~3` gives the largest multiple of 4 at or below the size |
| Mempool.RoundUp4 | src/lpc176x/mempool.c:22 | `(size + 3) & ~3` gives the least multiple of 4 at or above the size |
| Mempool.RoundedRequestFits | src/lpc176x/mempool.c:20-24 | a request checked against a multiple-of-4 space before rounding still fits after rounding up |
| Mempool.TiledDisjoint | src/lpc176x/mempool.c:20-26 | blocks laid end to end are pairwise disjoint, in increasing address order, and inside the pool |
| Mempool.TiledExtend | src/lpc176x/mempool.c:23-24 | a block allocated at `next` extends the tiling |
| Mempool.SpaceOf | src/lpc176x/mempool.c:7 | the space is `(size - sizeof(POOL)) & ~3` in 32-bit unsigned arithmetic: a multiple of 4 below 2^32, the remaining size rounded down when the region holds the header, and at least 2^32 - 11 when it does not |
| Mempool.TinyRegionWraps | src/lpc176x/mempool.c:7 | a region of 0 bytes gives a space of 0xFFFFFFF8 and one of 7 bytes 0xFFFFFFFC |
| Mempool.Pool.constructor | src/lpc176x/mempool.c:3-10 | `next` is just past the header and `end` is `next` plus the wrapped space: within the given area and less than 4 bytes short of its end when the area holds the header, and nearly 4 GiB past `next` when it does not |
| Mempool.Pool.Available | src/lpc176x/mempool.c:16-18 | the free space is `end - next`, a multiple of 4 |
| Mempool.Pool.Alloc | src/lpc176x/mempool.c:20-26 | NULL exactly when the request exceeds the free space, leaving the pool alone; otherwise the old `next`, with `next` advanced by the rounded size |
| Mempool.Pool.BlocksDisjoint | src/lpc176x/mempool.c:20-26 | everything handed out occupies disjoint blocks between the header and `next`, each 4-byte aligned relative to the pool |
| Mempool.TiledAligned | src/lpc176x/mempool.c:22-24 | with every block length a multiple of 4, every block starts a multiple of 4 bytes after the start |
| LpcGpio.Gpio2Pin | src/lpc176x/gpio.h:10 | the pin number within a port is below 32 |
| LpcGpio.DecodeEncode | src/lpc176x/gpio.h:7-10 | `GPIO2PORT` and `GPIO2PIN` of `GPIO(port, num)` give back the port index and the number, for every number below 32 |
| LpcGpio.EncodeDecode | src/lpc176x/gpio.h:7-10 | encoding the decoded port and number gives back the pin |
| LpcGpio.EncodeInjective | src/lpc176x/gpio.h:7 | distinct (port, number below 32) pairs encode to distinct pins |
| LpcGpio.BitIsPowerOfPin | src/lpc176x/gpio.h:11 | `GPIO2BIT(pin)` is the single bit 2^`GPIO2PIN(pin)` |
| LpcGpio.BitPow | src/lpc176x/gpio.h:11 | a 32-bit `1 << k` is 2^k for every k below 32 |
| LpcSpi.ClockCounter | src/lpc176x/spi.c:50-67 | the counter is the prescale through the 8-bit `SPI_SPCCR_COUNTER` mask, so it is below 256 |
| LpcSpi.PrescaleFrom | src/lpc176x/spi.c:57-65 | from an even start, the search stops on an even prescale up to 256 that reaches the target unless it is 256 |
| LpcSpi.PrescaleFromSkips | src/lpc176x/spi.c:57-65 | no even prescale the search steps over reaches the target |
| LpcSpi.PrescaleFromIsFirst | src/lpc176x/spi.c:57-65 | the search from p finds the smallest even prescale from p that reaches the target clock, or 256 when none up to 254 does |
| LpcSpi.Prescale | src/lpc176x/spi.c:50-65 | the prescale is the smallest even value from 8 with `pclk <= target * prescale`, or 256 |
| LpcSpi.GetClock | src/lpc176x/spi.c:50-67 | the loop returns `ClockCounter` |
| LpcSpi.ControlBits | src/lpc176x/spi.c:88-113 | the control word always has master mode and 8 data bits, second-edge phase exactly for modes 1 and 3, active-low polarity exactly for modes 2 and 3, and nothing outside `SPI_SPCR_BITMASK` |
| LpcSpi.Pack | src/lpc176x/spi.c:113-126 | `spi_set_config` of a packed word gives back the control bits in SPCR and the counter in SPCCR |
| LpcSpi.Unpack | src/lpc176x/spi.c:122-126 | SPCR receives only the bits of `SPI_SPCR_BITMASK` and SPCCR only the low 8 bits of the counter |
| LpcSpi.GetConfig | src/lpc176x/spi.c:89-126 | the configuration word carries the control bits for the mode and the masked clock counter, which `spi_set_config` gives back |
| LpcSpi.SlowTargetFrom | src/lpc176x/spi.c:57-65 | a target slower than pclk/254 leaves the prescale at 256 |
| LpcSpi.SlowTargetCounterIsZero | src/lpc176x/spi.c:66 | as written, a 100 kHz target at a 100 MHz pclk gives counter 0, because the capped 256 is masked to 8 bits |
| LpcSpi.ClockCounterFixed | src/lpc176x/spi.c:57-66 | the corrected counter caps at 254: an even value in [8, 254] that agrees with the original whenever the search succeeds |
| LpcSpi.GetConfigFixed | src/lpc176x/spi.c:116-126 | with the correction, SPCCR receives the corrected counter and SPCR the control bits |
| LpcSpi.LpcSpiPort.SetConfig | src/lpc176x/spi.c:121-126 | the registers become the unpacked configuration word |
| LpcSpi.LpcSpiPort.TransferLen | src/lpc176x/spi.c:128-135 | each of the first `len` bytes is replaced by its reply, nothing past `len` changes, and no transfer is flagged last |
| SpiTrace.Transfers | src/sam3x8e/spi.c:102-110 | one `spi_transfer` per byte, in order, and only the final one flagged last |
| SpiTrace.TransfersBelow | src/sam3x8e/spi.c:106-107 | the transfers issued before byte `k`: the first `k` entries of the whole sequence |
| SpiTrace.TransfersBelowStep | src/sam3x8e/spi.c:106-107 | one more loop iteration appends exactly the transfer of byte `k` |
| SpiTrace.TransfersBelowAll | src/sam3x8e/spi.c:106-109 | once every byte is issued the prefix is the whole transfer sequence |
| SpiTrace.Plain | src/stm32f1xx/spi.c:143-145 | one transfer per byte, in order, none flagged last |
| SpiTrace.TransferInPlace | src/stm32f1xx/spi.c:139-146 | the first `len` bytes of the buffer become the replies, the rest is unchanged, and the bytes go out in order with last = 0 |
| Stm32Spi.PrescaleFrom | src/stm32f1xx/spi.c:66-69 | from any starting prescale the search stops at the first prescale whose divided clock is no longer below the bus clock, or at 8 |
| Stm32Spi.Prescale | src/stm32f1xx/spi.c:60-71 | `spi_get_clock` returns the least prescale in 1..7 whose divided clock reaches the bus clock, and 8 when none does |
| Stm32Spi.GetClock | src/stm32f1xx/spi.c:60-71 | the `do`/`while` loop returns that least prescale |
| Stm32Spi.Pack | src/stm32f1xx/spi.c:100-130 | the configuration word always holds master and enable, CPHA exactly for modes 1 and 3, CPOL exactly for modes 2 and 3, and the prescale in BR except that 8 is masked to 0 |
| Stm32Spi.GetConfig | src/stm32f1xx/spi.c:100-130 | as written, the BR field holds the search's prescale with 8 wrapped to 0, and `spi_set_config` leaves CR2 at 0 |
| Stm32Spi.SetConfigLeavesCr2Zero | src/stm32f1xx/spi.c:125-137 | since the word is first masked to 16 bits, `spi_set_config` writes all of it to CR1 and 0 to CR2 |
| Stm32Spi.Unpack | src/stm32f1xx/spi.c:133-137 | CR1 and CR2 are the low and high halves of the word, which together give it back |
| Stm32Spi.SlowTargetGetsFastestDivider | src/stm32f1xx/spi.c:68-124 | a 100 kHz target at a 36 MHz bus clock reaches prescale 8, which the BR mask turns into the fastest divider |
| Stm32Spi.PrescaleFixed | src/stm32f1xx/spi.c:66-70 | the clamped prescale lies in 1..7 and is the search's answer whenever that is below 8 |
| Stm32Spi.GetConfigFixed | src/stm32f1xx/spi.c:124 | with the prescale clamped to 7 the BR field holds the chosen prescale |
| Stm32Spi.Bits | src/stm32f1xx/spi.c:124 | a prescale of 0..8 is the same number as a register value |
| Stm32Spi.Stm32SpiPort.constructor | src/stm32f1xx/spi.c:133-137 | both control registers start at 0 |
| Stm32Spi.Stm32SpiPort.SetConfig | src/stm32f1xx/spi.c:133-137 | CR1 receives the low half of the word and CR2 the high half |
| Stm32Spi.Stm32SpiPort.TransferLen | src/stm32f1xx/spi.c:139-146 | each of the first `len` bytes is replaced by its reply, the rest is unchanged, and the bytes go out in order with last = 0 |
| Sam3x8eSpi.ClockDiv | src/sam3x8e/spi.c:60-67 | the divider is 255 below MAX/255, 2 from MAX/2 on, `MAX / (clock + 1) + 1` between, and always in 2..255 |
| Sam3x8eSpi.DividerBounds | src/sam3x8e/spi.c:66 | in the middle range the quotient lies in 2..254, so the `uint8_t` holds the divider without wrapping |
| Sam3x8eSpi.ByteBits | src/sam3x8e/spi.c:90-115 | a byte as a register value stays below 0x100 |
| Sam3x8eSpi.Csr | src/sam3x8e/spi.c:71-90 | the CSR word carries the divider in SCBR, delay 1 in DLYBCT, chip select kept active, NCPHA exactly for modes 1 and 3 and CPOL exactly for modes 2 and 3 |
| Sam3x8eSpi.GetConfig | src/sam3x8e/spi.c:56-93 | `spi_get_config` puts the selected divider, in 2..255, into SCBR and the mode into NCPHA/CPOL |
| Sam3x8eSpi.TdrWord | src/sam3x8e/spi.c:115-116 | the TDR word carries the byte in its low half, chip select 0 in PCS, and LASTXFER exactly when `last` |
| Sam3x8eSpi.Words | src/sam3x8e/spi.c:104-109 | one TDR word per byte, in order, only the final one with LASTXFER |
| Sam3x8eSpi.EmptyTransferTouches65536 | src/sam3x8e/spi.c:104-109 | as written a transfer of length 0 wraps the 16-bit count to 65535 and touches 65536 bytes; any other length touches exactly `len` |
| Sam3x8eSpi.Sam3xSpiPort.constructor | src/sam3x8e/spi.c:96-99 | the chip-select register is 0 and nothing has been sent |
| Sam3x8eSpi.Sam3xSpiPort.SetConfig | src/sam3x8e/spi.c:95-99 | the word is stored in the channel's CSR |
| Sam3x8eSpi.Sam3xSpiPort.Transfer | src/sam3x8e/spi.c:112-125 | one TDR word with the byte and the last flag is written, and the reply is what the receive register holds |
| Sam3x8eSpi.Sam3xSpiPort.TransferLen | src/sam3x8e/spi.c:101-110 | with an empty transfer doing nothing, each of the first `len` bytes is replaced by its reply, the rest is unchanged, and the words go out in order with LASTXFER only on the final one |
| SpiBus.ReadStores | src/spibus.c:104-125 | as written a read of `len` bytes in 1..32 stores to `resp[0..len]`, `len + 1` entries, and nothing otherwise |
| SpiBus.WriteStores | src/spibus.c:56-77 | as written a write of `len` data bytes stores to `resp[0..len]` whenever `len >= 1`, with no upper bound |
| SpiBus.ReadOverflowsAt32 | src/spibus.c:104-125 | a read of 32 bytes passes the guard and stores to `resp[32]`, one past the 32-byte array |
| SpiBus.WriteOverflowsAt32 | src/spibus.c:58-76 | a write of 32 data bytes stores to `resp[32]` |
| SpiBus.WriteOps | src/spibus.c:64-79 | a write configures the bus, lowers chip select, sends the command and then the data, raises chip select, and flags only the final byte as last |
| SpiBus.ReadOps | src/spibus.c:107-130 | a read configures the bus, lowers chip select, sends the command and then `len` read commands of 0, raises chip select, and flags only the final transfer as last |
| SpiTrace.DeselectBelow | src/spibus.c:139-148 | a shutdown loop over the oids only raises chip selects, one per configured device in oid order (also `src/thermocouple.c:180-189`) |
| SpiTrace.DeselectCovers | src/spibus.c:142-143 | every configured device's chip select is among those the shutdown raises (also `src/thermocouple.c:183-184`) |
| SpiBus.SpiBuses.constructor | src/spibus.c:24-27 | no bus is configured and nothing has been sent |
| SpiBus.SpiBuses.ConfigSsPin | src/spibus.c:30-41 | the oid is bound to its chip-select pin and configuration word, and no other binding changes |
| SpiBus.SpiBuses.Write | src/spibus.c:46-86 | with the corrected bound, a fitting write issues exactly the write sequence and answers status 0 with the `len + 1` replies; otherwise nothing goes on the bus and the answer is status 1 with no data |
| SpiBus.SpiBuses.Read | src/spibus.c:91-134 | with the corrected bound, a fitting read issues exactly the read sequence and answers status 0 with the `len + 1` replies; otherwise nothing goes on the bus and the answer is status 1 with no data |
| SpiBus.SpiBuses.Shutdown | src/spibus.c:139-148 | the chip selects of the configured buses are raised in ascending oid order, and nothing else is done |
| LpcSerialUart.PeripheralClock | src/lpc176x/serial_uart.c:63-78 | the UART clock never exceeds the core clock, equals it for selector 1, and is at most half of it for the other selectors |
| LpcSerialUart.PeripheralClockOrder | src/lpc176x/serial_uart.c:63-78 | from slowest to fastest the selectors are 3, 0, 2 and 1, and each of the first two steps at least doubles the clock |
| LpcSerialUart.CalcBaudrate | src/lpc176x/serial_uart.c:80-83 | the two latch bytes together hold the 32-bit quotient `pclk / (16 * baud)` reduced to 16 bits |
| LpcSerialUart.LatchBytes | src/lpc176x/serial_uart.c:82-83 | the DLL and DLM bytes together hold the low 16 bits of the divisor |
| LpcSerialUart.DivisorRounding | src/lpc176x/serial_uart.c:80 | when `16 * baud` does not wrap, the divisor is the largest value whose 16-times-oversampled rate does not exceed the clock |
| LpcSerialUart.Digits | src/lpc176x/serial_uart.c:158-166 | a nonzero number has at least one digit |
| LpcSerialUart.NumText | src/lpc176x/serial_uart.c:155-182 | `serial_uart_put_num` prints "0" for 0, and otherwise the digits of the number |
| LpcSerialUart.DigitsRoundTrip | src/lpc176x/serial_uart.c:158-166 | reading the printed digits back in the same base gives the number |
| LpcSerialUart.DigitsWellFormed | src/lpc176x/serial_uart.c:158-166 | the digits of a nonzero number have no leading zero and are all taken from the first `base` characters of the digit table |
| LpcSerialUart.DigitsLength | src/lpc176x/serial_uart.c:159 | a number below 2^k has at most k digits in any base from 2, so a 32-bit number fits the 49 places of the buffer |
| LpcSerialUart.Directive | src/lpc176x/serial_uart.c:205-237 | a directive character other than c, d, u, o, s, x and X prints nothing and takes no argument; each of those takes exactly one |
| LpcSerialUart.Run | src/lpc176x/serial_uart.c:195-241 | every completed print ends with the '\n' put after the loop |
| LpcSerialUart.Text | src/lpc176x/serial_uart.c:197-241 | the same holds when the print is resumed inside the text-copying loop |
| LpcSerialUart.Printf | src/lpc176x/serial_uart.c:184-242 | `serial_uart_printf` run from the start of the format: a print that completes ends with '\n' |
| LpcSerialUart.DirectiveStep | src/lpc176x/serial_uart.c:203-237 | after the copied text, a directive with a missing argument ends the print with what was put so far, and a directive that fits resumes the outer loop two characters on with its text appended |
| LpcSerialUart.TextWithoutPercentOverruns | src/lpc176x/serial_uart.c:197-201 | as written, text with no '%' left is copied through its '\n' and on past the end of the format |
| LpcSerialUart.UsbInitMessageOverruns | src/lpc176x/serial_usb.c:324 | the message "USB init done\n", which holds no directive, makes the print read past the end of its format |
| LpcSerialUart.FixedPlainText | src/lpc176x/serial_uart.c:195-201 | with the inner scan also stopping at '\n', a message without directives ending in '\n' prints exactly itself |
| LpcSerialUart.FixedUsbInitMessage | src/lpc176x/serial_usb.c:324 | the corrected print of "USB init done\n" is that text |
| LpcSerialUart.FillDigits | src/lpc176x/serial_uart.c:158-166 | the `do`/`while` leaves exactly the digits of the number, most significant first, between the write position and the NUL at index 49 |
| LpcSerialUart.FillStep | src/lpc176x/serial_uart.c:164-165 | each pass keeps the invariant that the digits still to write, followed by those written, spell the number |
| LpcSerialUart.DigitsStep | src/lpc176x/serial_uart.c:164-165 | the last digit of a number is its remainder by the base, after the digits of the quotient |
| LpcSerialUart.DebugUart.constructor | src/lpc176x/serial_uart.c:37 | the port starts uninitialised, with nothing printed |
| LpcSerialUart.DebugUart.Init | src/lpc176x/serial_uart.c:88-122 | the set-up runs only the first time, and the port is initialised afterwards |
| LpcSerialUart.DebugUart.Put | src/lpc176x/serial_uart.c:124-133 | the character is printed once initialised; before that nothing happens |
| LpcSerialUart.DebugUart.Puts | src/lpc176x/serial_uart.c:135-144 | the string is printed once initialised; before that nothing happens |
| LpcSerialUart.DebugUart.Get | src/lpc176x/serial_uart.c:146-152 | the received byte once initialised, 0 before |
| LpcSerialUart.DebugUart.PutNum | src/lpc176x/serial_uart.c:155-182 | exactly the text of the number in the base is printed once initialised |
| LpcSerialUart.DebugUart.PrintfCall | src/lpc176x/serial_uart.c:184-242 | the characters printed are exactly those of the interpreter's outcome |
| LpcSerialUart.DebugUart.PrintfStep | src/lpc176x/serial_uart.c:195-238 | one pass of the outer loop prints a piece of the outcome and leaves the rest of it unchanged |
| LpcSerialUart.DebugUart.PutDirective | src/lpc176x/serial_uart.c:205-237 | a directive prints its text only when its argument is present and of the expected kind |
| LpcSerialUart.DebugUart.CopyText | src/lpc176x/serial_uart.c:197-201 | the text up to the next '%' is printed, or the format runs out and the print overruns |
| Thermocouple.DataCount | src/thermocouple.c:51-56 | an event reads one data byte, plus one per further `read_bytes`, so at least one and exactly `read_bytes` when that is nonzero |
| Thermocouple.DataOps | src/thermocouple.c:51-56 | the data transfers all send `SPI_READ_CMD`, the only one flagged last being the final byte of a read of two or more |
| Thermocouple.EventOps | src/thermocouple.c:48-61 | an event configures the bus, lowers chip select, sends the read command, reads the data bytes, reads the fault register when `fault_cmd` is nonzero, and raises chip select |
| Thermocouple.EventLastFlags | src/thermocouple.c:50-59 | exactly two transfers can be flagged last: the final data byte when `read_bytes >= 2`, and the fault read when there is one |
| Thermocouple.ShiftIn | src/thermocouple.c:53-54 | shifting the 32-bit value left by 8 and or-ing in a byte is `value * 256 + byte` modulo 2^32 |
| Thermocouple.AssembledStep | src/thermocouple.c:52-56 | each loop pass shifts the next data byte into the value |
| Thermocouple.AssembledOne | src/thermocouple.c:51 | a one-byte read leaves the first reply as the value |
| Thermocouple.DataOpsStep | src/thermocouple.c:52-56 | each loop pass adds exactly the transfer of the next data byte |
| Thermocouple.AssembledIsBigEndian | src/thermocouple.c:51-56 | the value is the big-endian number of the data replies, modulo 2^32 |
| Thermocouple.Check | src/thermocouple.c:63-85 | an event survives exactly when the value has no fault bit and lies in [min, max]; a fault bit shuts down with "Thermocouple reader fault" before the range is checked, and a value out of range shuts down with "Thermocouple ADC out of range" |
| Thermocouple.Install | src/thermocouple.c:99-108 | the configuration command sets the start clock, interval and rest time, and keeps the bus, pin, value and fault byte |
| Thermocouple.EventResult | src/thermocouple.c:43-86 | after an event the value is the assembled data and the fault byte the last reply when fault is read; a surviving event moves the start and the wake time on by `rest_time` in 32-bit arithmetic, a shut-down one leaves them; nothing else changes |
| Thermocouple.ReportsBelow | src/thermocouple.c:167-175 | the task sends at most one report per oid |
| Thermocouple.ReportsEveryReader | src/thermocouple.c:162-176 | every configured reader is reported, whatever its state, with its value, next start and fault byte |
| Thermocouple.Readers.constructor | src/thermocouple.c:41 | no reader is configured or armed, there is no wake-up, and nothing has been sent |
| Thermocouple.Readers.ConfigSsPin | src/thermocouple.c:145-157 | the oid is bound to a fresh reader with its chip-select pin and configuration word, and no other binding changes |
| Thermocouple.Readers.Config | src/thermocouple.c:89-138 | the parameters are installed; an interval or start clock of 0 shuts down with "Thermocouple configuration error!" and sends nothing; otherwise the configuration bytes go out when the first is nonzero and there are at least two, only the final one flagged last, and the timer is armed to wake at the start clock |
| Thermocouple.Readers.ReadValue | src/thermocouple.c:48-56 | the value read is the assembled data replies, after exactly the set-up, command and data transfers |
| Thermocouple.Readers.Event | src/thermocouple.c:43-86 | an armed event issues exactly the event's bus operations and stores the event result; a surviving event wakes the task and stays armed, a failing one shuts down with its message and is disarmed |
| Thermocouple.Readers.ReadFault | src/thermocouple.c:57-61 | the fault register is read only when `fault_cmd` is nonzero, and chip select is then released |
| Thermocouple.Readers.Task | src/thermocouple.c:162-176 | a woken task reports every configured reader in ascending oid order and clears the wake-up; an unwoken one does nothing |
| Thermocouple.Readers.Shutdown | src/thermocouple.c:180-189 | the chip select of every configured reader is raised, in ascending oid order |
| Tmc2130.Unit | klippy/drivers/tmc2130.py:434-437 | the weight of a field's lowest register bit, `1 << offset` times the mask's low bit, is positive |
| Tmc2130.Span | klippy/drivers/tmc2130.py:434-437 | a field holds at least one value |
| Tmc2130.Digit | klippy/drivers/tmc2130.py:434 | `(reg >> offset) & mask`, shifted down to the mask's low bit, is below the field's span |
| Tmc2130.Code | klippy/drivers/tmc2130.py:435-437 | `val & mask` shifted down, with Python's two's-complement `&` on negative values, is below the field's span |
| Tmc2130.ModifyFrom | klippy/drivers/tmc2130.py:430-438 | a pass over a field's ranges that sets no `send` leaves the register as it was |
| Tmc2130.ModifyReg | klippy/drivers/tmc2130.py:426-442 | an unknown name changes nothing and writes nothing, and any write carries the new shadow value |
| Tmc2130.ModifyRegOf | klippy/drivers/tmc2130.py:426-442 | for a known name the result is the pass over its definition list, written exactly when the pass set `send` without a TypeError |
| Tmc2130.ReadReg | klippy/drivers/tmc2130.py:443-451 | `read_REG_*` answers `None` exactly for a name the register's table lacks |
| Tmc2130.DigitBelow | klippy/drivers/tmc2130.py:436 | a field's bits weigh no more than the register, so clearing them cannot go below zero |
| Tmc2130.PlaceDigit | klippy/drivers/tmc2130.py:436-437 | clearing a field and or-ing in a value sets the field to that value and keeps the bits below and above it |
| Tmc2130.PlaceCurrent | klippy/drivers/tmc2130.py:434-437 | writing a field's current value back leaves the register unchanged |
| Tmc2130.BitOfRem | klippy/drivers/tmc2130.py:436 | a register bit below bit `e` depends only on the register modulo 2^e |
| Tmc2130.BitOfQuot | klippy/drivers/tmc2130.py:436 | a register bit at or above bit `e` is the corresponding bit of the register shifted right by `e` |
| Tmc2130.SameOutside | klippy/drivers/tmc2130.py:436-437 | two registers that agree below and above a field agree on every bit outside it |
| Tmc2130.ModifyFromKeepsBits | klippy/drivers/tmc2130.py:430-438 | the pass over a definition list changes no bit outside the listed ranges |
| Tmc2130.ModifyKeepsOtherBits | klippy/drivers/tmc2130.py:426-442 | `modify_REG_*` changes no register bit outside the named field's masks, and an unknown name changes nothing |
| Tmc2130.GconfShaped | klippy/drivers/tmc2130.py:406-425 | every GCONF field is one bit range with no map |
| Tmc2130.IholdIrunShaped | klippy/drivers/tmc2130.py:503-507 | every IHOLD_IRUN field is one bit range with no map |
| Tmc2130.ChopconfShaped | klippy/drivers/tmc2130.py:717-740 | every CHOPCONF field but `fast_decay_time` is one range, `fast_decay_time` is the split pair, and only `blank_time` and `microsteps` carry maps |
| Tmc2130.ChopconfSingle | klippy/drivers/tmc2130.py:717-740 | every CHOPCONF field but `fast_decay_time` is one range |
| Tmc2130.ChopconfPlain | klippy/drivers/tmc2130.py:717-740 | the CHOPCONF fields other than `fast_decay_time`, `blank_time` and `microsteps` are one range with no map |
| Tmc2130.CoolconfShaped | klippy/drivers/tmc2130.py:800-808 | every COOLCONF field is one range, and only `sg_step_width` and `sg_current_decrease` carry maps |
| Tmc2130.PwmconfShaped | klippy/drivers/tmc2130.py:927-934 | every PWMCONF field is one range, and only `stealth_freq` and `standstill_mode` carry maps |
| Tmc2130.TwoBitFits | klippy/drivers/tmc2130.py:711-716 | a two-bit field whose map sends its keys into 0..3 stores every code unchanged |
| Tmc2130.MstepsFits | klippy/drivers/tmc2130.py:700-736 | the `microsteps` codes 0..8 fit its four bits |
| Tmc2130.BlankTimeFits | klippy/drivers/tmc2130.py:711-731 | the `blank_time` codes fit its two bits |
| Tmc2130.SeupFits | klippy/drivers/tmc2130.py:788-802 | the `sg_step_width` codes fit its two bits |
| Tmc2130.SednFits | klippy/drivers/tmc2130.py:794-804 | the `sg_current_decrease` codes fit its two bits |
| Tmc2130.PwmFreqFits | klippy/drivers/tmc2130.py:915-930 | the `stealth_freq` codes fit its two bits |
| Tmc2130.FreewheelFits | klippy/drivers/tmc2130.py:921-933 | the `standstill_mode` codes fit its two bits |
| Tmc2130.MappedFieldsFit | klippy/drivers/tmc2130.py:700-716 | all six maps send their keys to codes that fit their unshifted fields (also lines 788-799, 915-926) |
| Tmc2130.DefsShaped | klippy/drivers/tmc2130.py:406-425 | every definition list of the five tables is either one range whose codes fit, or the split `fast_decay_time` (also lines 503-507, 717-740, 800-808, 927-934) |
| Tmc2130.TableShapes | klippy/drivers/tmc2130.py:717-740 | every field is one bit range, except CHOPCONF's `fast_decay_time` |
| Tmc2130.CodesFit | klippy/drivers/tmc2130.py:700-716 | a mapped key's code fits its field (also lines 788-799, 915-926) |
| Tmc2130.SinglePass | klippy/drivers/tmc2130.py:430-438 | on one range, an untranslated string raises TypeError with nothing changed; otherwise the field receives the code, and `send` is set exactly when the field, and so the register, changed |
| Tmc2130.HighKeepsLow | klippy/drivers/tmc2130.py:725 | placing bit 11 keeps bits 4..6 of `fast_decay_time` |
| Tmc2130.FastDecayPass | klippy/drivers/tmc2130.py:725 | the two passes over `fast_decay_time` set both of its ranges, and `send` is set exactly when one of them, and so the register, changed (also lines 430-438) |
| Tmc2130.HighOfLowPlace | klippy/drivers/tmc2130.py:725 | placing bits 4..6 keeps bit 11 |
| Tmc2130.PassSendsIffChanged | klippy/drivers/tmc2130.py:430-440 | on every definition list of the tables, the pass sends exactly when it changed the register |
| Tmc2130.PassIdempotent | klippy/drivers/tmc2130.py:430-440 | a second pass with the same value changes and sends nothing |
| Tmc2130.ModifyWritesIffChanged | klippy/drivers/tmc2130.py:426-442 | a register write is issued exactly when the shadow register changed, and it carries the new shadow value |
| Tmc2130.ModifyIdempotent | klippy/drivers/tmc2130.py:426-442 | repeating the same modify changes nothing and writes nothing |
| Tmc2130.ReadFrom | klippy/drivers/tmc2130.py:447-448 | the loop summing `(reg >> offset) & mask` over a field's ranges gives, on one range, that range's piece |
| Tmc2130.SingleReadBack | klippy/drivers/tmc2130.py:430-448 | after writing an integer no map translates, one range reads back as `val & mask` |
| Tmc2130.OnlyDefList | klippy/drivers/tmc2130.py:406-425 | a single-range field's definition list is its one definition (also lines 717-740) |
| Tmc2130.SingleRangeOf | klippy/drivers/tmc2130.py:426-451 | the modify and read of a single-range field go through its one definition |
| Tmc2130.ReadAfterModify | klippy/drivers/tmc2130.py:426-451 | a single-range field written with an integer its map does not translate reads back as `val & mask` |
| Tmc2130.MappedReadBack | klippy/drivers/tmc2130.py:431-448 | after writing a mapped key, one range reads back as its code |
| Tmc2130.ReadAfterModifyMapped | klippy/drivers/tmc2130.py:741-766 | a mapped field written with one of its map's keys reads back as the code, not as the value written |
| Tmc2130.MicrostepsReadBackCode | klippy/drivers/tmc2130.py:705 | `microsteps = 16` reads back as 4 (also lines 736, 741-766) |
| Tmc2130.FastDecayReadBack | klippy/drivers/tmc2130.py:725-766 | the split `fast_decay_time` reads back as `val & 0xF` |
| Tmc2130.UntranslatedStringIgnored | klippy/drivers/tmc2130.py:431-442 | a string no map translates raises TypeError on the first range, which the `except` swallows: nothing changes and nothing is written |
| Tmc2130.Be4 | klippy/drivers/tmc2130.py:183-184 | `struct.Struct('>I').pack` gives four bytes whose big-endian value is the number |
| Tmc2130.WriteFrame | klippy/drivers/tmc2130.py:175-194 | `None` sends nothing; an integer is sent as four big-endian bytes exactly when it lies in 0..2^32-1; a list is sent as is exactly when it has 4 bytes; every frame has the write bit set |
| Tmc2130.IssuedWrite | klippy/drivers/tmc2130.py:175-194 | an integer write issues its one frame exactly when the value fits 32 bits |
| Tmc2130.StatusBits | klippy/drivers/tmc2130.py:150-162 | bit 0x1000 never fits in a status byte, so the standstill flag is never set, and the reset flag follows bit 0 |
| Tmc2130.ReadReturnsWritten | klippy/drivers/tmc2130.py:163-184 | a word packed by a write is read back from a reply that carries it after the status byte |
| Tmc2130.ThresholdFrame | klippy/drivers/tmc2130.py:537-613 | a threshold setter writes the value reduced to its low 8 or 20 bits, with the write bit set |
| Tmc2130.ResetFrames | klippy/drivers/tmc2130.py:204-208 | `__reset_driver` sends five frames with the write bit set, each of value 0 |
| Tmc2130.ModifyPass | klippy/drivers/tmc2130.py:430-438 | the loop over a field's ranges computes the pass the model defines, a TypeError stopping it with the ranges so far kept |
| Tmc2130.Driver.constructor | klippy/drivers/tmc2130.py:50-53 | the fault flags start false and nothing has been sent |
| Tmc2130.Driver.SetShadow | klippy/drivers/tmc2130.py:436-437 | one shadow register takes the new value and the others keep theirs |
| Tmc2130.Driver.CommandWrite | klippy/drivers/tmc2130.py:175-194 | the outcome is the frame the model defines, and the frame is sent exactly when there is one |
| Tmc2130.Driver.CommandRead | klippy/drivers/tmc2130.py:140-167 | the command is sent twice with bit 7 clear, the value is the big-endian rest of the reply, and the reset, error and stallGuard flags are raised by bits 0, 1 and 2 of the status byte and never cleared |
| Tmc2130.Driver.Modify | klippy/drivers/tmc2130.py:426-442 | the named register's shadow becomes the modified value, the other shadows stay, and the new value is written exactly when the modify asked for it and the value fits 32 bits |
| Tmc2130.Driver.Read | klippy/drivers/tmc2130.py:443-451 | reading the shadow register answers `None` exactly for an unknown name, and a single-range field reads as its `(reg >> offset) & mask` |
| Tmc2130.Driver.SetTpowerdown | klippy/drivers/tmc2130.py:537-545 | TPOWERDOWN receives the delay's low 8 bits |
| Tmc2130.Driver.SetTpwmthrs | klippy/drivers/tmc2130.py:558-567 | TPWMTHRS receives the speed's low 20 bits |
| Tmc2130.Driver.SetTcoolthrs | klippy/drivers/tmc2130.py:570-589 | TCOOLTHRS receives the speed's low 20 bits |
| Tmc2130.Driver.SetThigh | klippy/drivers/tmc2130.py:592-613 | THIGH receives the speed's low 20 bits |
| Tmc2130.Driver.ResetDriver | klippy/drivers/tmc2130.py:196-214 | IHOLD_IRUN's shadow is read from the chip, the reset frames are sent, and the other four shadows are cleared |
| Tmc2130.Driver.WriteZero | klippy/drivers/tmc2130.py:204-207 | a zero word goes to the register |
| Tmc2130.Driver.WriteResetFrames | klippy/drivers/tmc2130.py:204-208 | exactly the reset frames are sent, in order |
| Tmc2130.Driver.ClearFaults | klippy/drivers/tmc2130.py:327-331 | all four fault flags are cleared |
| GCode.KeyLen | klippy/gcode.py:157 | the greedy `[A-Z_]+` run at the head of the text ends at the text's end or at a character outside the class |
| GCode.KeyLenRun | klippy/gcode.py:157 | that run is made of `[A-Z_]` |
| GCode.GapLen | klippy/gcode.py:157-167 | the text `args_r.split` leaves before the next match ends at the text's end or at a character that starts a match |
| GCode.GapLenRun | klippy/gcode.py:157-167 | no character of that text starts a match |
| GCode.MatchLen | klippy/gcode.py:157 | a match, the greedy `[A-Z_]+` or else a single `*`, is never empty and lies within the text |
| GCode.AlternatingCons | klippy/gcode.py:167 | a key and the gap after it, put in front of an alternating split, keep it alternating |
| GCode.MatchIsKey | klippy/gcode.py:157 | the match at the head of a text is a key: a `*` or a run of `[A-Z_]` |
| GCode.GapIsGap | klippy/gcode.py:157-167 | the text up to the next match holds no match, and the next match starts right after it |
| GCode.RunThenStar | klippy/gcode.py:157 | a letter run followed by no gap is followed by a `*` or by nothing |
| GCode.PiecesShape | klippy/gcode.py:167 | the split of a text that starts with a match alternates key, gap, key, gap, and the pieces concatenate back to the text |
| GCode.RestStartsKey | klippy/gcode.py:167 | what follows the first key and its gap is empty or starts the next match |
| GCode.PiecesShapeStep | klippy/gcode.py:167 | the shape of the split of the rest gives that of the whole |
| GCode.PiecesUnique | klippy/gcode.py:167 | conversely, every alternating factorisation of a text is its split |
| GCode.PiecesUniqueStep | klippy/gcode.py:167 | a leading key and gap split off again from the concatenation |
| GCode.PairSplit | klippy/gcode.py:157-167 | a key, a gap and the text of the following pieces split back into the same key and gap |
| GCode.Tokens | klippy/gcode.py:167 | `args_r.split(line)[1:]` alternates key and gap, and the dropped prefix, which holds no match, followed by the tokens is the line |
| GCode.TokensUnique | klippy/gcode.py:167 | the tokens are the only alternating factorisation after a match-free prefix |
| GCode.AlternatingEven | klippy/gcode.py:168-169 | the tokens come in pairs, so the dictionary comprehension never indexes past the end |
| GCode.ParamsKeys | klippy/gcode.py:168-169 | a key is in the parameter dictionary exactly when it is the key of some pair |
| GCode.ParamsLast | klippy/gcode.py:168-169 | a repeated key takes the stripped value of its last pair |
| GCode.ParamsOtherKey | klippy/gcode.py:168-169 | a key other than the last pair's keeps the value it had before that pair |
| GCode.ParamsSnoc | klippy/gcode.py:168-169 | appending a pair sets its key to the stripped value |
| GCode.CutComment | klippy/gcode.py:163-165 | the text before the first `;`, the whole text when there is none |
| GCode.LineTokensShape | klippy/gcode.py:161-169 | the tokens of a line alternate and come in pairs |
| GCode.ParseLine | klippy/gcode.py:161-177 | `#original` is the stripped line, comment included, and a command found is also stored under `#command` |
| GCode.CommentIgnored | klippy/gcode.py:163-177 | two lines that agree before their first `;` name the same command and have the same parameters apart from `#original` |
| GCode.PartsOriginal | klippy/gcode.py:168-177 | the stripped text only feeds `#original` |
| GCode.ParamKeys | klippy/gcode.py:157-170 | every parameter key other than `#original` and `#command` is `*` or a run of upper-case letters and `_` |
| GCode.PartsKey | klippy/gcode.py:168-177 | a parameter other than the `#` keys comes from the pairs |
| GCode.AlternatingKey | klippy/gcode.py:168 | every even-indexed token is a key |
| GCode.ParseCommand | klippy/gcode.py:171-177 | a line names a command exactly when tokens remain after a leading `N` pair; the command is the first key and its stripped value, also stored as `#command` |
| GCode.PartsCommand | klippy/gcode.py:171-177 | the same, for the tokens of the line |
| GCode.ExampleMove | klippy/gcode.py:161-177 | `G1 X10 ; move` names `G1` with `X` = `10` |
| GCode.ExampleLineNumber | klippy/gcode.py:167-177 | `n7 g28` names `G28`, upper-cased, and keeps `N` = `7` among the parameters |
| GCode.ExampleComment | klippy/gcode.py:163-176 | a comment-only line names no command |
| GCode.StripTrailing | klippy/gcode.py:168 | a trimmed word followed by one space strips back to the word |
| GCode.GetStr | klippy/gcode.py:252-261 | a present parameter is parsed and a parse failure is the "unable to parse" error; an absent one gives the default when there is one and is otherwise the "missing" error; both errors quote `#original` |
| GCode.GetInt | klippy/gcode.py:262-263 | a present parameter is read exactly when Python's `int()` accepts it, as the integer it spells; an absent one gives the default when there is one and fails otherwise |
| GCode.GetIntRoundTrip | klippy/gcode.py:262-263 | a parameter holding `str(n)` reads back as `n` with `get_int`, whatever the default |
| GCode.UpperNamesExtended | klippy/gcode.py:92-94 | every name starting with an upper-case letter is registered with the extended-parameter wrapper, `G1` included |
| GCode.Register | klippy/gcode.py:91-99 | the command is bound in the ready table, with the wrapper decided by its name; with `when_not_ready` the not-ready table gets the same handler, and otherwise keeps whatever it had for the name; the help text is set exactly when a description is given and otherwise kept; every other command keeps its handlers and its help in all three tables |
| GCode.RegisterKeepsBaseInReady | klippy/gcode.py:95-97 | registering keeps every not-ready command among the ready ones |
| GCode.RegisterAliasesKeeps | klippy/gcode.py:73-74 | so does registering a command's aliases |
| GCode.RegisterBuiltins | klippy/gcode.py:68-74 | after construction every entry's name and every alias is a ready command, the names and aliases of `_when_not_ready` entries are also in the not-ready table, and every command usable before the printer is ready is also usable after |
| GCode.RegisterAliasesKeepsNames | klippy/gcode.py:73-74 | registering a command's aliases removes no command from either table, makes every alias a ready command, and a not-ready one when the entry is `_when_not_ready` |
| GCode.BuiltinBaseCommands | klippy/gcode.py:68-74 | with the constructor's handler list, the emergency stop `M112` and the firmware-restart alias `M999` are usable before the printer is ready |
| GCode.StripAll | klippy/gcode.py:242 | each line of an info message is stripped |
| GCode.LineCall | klippy/gcode.py:170-180 | the handler call of a line carries the line's parameters, and falls back to `cmd_default` exactly when the line names no command or one the active table lacks |
| GCode.RunLinesStep | klippy/gcode.py:160-192 | the batch up to a line is the batch before it followed by that line |
| GCode.CountReply | klippy/gcode.py:236-239 | a reply is not an `ok` |
| GCode.CountAckLine | klippy/gcode.py:228-235 | an acknowledgement line is one `ok` |
| GCode.SaidNoOk | klippy/gcode.py:236-239 | `respond` writes no `ok` and leaves `need_ack` |
| GCode.SaidAllNoOk | klippy/gcode.py:236-243 | nor does a series of responses |
| GCode.ErrorSaidNoOk | klippy/gcode.py:244-249 | `respond_error` writes no `ok` |
| GCode.AckedCount | klippy/gcode.py:228-235 | `ack` writes one `ok` exactly when one is owed and the input is not a file, and then no more is owed |
| GCode.OneAckPerCommand | klippy/gcode.py:174-192 | a line writes exactly one `ok` when it names a command, an acknowledgement was asked for, the input is not a file and the handler returned, and none otherwise |
| GCode.FinishedCount | klippy/gcode.py:181-191 | after the handler call, one `ok` exactly when it returned and one was owed on a non-file input |
| GCode.BatchAcks | klippy/gcode.py:158-193 | a batch writes at most one `ok` per line, and none when no acknowledgement is asked for or the input is a file |
| GCode.RunLine | klippy/gcode.py:174-182 | a line records exactly its handler call, after the calls before it |
| GCode.RunLineDispatches | klippy/gcode.py:170-191 | a line is its handler call, recorded, followed by what the call's outcome calls for |
| GCode.DispatchedCalls | klippy/gcode.py:181-191 | what follows the handler call records no further call |
| GCode.FinishedCalls | klippy/gcode.py:183-191 | what follows the call records no further call |
| GCode.RunLines | klippy/gcode.py:160-192 | each line of a batch records exactly one handler call, after those recorded before |
| GCode.BatchStep | klippy/gcode.py:160-192 | running one more line after the batch up to line `i` gives the batch up to line `i` inclusive |
| GCode.SaidAllCalls | klippy/gcode.py:236-243 | responding records no call and does not switch tables |
| GCode.ErrorSaidCalls | klippy/gcode.py:244-249 | nor does an error response |
| GCode.RegisterAll | klippy/gcode.py:68-74 | the registration loop builds the tables of every entry and its aliases, in order, from empty tables |
| GCode.GCodeParser.constructor | klippy/gcode.py:48-90 | the parser starts not ready on the not-ready table, with the registered tables of all handlers, absolute coordinates and extrusion, no acknowledgement owed and nothing written |
| GCode.GCodeParser.RegisterCommand | klippy/gcode.py:91-99 | the tables become those of one more registration |
| GCode.GCodeParser.Connect | klippy/gcode.py:102-114 | the parser is ready, the ready table answers, and the sequence number advances |
| GCode.GCodeParser.DoShutdown | klippy/gcode.py:118-127 | a ready parser falls back to the not-ready table, requests exit on file input and advances the sequence number; a parser not ready is unchanged |
| GCode.GCodeParser.Respond | klippy/gcode.py:236-239 | the message and a newline are written, except on file input |
| GCode.GCodeParser.RespondError | klippy/gcode.py:244-249 | all but the last line go out as info, then the last as `!! ` and the stripped line |
| GCode.GCodeParser.Ack | klippy/gcode.py:228-235 | `ok`, with the message after it when there is one, is written once when owed on a non-file input |
| GCode.GCodeParser.RespondAll | klippy/gcode.py:236-239 | the responses a handler wrote go out in order |
| GCode.GCodeParser.ProcessLine | klippy/gcode.py:160-192 | one iteration of the loop parses the line, calls its handler, and acknowledges, reports the error, or shuts down, as the model's line semantics define |
| GCode.GCodeParser.Dispatch | klippy/gcode.py:174-191 | the rest of the iteration after the handler call |
| GCode.GCodeParser.Finish | klippy/gcode.py:181-191 | a returned handler is acknowledged, a raised error reported, and any other exception shuts the printer down and reports `Internal error on command` |
| GCode.GCodeParser.FinishReturned | klippy/gcode.py:182-183 | the handler's replies go out, then the acknowledgement |
| GCode.GCodeParser.FinishCrashed | klippy/gcode.py:187-191 | the shutdown message is recorded and reported as an error |
| GCode.GCodeParser.ProcessNext | klippy/gcode.py:160-192 | one turn of the loop takes the state of the batch up to line `i` to that up to line `i` inclusive |
| GCode.GCodeParser.ProcessCommands | klippy/gcode.py:158-193 | the lines run in order as the batch semantics define, and `need_ack` is restored afterwards |
| GCode.GCodeParser.CmdG90 | klippy/gcode.py:702-704 | `G90` selects absolute coordinates |
| GCode.GCodeParser.CmdG91 | klippy/gcode.py:705-707 | `G91` selects relative coordinates |
| GCode.GCodeParser.CmdM82 | klippy/gcode.py:742-744 | `M82` selects absolute extrusion |
| GCode.GCodeParser.CmdM83 | klippy/gcode.py:745-747 | `M83` selects relative extrusion |
| Heater.FirstMatch | klippy/heater.py:142-156 | the index found is that of the first test from `k` whose mask meets the value, or the end when none does |
| Heater.FirstFault | klippy/heater.py:142-156 | a fault check passes exactly when no mask of its chain meets the value (also lines 300-317) |
| Heater.FirstFaultIsFirst | klippy/heater.py:142-156 | the message raised is that of the first meeting test of the chain, so earlier bits take priority (also lines 300-317) |
| Heater.CheckFaults | klippy/heater.py:142-156 | the MAX31865 and MAX31856 checks pass exactly when the low byte of the fault value is 0, the top bit's message winning; a simple reader is never failed by this check (also lines 300-317) |
| Heater.LowByteBits | klippy/heater.py:143-156 | the low byte is zero exactly when none of its eight bits is set, and the pair 0x03 meets the value exactly when bit 1 or bit 0 does |
| Heater.CheckFaultsSimple | klippy/heater.py:288-298 | only a simple reader is checked, and it fails exactly when one of its three low bits is set, open circuit taking priority |
| Heater.ReadCmd | klippy/heater.py:338-341 | the read command is a register read, write flag clear, whose burst ends on the chip's last temperature register: RTD MSB to RTD LSB, LTCBH to LTCBL; a simple reader reads from address 0x00 (also lines 100-101, 180-181, 233-235) |
| Heater.ReadBytes | klippy/heater.py:342-345 | every reader reads between two and four bytes, which fit the firmware's 32-bit value, and the RTD reads its 16-bit word as two (also lines 182-183) |
| Heater.FaultFilter | klippy/heater.py:367-370 | the firmware's fault filter is the RTD word's fault bit 0, nothing on the MAX31856 whose faults the host checks, and on a simple reader exactly 0x4, the "short to Vcc" bit of its fault table (also lines 194-195) |
| Heater.RtdConfigs | klippy/heater.py:184-193 | `RTD.get_configs` writes the configuration register (0x80) with bias, auto mode and fault clear set, the 50 Hz filter bit exactly when chosen, the 3-wire bit exactly for 3 wires, and nothing else |
| Heater.ThermocoupleConfigs | klippy/heater.py:346-366 | as written a simple reader gets no configuration (the constructor's own failure on the unqualified `types` and `averages`, lines 276 and 278, is listed under Left out) |
| Heater.Max31856ConfigAlwaysFails | klippy/heater.py:352 | as written every MAX31856 configuration fails, on the `self.num_wires` the class never defines |
| Heater.ThermocoupleConfigsFixedPairs | klippy/heater.py:346-366 | without that line a MAX31856 gets three register writes, CR0, CR1 and MASK with the write flag, auto-conversion on, the mains filter as chosen, type and averaging combined in CR1, and MASK receiving its over/under-voltage and open-circuit bits, 0x03 |
| Heater.ThermocoupleConfigsFixed | klippy/heater.py:346-366 | the corrected configuration is a list of register-write and value pairs, each write flagged 0x80, equal to the as-written list wherever that one succeeds |
| Heater.SignBitIsTopReadBit | klippy/heater.py:322-345 | the sign bit tested after the shift is the top bit of the bytes read, for both thermocouple readers |
| Heater.MinusOneDecodedWrong | klippy/heater.py:325-326 | as written the 14-bit reading 0x3FFF, which encodes -1, is decoded as -8192 |
| Heater.SignFixFixedRoundTrip | klippy/heater.py:322-329 | the corrected sign fix decodes every two's-complement value of the field, and agrees with the original on non-negative readings |
| Heater.SignFixFixedEncodes | klippy/heater.py:322-329 | every value of the shifted field decodes, by the corrected fix, to a signed value in range whose two's-complement encoding it is |
| Heater.IntegerStageFixed | klippy/heater.py:319-329 | a reading fails exactly for a simple reader with a fault bit set; otherwise a reading that fits its field becomes the signed value it encodes |
| Heater.IntegerStage | klippy/heater.py:319-329 | as written a reading fails exactly for a simple reader with a fault bit set; with the sign bit clear it equals the corrected stage, with it set it is -(corrected value + sign weight + 1) |
| Klippy.RawGet | klippy/klippy.py:78-80 | the parser's `get` yields a value exactly when the section holds the (lower-cased) option, that option's text; otherwise the parser's own missing-section or missing-option error, which `get_wrapper` re-raises unchanged |
| Klippy.Checked | klippy/klippy.py:83-100 | the bound checks pass exactly when `minval <= v <= maxval`, `v > above` and `v < below` hold for every bound given, and then return `v` itself; a value under `minval` fails with the minimum error |
| Klippy.Wrapped | klippy/klippy.py:71-101 | `get_wrapper` succeeds exactly when the default is used for an absent option, or the option is present, parses and lies within every bound; a consulted value is the parsed text within the bounds; an unconsulted one is the default, unchecked |
| Klippy.WrappedErrors | klippy/klippy.py:76-98 | a consulted missing option raises the parser's error, an unparsable one the "Unable to parse option" error, and a parsed one exactly the error of the first failing bound |
| Klippy.BooleanState | klippy/klippy.py:112-114 | `getboolean` accepts, ignoring case, "1", "yes", "true", "on" as true and "0", "no", "false", "off" as false, and nothing else |
| Klippy.Choice | klippy/klippy.py:115-121 | `getchoice` returns the mapped value exactly when the text is a key of `choices`; a failed `get` passes its error on, and a text outside the keys raises the "not a valid choice" error |
| Klippy.PrefixSections | klippy/klippy.py:126-128 | `get_prefix_sections` keeps exactly the section names starting with the prefix |
| Klippy.PrefixSectionsAppend | klippy/klippy.py:126-128 | the filter keeps file order: filtering two runs of sections filters each run and concatenates the results |
| Klippy.ObjectsWithPrefixAnywhere | klippy/klippy.py:185-186 | every object whose name starts with the prefix is returned, with its own value |
| Klippy.HeaterFanMatchesFan | klippy/klippy.py:185-186 | the test is containment, not a prefix match: `heater_fan` is returned for the prefix "fan" though it does not start with it |
| Klippy.McuNotices | klippy/klippy.py:279-280 | every micro-controller is told to shut down, once each, in list order |
| Klippy.Shutdown | klippy/klippy.py:274-284 | the printer ends shut down; one already shut down is unchanged; otherwise the message is kept with the shutdown text appended, and the earlier notices are followed by one notice per mcu in list order and then the toolhead's when there is one |
| Klippy.FirstShutdownWins | klippy/klippy.py:274-284 | over any series of `invoke_shutdown` calls only the first acts: its message is kept and each component is told once |
| Klippy.StaysShutDown | klippy/klippy.py:274-276 | once shut down, further `invoke_shutdown` calls leave the state as it is |
| Klippy.WebState | klippy/klippy.py:324-329 | the web state is "H" exactly when shut down, "C" exactly when running but the G-code side is not ready, and `None` exactly otherwise |
| Klippy.NewGCode | klippy/klippy.py:152 | the printer's new G-code parser is not ready, has the printer's input mode and the built-in command table |
| Klippy.Printer.constructor | klippy/klippy.py:144-163 | a new printer holds only the `gcode` object, no config, options, mcus or run result, the startup message and no shutdown |
| Klippy.Printer.AddObject | klippy/klippy.py:181-182 | the object is stored under its name and nothing else in the table changes |
| Klippy.Printer.GetObject | klippy/klippy.py:183-184 | a lookup finds an object exactly when the name is registered, and then the one registered under it |
| Klippy.Printer.GetObjectsWithPrefix | klippy/klippy.py:185-186 | the result holds exactly the objects whose name contains the prefix, each with its own value |
| Klippy.Printer.ReadConfig | klippy/klippy.py:187-213 | after loading, the printer holds the parsed file and the list of mcus |
| Klippy.Printer.InvokeShutdown | klippy/klippy.py:274-284 | callable in any state, including a shut-down printer whose parser a later `gcode.connect()` made ready again: the printer ends shut down with web state "H"; its state is the shutdown step of the old one, so a second call changes nothing, and the G-code parser is shut down only by the first, which leaves it not ready |
| Klippy.Printer.NotifyMcus | klippy/klippy.py:279-280 | every mcu's shutdown notice is appended in list order |
| Klippy.Printer.RequestExit | klippy/klippy.py:288-290 | the run result is recorded and the reactor is ended |
| Klippy.Printer.InvokeAsyncShutdown | klippy/klippy.py:285-287 | the message is kept and the run ends with result "shutdown" |
| Klippy.Printer.CurrentState | klippy/klippy.py:324-329 | "H" exactly when shut down, "C" exactly when running with the G-code side not ready, nothing exactly when running and ready |
| Klippy.ConfigWrapper.constructor | klippy/klippy.py:68-70 | the wrapper refers to its printer and its section |
| Klippy.ConfigWrapper.GetWrapper | klippy/klippy.py:71-101 | the result is the wrapped lookup of the option, and the (lower-cased) section and option are recorded as used exactly when the file was consulted |
| Klippy.ConfigWrapper.Get | klippy/klippy.py:102-103 | `get` is the wrapped text lookup, without bounds, recording the option when consulted |
| Klippy.ConfigWrapper.GetInt | klippy/klippy.py:104-106 | `getint` is the wrapped integer lookup through Python 2 `int()` (`Text.ParseInt`) on the stripped value, and a value read from the file lies within `minval` and `maxval` |
| Klippy.ConfigWrapper.GetFloat | klippy/klippy.py:107-111 | `getfloat` is the wrapped number lookup, and a value read from the file meets all four bounds, `above` and `below` strictly |
| Klippy.ConfigWrapper.GetBoolean | klippy/klippy.py:112-114 | `getboolean` is the wrapped lookup through the eight boolean words |
| Klippy.ConfigWrapper.GetChoice | klippy/klippy.py:115-121 | `getchoice` is the choice check applied to the wrapped text lookup, default included |
| Klippy.ConfigWrapper.GetSection | klippy/klippy.py:122-123 | a new wrapper of the same printer for the named section |
| Klippy.ConfigWrapper.HasSection | klippy/klippy.py:124-125 | a section exists exactly when the file holds it, and, with the file's sections listed, exactly when `get_prefix_sections` of its own name finds it |
| Klippy.ConfigWrapper.GetPrefixSections | klippy/klippy.py:126-128 | the sections starting with the prefix, no more of them than the file has, each one a section of the file when the sections are listed |
| Stepper.MotorEnableStep | klippy/stepper.py:66-70 | a request appends at most one write, keeps the earlier writes, and records that the motor needs enabling exactly when it is off; it writes exactly when there is a pin and the motor is not already in the requested state, and then writes the requested state at the request's time |
| Stepper.RepeatedEnableSilent | klippy/stepper.py:66-70 | after one request, repeating the same enable state any number of times writes nothing more and changes nothing |
| Stepper.NoPinNoWrites | klippy/stepper.py:66-70 | without an enable pin no write is ever made, and the flag follows the last request |
| Stepper.WritesAlternate | klippy/stepper.py:66-70 | successive writes to the enable pin alternate between on and off |
| Stepper.WritesPrefix | klippy/stepper.py:66-70 | earlier pin writes are never taken back and the presence of a pin never changes |
| Stepper.FirstWrite | klippy/stepper.py:66-70 | the first write after a state turns the motor on exactly when that state says it needs enabling |
| Stepper.PrinterStepper.constructor | klippy/stepper.py:12-24 | the name is the section without a leading `stepper_`, and a new motor needs enabling and has no writes |
| Stepper.PrinterStepper.MotorEnable | klippy/stepper.py:66-70 | the state is the enable step of the old one, and the motor afterwards needs enabling exactly when it was turned off |
| Stepper.SetupAsWritten | klippy/stepper.py:136-166 | as written, no phase count means no tracking; otherwise tracking is dropped exactly when the accuracy reaches half the phases and else keeps the phases and the configured phase; the default accuracy is `phases // 2 - 1`, so without an accuracy option tracking always stays on |
| Stepper.SetupAgrees | klippy/stepper.py:155-166 | the corrected setup differs from the source only for one phase without an accuracy option |
| Stepper.Setup | klippy/stepper.py:155-166 | for the corrected setup (default accuracy `max(phases // 2 - 1, 0)`, not the source's `phases // 2 - 1`), tracking is dropped exactly when the accuracy reaches half the phases, so without an accuracy option it stays exactly when there are at least 2 phases |
| Stepper.CeilPositive | klippy/stepper.py:158-162 | `ceil` of a positive accuracy option is at least 1 and the least integer not below it |
| Stepper.PhaseDelta | klippy/stepper.py:197-203 | the phase error is raised exactly when the phase difference lies strictly inside the window `(accuracy, phases - accuracy)`; otherwise the correction lies within the accuracy and is the difference or the difference less one turn |
| Stepper.HomedOffset | klippy/stepper.py:188-204 | without tracking, with the motor off, or on the first tracked call, the result is `-homing_offset`; only that first tracked call changes the state, by recording `pos mod phases`; a failure is the `EndstopError` naming the phase got and the phase recorded |
| Stepper.SamePhaseAccepted | klippy/stepper.py:197-204 | homing again at the recorded phase succeeds with no correction |
| Stepper.SetupAcceptsRecordedPhase | klippy/stepper.py:155-204 | with the corrected default accuracy any tracked stepper accepts the phase it recorded on its first homing |
| Stepper.OnePhaseRejectsItself | klippy/stepper.py:155-166 | as written, one phase gives default accuracy -1, tracking stays on, and the second homing at the same position raises the phase error |
| Stepper.AsWrittenAcceptsRecordedPhase | klippy/stepper.py:155-204 | as written, a stepper with at least two phases, or with an accuracy option, accepts at its second homing the phase it recorded at its first |
| Stepper.PrinterHomingStepper.constructor | klippy/stepper.py:131-166 | the tracking state is the as-written phase setup of the options read, one-phase default accuracy -1 included |
| Stepper.PrinterHomingStepper.SetHomingOffset | klippy/stepper.py:184-185 | the homing offset becomes the value given |
| Stepper.PrinterHomingStepper.GetHomedOffset | klippy/stepper.py:188-204 | the result and the new tracking state are those of the homed-offset step from the old state, the motor flag and the mcu position |
| Drivers.DriverSection | klippy/drivers/__init__.py:12-13 | a stepper naming a driver reads the section "driver <name>", otherwise its own section |
| Drivers.DriverTypeValue | klippy/drivers/__init__.py:19 | `config.get('type', 'default')` never fails: it is the option's text when present and "default" otherwise |
| Drivers.MappingClasses | klippy/drivers/__init__.py:14-18 | the mapping sends DEFAULT, A4988, DRV8825 and TMC2100 to `DriverBase`, TMC2130 to `TMC2130`, and holds no other key |
| Drivers.Lookup | klippy/drivers/__init__.py:14-19 | the upper-cased type DEFAULT, A4988, DRV8825 or TMC2100 gives `DriverBase`, TMC2130 gives `TMC2130`, and any other type is missing |
| Drivers.GetDriver | klippy/drivers/__init__.py:11-21 | the class built is the one the type looks up, always from the driver section; a missing type is the `KeyError` on the upper-cased type |
| Drivers.GetDriverClasses | klippy/drivers/__init__.py:11-21 | `get_driver` builds `DriverBase` exactly for the four plain type names, `TMC2130` exactly for "TMC2130", and raises `KeyError` on the upper-cased type otherwise, always passing the chosen section on |
| Drivers.DefaultIsDriverBase | klippy/drivers/__init__.py:14-19 | a section without a `type` option gets the plain `DriverBase` |
| Drivers.LookupIgnoresCase | klippy/drivers/__init__.py:19 | type names that differ only in letter case select the same class |
| GraphStats.KeyFold | scripts/graphstats.py:29-36 | the token loop fails with the unpacking error exactly when some token neither ends in ':' nor holds '=' |
| GraphStats.KeyStep | scripts/graphstats.py:30-36 | a single token fails exactly when it neither ends in ':' nor holds '='; a token ending in ':' becomes the prefix, "mcu:" meaning none, and leaves the fields alone |
| GraphStats.KeyFoldNone | scripts/graphstats.py:29-36 | once one token fails, the whole line fails whatever follows |
| GraphStats.FieldToken | scripts/graphstats.py:35-36 | a token `name=value` sets the key `prefix + name` to `value`, split at the first '=', overwriting an earlier one |
| GraphStats.LineRecord | scripts/graphstats.py:22-40 | a record comes only from a line tagged `Stats` or `INFO:root:Stats` whose tokens parse and whose `bytes_write` is present and not "0"; its fields are those of the tokens less any `#sampletime`, which the time overwrites, and its time is the second word without its last character; an untagged line yields nothing |
| GraphStats.LineRecordOutcome | scripts/graphstats.py:22-40 | the converse: a tagged line of two or more words raises exactly when a token is bad or, on a non-idle line, its time does not parse; an idle line yields nothing; a non-idle line whose tokens fold and whose time parses yields exactly its record; a line of fewer than three words yields nothing |
| GraphStats.LineStep | scripts/graphstats.py:21-40 | one pass of the loop over the file computes the line's outcome |
| GraphStats.ParseLines | scripts/graphstats.py:18-42 | the log gives at most one record per line, each with a non-zero `bytes_write` and no `#sampletime` among its fields |
| GraphStats.Kept | scripts/graphstats.py:37-40 | the indices of the lines that yield a record, strictly ascending, each listed exactly when its line yields one |
| GraphStats.ParseLinesOk | scripts/graphstats.py:18-42 | the log parses exactly when every one of its lines parses |
| GraphStats.ParseLinesKept | scripts/graphstats.py:18-42 | a parsed log's records are, one for one and in file order, the records of the lines that yield one |
| GraphStats.ParseLinesCollect | scripts/graphstats.py:18-42 | the parse of the log is its line outcomes gathered in order |
| GraphStats.CollectOk | scripts/graphstats.py:18-42 | gathering line outcomes succeeds exactly when none is an error |
| GraphStats.CollectKept | scripts/graphstats.py:37-40 | a successful gathering holds the records of the kept outcomes, in order |
| GraphStats.ExtendPrefix | scripts/graphstats.py:40 | records already collected stay in front of what a line adds |
| GraphStats.ParseLinesAppend | scripts/graphstats.py:18-42 | records keep file order: parsing two stretches of a log and joining the results is parsing the whole |
| GraphStats.UntaggedIgnored | scripts/graphstats.py:22-26 | a log with no tagged line yields no records |
| GraphStats.ErrStops | scripts/graphstats.py:18-42 | the first failing line ends the parse: its error is the result of the whole log |
| GraphStats.ErrPersists | scripts/graphstats.py:18-42 | an error in a leading stretch of lines is the result of the whole log |
| GraphStats.CollectKeys | scripts/graphstats.py:27-36 | the token loop computes the fold of the tokens, so its failure and its fields are those the lemmas above describe |
| GraphStats.ParseLog | scripts/graphstats.py:18-42 | the loop over the lines returns the records or the first error of the line-by-line parse |
| Text.LStrip | klippy/gcode.py:162 | `lstrip` leaves no leading whitespace and is no longer than its input |
| Text.LStripSuffix | klippy/gcode.py:162 | what `lstrip` leaves is a suffix of the input, and only whitespace goes |
| Text.RStrip | klippy/gcode.py:162 | `rstrip` leaves no trailing whitespace and is no longer than its input |
| Text.RStripPrefix | klippy/gcode.py:162 | what `rstrip` leaves is a prefix of the input, and only whitespace goes |
| Text.Strip | klippy/gcode.py:162 | `strip` leaves whitespace at neither end and is no longer than its input (also lines 168, 177, 210 and `klippy/klippy.py:140`) |
| Text.StripMeaning | klippy/gcode.py:162 | what `strip` leaves is a contiguous piece of the input with only whitespace before and after it |
| Text.RStripOf | klippy/gcode.py:162 | trailing whitespace after a core that does not end in whitespace is exactly what `rstrip` removes |
| Text.LStripOf | klippy/gcode.py:162 | leading whitespace before a core that does not start with whitespace is exactly what `lstrip` removes |
| Text.StripUnique | klippy/gcode.py:162 | a trimmed core padded by whitespace on both sides strips back to that core |
| Text.StripIdempotent | klippy/gcode.py:162 | stripping an already stripped line changes nothing |
| Text.StripOfTrimmed | klippy/gcode.py:162 | a string with whitespace at neither end is its own `strip` |
| Text.Upper | klippy/gcode.py:167 | `upper` keeps the length and upper-cases each ASCII letter in place, leaving every other character (also lines 210, 279 and `klippy/drivers/__init__.py:19`) |
| Text.Lower | klippy/klippy.py:211 | `lower` keeps the length and lower-cases each ASCII letter in place, leaving every other character (also line 216) |
| Text.UpperCharEq | klippy/drivers/__init__.py:19 | two characters upper-case alike exactly when they are the same letter up to case |
| Text.UpperEqIff | klippy/drivers/__init__.py:19 | two strings upper-case alike exactly when they are equal ignoring ASCII case |
| Text.UpperIdempotent | klippy/gcode.py:167 | upper-casing twice is upper-casing once |
| Text.Find | klippy/gcode.py:163 | `find` of one character fails exactly when it is absent, and otherwise gives its first index |
| Text.StartsWithContains | klippy/klippy.py:128 | a prefix also occurs as a substring |
| Text.SplitOn | klippy/gcode.py:202 | `split` on one character gives at least one piece, and no piece holds the separator (also lines 376 and 389) |
| Text.JoinSplit | klippy/gcode.py:202 | joining the pieces of a split with the separator gives the string back |
| Text.SplitJoin | klippy/gcode.py:202 | splitting a join of separator-free pieces gives the pieces back |
| Text.SplitOnce | klippy/gcode.py:278 | `split(c, 1)` gives the whole string exactly when `c` is absent, and otherwise the text before the first `c`, which holds none, and the rest, which rejoin to the string (also `scripts/graphstats.py:35`) |
| Text.WordLen | klippy/gcode.py:278 | the leading word ends at the first whitespace or at the end of the string |
| Text.Words | klippy/gcode.py:278 | whitespace `split()` gives nonempty words free of whitespace (also `scripts/graphstats.py:22`) |
| Text.WordsJoin | scripts/graphstats.py:22 | words joined with single spaces split back into the same words |
| Text.ParseInt | klippy/gcode.py:262-263 | `int()` accepts exactly an optionally signed run of decimal digits, optionally surrounded by whitespace and with whitespace allowed between the sign and the digits; the value is that of the digits, negated after a `-` |
| Text.SpaceAfterSign | klippy/gcode.py:262-263 | `int("- 5")` is -5: whitespace after the sign is skipped |
| Text.SpaceAroundSign | klippy/gcode.py:262-263 | `int(" +\t7 ")` is 7: whitespace around the literal and after the sign is skipped |
| Text.NatToString | klippy/gcode.py:262-263 | the decimal text of a number is a run of digits with no leading zero unless the number is 0 |
| Text.NatToStringValue | klippy/gcode.py:262-263 | the decimal digits of a number read back as that number |
| Text.ParseIntToString | klippy/gcode.py:262-263 | `int(str(n))` is `n` for every integer |

## Left out

- Concurrency: `irq_disable`/`irq_save` sections and the retry loop of `console_pop_input`, which exists because the receive interrupt may append while the task copies. Each interrupt handler and each task step is one atomic transition.
- The scheduler and the command layer: `sched_add_timer`, `sched_del_timer`, `sched_wake_task`, `shutdown`, `sendf`, `command_find_block`, `command_dispatch`, `command_encodef`. They are recorded as effects (armed timers, wake flags, reports, the shutdown message) or taken as inputs: the block length found, and the encoded message with `msglen <= max_size`.
- `oid_alloc`, `oid_lookup`, `foreach_oid`: the object table is a map from oid to record. A newly allocated record is taken to be zeroed, and `foreach_oid` is taken to visit oids in ascending order. basecmd.c is not part of this model.
- Hardware readiness bits and data registers: ADSC, the ADGDR done flag, EOC, the conversion results, and the SPI and UART receive registers. They are inputs of the calls that read them. `spi_transfer` is a supplied reply per byte.
- Vendor register macros not shown in the repository are constants of the model with the bit positions the code relies on. This covers avr/io.h, the LPC17xx SPI and ADC macros, and the STM32 `SPI_CR1_*`.
- The STM32 pin-decoding macros that `src/stm32f1xx/adc.c` uses are not defined in any visible header, so the STM32 ADC setup takes the decoded (port, pin) pair.
- The USB stack calls and the descriptor table of `src/lpc176x/serial_usb.c`, the libmaple CDC-ACM calls of the STM32 drivers, and the UART vendor initialisation: foreign code. Only the bytes handed over are modelled.
- `fillUnusedRAM` and the MPU guard region programmed by `configureStackSizeLimit`: memory-protection hardware. Only the address arithmetic is modelled.
- The LPC176x burst-mode ADC path and the disabled ADC interrupt handler: dead code.
- `pool_destroy`: it calls `free` on memory `malloc` never returned.
- Mempool.Pool.constructor: addresses are unbounded naturals. For a region smaller than the header, the model's `end` lies past 2^32, where the C pointer addition `p->next + size` would wrap. The wrap of the `size_t` subtraction itself is modelled. `pool_create` has no live caller: its call in `src/lpc176x/custom_start.c:70-71` is commented out.
- The simulator `printf` branches and the simulator backends: test scaffolding.
- Floating point: the thermistor, linear and RTD `calc_temp`/`calc_adc` curves, and the scaling by `val_a` after the integer stage of `Thermocouple.calc_temp`; heater control; the TMC2130 current and stealth-speed calculations; stepper `_dist_to_time`; the endstop-alignment rounding of `homing_endstop_align_zero`; G-code moves and arcs.
- Stepper: the override of the endstop accuracy in file-output mode, `klippy/stepper.py:167-168`, depends on the mcu's output mode and is not modelled.
- Python's `float()`, and so ConfigParser's `getfloat` conversion, is a parameter (`toFloat`, `conv`) of the members that use it. ConfigParser's `getint` is not a parameter: it is Python 2 `int()` on the stripped value, written out as `Text.ParseInt`, base 10 only, with whitespace also skipped between the sign and the digits. Reading the config file is left out: its parsed content is given. The DEFAULT section of `RawConfigParser` is not modelled.
- The reactor, logging, `os.read`/`os.write`, `Printer.run`'s restart loop, `web_getstatus` and `web_getconfig`: host I/O and float formatting.
- `find_print_restarts` and the plotting of `scripts/graphstats.py`: float times and graphics.
- The `Sensors` table of `klippy/heater.py` lists the MAX31855 chip under the misspelt key `simlpe`, `klippy/heater.py:389`. The table is outside the functions modelled, so its lookup is not part of this model.
- `Thermocouple.__init__` looks up `types` and `averages` without `self.`, `klippy/heater.py:276` and `klippy/heater.py:278`, so as written constructing any thermocouple reader raises `NameError` and `get_configs` and `calc_temp` are never reached. The model starts from a constructed reader, whose type and averaging bits are the `Max31856` fields, and describes what those methods would do.
- G-code handlers: a handler's effect is a supplied `Outcome` (its responses, its own `ack`, a raised error or another exception), which cannot change the parser's state. So a handler that shuts the printer down from inside, such as `cmd_M112` calling `invoke_shutdown` (`klippy/gcode.py:774`), which reaches `do_shutdown` (`klippy/gcode.py:118-127`) and switches to the not-ready table in the middle of a batch, is not captured. Only the shutdown after an unexpected exception is modelled.
- Klippy.Printer.ReadConfig: stands for `_load_config` without the component set-up calls it makes, which construct objects outside this model.
- AdcMarker: the board classes `LpcAdc.LpcAdcUnit` and `Stm32Adc.Stm32AdcUnit` keep the marker as written, since they model the firmware as it is. The corrected marker is stated beside them and is not wired into them.

## Findings

| source | as written | input that shows it | evidently intended | confidence | as-written member | corrected member |
|---|---|---|---|---|---|---|
| src/adccmds.c:90-91 | `state = sample_count + 1` is stored in a `uint8_t` | a query with `sample_count` 255 sets `state` to 0, so the first read adds to a stale value instead of reseeding | reject a `sample_count` of 255, or widen `state` | not executed | AdcCmds.QueryWrapsAt255 | AdcCmds.QueryChecked |
| src/adccmds.c:122 | the claim `a->state++` wraps in `uint8_t` | claiming a window of 255 reads wraps `state` to 0, and the next window sums onto the claimed value | the claimed state must stay above `sample_count` so that the next window reseeds | not executed | AdcCmds.ClaimWrapsAt255 | AdcCmds.CheckedWindowsReseed |
| src/lpc176x/adc.c:149-165 | `CFG_CURRENT == 0` means "free", but 0 is also ADC channel 0 | channel 0: every sample restarts the conversion and never returns ready | a "free" value distinct from every channel number | not executed | AdcMarker.ChannelZeroNeverReady | AdcMarker.FixedOwnerKeepsConverter |
| src/stm32f1xx/adc.c:126-131 | `CFG_CHAN == 0` means "free", but 0 is also ADC channel 0 | a conversion started for channel 0 leaves the marker free, so a sample of channel 1 starts a conversion over it | a "free" value distinct from every channel number | not executed | AdcMarker.ChannelZeroDoesNotBlock | AdcMarker.SampleFixed |
| src/spibus.c:104-125 | the guard `1 <= len && len <= 32` admits 32, and then `len + 1` bytes are stored into the 32-byte `resp` | `spibus_read` with `len` 32 stores to `resp[32]` | store at most 32 bytes, for example by rejecting `len >= 32` | not executed | SpiBus.ReadOverflowsAt32 | SpiBus.SpiBuses.Read |
| src/spibus.c:58-76 | a write stores `len + 1` bytes with no upper bound against `resp[32]` | `spibus_write` with 32 data bytes stores to `resp[32]` | bound `len` so that the command byte and the data fit | not executed | SpiBus.WriteOverflowsAt32 | SpiBus.SpiBuses.Write |
| src/lpc176x/serial_uart.c:197-201 | the inner loop copies until a '%' and stops at neither '\n' nor the end of the string | `serial_uart_printf("USB init done\n")` (src/lpc176x/serial_usb.c:324) reads past the end of its format | stop the copy at '\n' | not executed | LpcSerialUart.UsbInitMessageOverruns | LpcSerialUart.FixedUsbInitMessage |
| src/lpc176x/spi.c:62-66 | the search caps the prescale at 256, which the 8-bit counter mask turns into 0 | a 100 kHz target at a 100 MHz peripheral clock gives SPCCR 0 | cap at the largest even counter, 254 | not executed | LpcSpi.SlowTargetCounterIsZero | LpcSpi.ClockCounterFixed |
| src/stm32f1xx/spi.c:68-124 | the prescale search ends at 8, which the 3-bit BR mask turns into 0, the fastest divider | a 100 kHz target at a 36 MHz bus clock selects BR 0, SCK 18 MHz | clamp the prescale to 7, the slowest divider | not executed | Stm32Spi.SlowTargetGetsFastestDivider | Stm32Spi.GetConfigFixed |
| src/sam3x8e/spi.c:104-109 | `uint16_t _lenTmp = len - 1` wraps for `len` 0 | `spi_transfer_len(data, 0)` touches 65536 bytes | an empty transfer does nothing | not executed | Sam3x8eSpi.EmptyTransferTouches65536 | Sam3x8eSpi.Sam3xSpiPort.TransferLen |
| klippy/heater.py:352 | `Thermocouple.get_configs` reads `self.num_wires`, which the class never sets | any MAX31856 configuration raises `AttributeError` | drop the 3-wire test, which belongs to the RTD | not executed | Heater.Max31856ConfigAlwaysFails | Heater.ThermocoupleConfigsFixedPairs |
| klippy/heater.py:325-326 | the sign fix computes `-((adc & 0x1FFF) + 1)` | the 14-bit reading 0x3FFF, which is -1 in two's complement, decodes as -8192 | `(adc & 0x1FFF) - 0x2000`, the two's-complement value | not executed | Heater.MinusOneDecodedWrong | Heater.SignFixFixedRoundTrip |
| klippy/stepper.py:155-166 | the default accuracy `phases // 2 - 1` is -1 for one phase, and -1 is below `phases // 2`, so tracking stays on | `homing_stepper_phases = 1` with no accuracy: the second homing at the same position raises "incorrect phase" | an accuracy of at least 0 | not executed | Stepper.OnePhaseRejectsItself | Stepper.SetupAcceptsRecordedPhase |
