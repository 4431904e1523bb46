# FreeRTOS demo drivers and tasks, modelled in Dafny

This project models the small pieces of C that the STM32F4 menu-system repository carries alongside its
FreeRTOS 8.2.1 tree, and it proves what those pieces promise. There is one Dafny module per C file:

- `Str75xSerial` (`str75x_serial.dfy`) is the interrupt-driven UART0 driver of the ARM7 STR75x demo. It has
  a receive queue and a transmit queue, plus the `xQueueEmpty` flag. That flag lets `xSerialPutChar` write
  straight to the data register while the transmitter is idle. The C state is the class `Uart0Driver`. Its
  operations are proved against functions on a `Port` value. Lemmas about those functions give:
  - how many bytes a string call gets onto the line;
  - that transmitted bytes leave in the order they were accepted;
  - that received bytes are delivered in the order they arrived.
- `NiosSerial` (`nios_serial.dfy`) is the Nios II Cyclone III UART driver. Its interrupt enables live in a
  shadow copy of the control register, `uartControl`. The model decodes the control and status words into
  records, and the lemmas tie each bit operation the C performs to one field of the record. The class
  `UartDriver` is proved against the same kind of port functions and FIFO lemmas. One extra lemma covers
  the receive interrupt once a full queue has masked it.
- `MenuTouch` (`menu_touch.dfy`) is `menu_touch_gesture`. It turns the first and last touch coordinates
  into a click, a swipe in one of four directions, or nothing. The model keeps the `int16_t` wrap of the
  coordinate difference.
- `CliCommands` (`cli_commands.dfy`) holds the FreeRTOS+CLI demo commands:
  - the table of the five registered commands;
  - the two statistics commands;
  - the two echo commands, which are re-entrant and keep their progress in a static counter;
  - the `trace start|stop` command.
- `DacEx` (`dac_ex.dfy`) is the STM32F7 HAL DAC extension:
  - dual-channel get and set;
  - triangle and noise wave generation on the control register;
  - the channel-2 DMA completion and error callbacks.
- `UipTask` (`uip_task.dfy`) is the uIP task of the ARM9 STR91x web-server demo:
  - the MAC address set-up;
  - the bounded retry for a transmit buffer;
  - the assembly of an outgoing frame;
  - the dispatch of a received frame;
  - the periodic pass over the connections.
- `Lm3s811Demo` (`lm3s811_demo.dfy`) is the LM3S811 demo's `main.c`:
  - the button task and UART interrupt that send one message a character at a time;
  - the check task's sticky PASS/FAIL report;
  - the print task's LCD position counters.

There are three small support modules:
- `KernelQueue` covers the non-blocking FreeRTOS queue send and receive on a bounded FIFO.
- `CStrings` covers the bytes of a C string before its terminator.
- `Streams` holds one sequence-regrouping lemma used by the FIFO proofs.

Inputs that come from hardware, from the kernel or from code outside these files become parameters:
- whether a queue could be allocated;
- successive readings of an interrupt status register;
- whether a transmit FIFO is full;
- the buffers the Ethernet driver hands out;
- the lengths that uIP leaves in `uip_len`;
- the successive touch samples;
- the results of the health checks.

Notes where the model follows the code rather than the prose around it:
- Both serial drivers create the transmit queue with `uxQueueLength + 1` slots, not `uxQueueLength`.
  The model wraps that sum at 2^32, as the `unsigned portBASE_TYPE` argument does. On the STR75x, one more
  byte goes straight to the data register when the transmitter is idle. A fresh STR75x port therefore takes
  `uxQueueLength + 2` bytes of one string (`FreshPortAcceptsLengthPlusTwo`).
- The Nios driver's comment says the receive interrupt is re-enabled "when data is removed" from the
  queue. The code sets `RRDY` again only in the branch of `xSerialGetChar` where the receive FAILS, that is,
  once the queue is empty. `ReceiveStaysMaskedUntilEmptyRead` states exactly that.
- The Nios bit positions (PE, FE, TRDY, RRDY, DCTS, RTS) are the Altera Avalon UART register layout. The
  header `altera_avalon_uart_regs.h` that defines them is not part of this model.
- The STM32F7 DAC field constants (`DAC_CR_WAVE1`, `DAC_CR_MAMP1`, `DAC_CR_WAVE1_0`, `DAC_CR_WAVE1_1`,
  `DAC_ALIGN_8B_R`, `HAL_DAC_ERROR_DMA`) come from headers that are not part of this model. They are a
  parameter record, and the lemmas hold for every choice of them that has the stated shape.

## Model

| member | source | states |
|---|---|---|
| KernelQueue.Send | FreeRTOSV8.2.1/FreeRTOS/Demo/NiosII_CycloneIII_DBC3C40_GCC/RTOSDemo/serial.c:157 | a send succeeds exactly when the queue has a free slot; the item then goes to the tail with the old items unchanged in front of it, and otherwise the queue is untouched |
| KernelQueue.Receive | FreeRTOSV8.2.1/FreeRTOS/Demo/NiosII_CycloneIII_DBC3C40_GCC/RTOSDemo/serial.c:251 | a receive yields an item exactly when the queue is non-empty; the item is the oldest one, and it followed by the rest of the queue gives back the old queue |
| CStrings.BeforeNul | FreeRTOSV8.2.1/FreeRTOS/Demo/ARM7_STR75x_IAR/serial/serial.c:208-213 | the bytes a NUL-terminated walk visits form a prefix of the buffer that holds no NUL and is followed by the NUL when there is one |
| Str75xSerial.Initial | FreeRTOSV8.2.1/FreeRTOS/Demo/ARM7_STR75x_IAR/serial/serial.c:117-159 | right after a successful init, both queues are empty, the transmitter is marked idle and the port invariant holds |
| Str75xSerial.PutChar | FreeRTOSV8.2.1/FreeRTOS/Demo/ARM7_STR75x_IAR/serial/serial.c:217-246 | a put succeeds exactly when the transmitter is idle or the transmit queue has room; when idle the byte goes straight to the line, otherwise it is queued; the transmitter is busy afterwards, and the outbound stream grows by the byte exactly when the put succeeds |
| Str75xSerial.GetChar | FreeRTOSV8.2.1/FreeRTOS/Demo/ARM7_STR75x_IAR/serial/serial.c:175-190 | a get returns a byte exactly when the receive queue is non-empty; that byte is the oldest, and it is removed; otherwise nothing changes |
| Str75xSerial.TransmitInterrupt | FreeRTOSV8.2.1/FreeRTOS/Demo/ARM7_STR75x_IAR/serial/serial.c:262-278 | a transmit interrupt moves the oldest queued byte to the line, or marks the transmitter idle when the queue is empty; the outbound stream is unchanged |
| Str75xSerial.ReceiveInterrupt | FreeRTOSV8.2.1/FreeRTOS/Demo/ARM7_STR75x_IAR/serial/serial.c:280-288 | a received byte is appended to the receive queue when it has room and dropped otherwise; the transmit side is untouched |
| Str75xSerial.ServiceOnce | FreeRTOSV8.2.1/FreeRTOS/Demo/ARM7_STR75x_IAR/serial/serial.c:262-287 | one pass of the interrupt loop keeps the capacities, the outbound stream and the invariant, and appends the received byte exactly when the receive bit is set and the queue has room |
| Str75xSerial.PendingPrefix | FreeRTOSV8.2.1/FreeRTOS/Demo/ARM7_STR75x_IAR/serial/serial.c:260-289 | the readings the do-while loop services are the longest prefix of readings that all show a pending interrupt |
| Str75xSerial.Serviced | FreeRTOSV8.2.1/FreeRTOS/Demo/ARM7_STR75x_IAR/serial/serial.c:260-289 | the interrupt routine services at least its first reading, and only a prefix of the readings |
| Str75xSerial.ServiceAll | FreeRTOSV8.2.1/FreeRTOS/Demo/ARM7_STR75x_IAR/serial/serial.c:260-289 | servicing any readings keeps the capacities, the outbound stream and the port invariant |
| Str75xSerial.Isr | FreeRTOSV8.2.1/FreeRTOS/Demo/ARM7_STR75x_IAR/serial/serial.c:255-294 | the whole interrupt routine keeps the outbound stream and the port invariant |
| Str75xSerial.ServiceAllReceives | FreeRTOSV8.2.1/FreeRTOS/Demo/ARM7_STR75x_IAR/serial/serial.c:280-288 | while the receive queue has room for them, the bytes received across the serviced readings are appended in arrival order |
| Str75xSerial.PutBytes | FreeRTOSV8.2.1/FreeRTOS/Demo/ARM7_STR75x_IAR/serial/serial.c:208-213 | putting a run of bytes leaves the receive side alone, leaves the transmitter busy if any byte was offered, and keeps the invariant |
| Str75xSerial.PutCharRoom | FreeRTOSV8.2.1/FreeRTOS/Demo/ARM7_STR75x_IAR/serial/serial.c:217-246 | one put succeeds exactly when there is room (the idle direct write or a free slot), then uses up one unit of it and adds the byte to the outbound stream; without room it changes nothing |
| Str75xSerial.PutBytesAcceptsPrefix | FreeRTOSV8.2.1/FreeRTOS/Demo/ARM7_STR75x_IAR/serial/serial.c:193-246 | a string call adds to the outbound stream exactly the longest prefix of the string that fits the room left (queue slots plus the idle direct write), in order |
| Str75xSerial.PutString | FreeRTOSV8.2.1/FreeRTOS/Demo/ARM7_STR75x_IAR/serial/serial.c:193-214 | definition with no contract of its own: the bytes `vSerialPutString` offers are those before the NUL; its property is carried by `PutStringSendsPrefix` and `Uart0Driver.SerialPutString` |
| Str75xSerial.PutStringSendsPrefix | FreeRTOSV8.2.1/FreeRTOS/Demo/ARM7_STR75x_IAR/serial/serial.c:193-214 | the string's bytes before the NUL that fit reach the line or the queue, in order, and the receive queue is untouched |
| Str75xSerial.FreshPortAcceptsLengthPlusTwo | FreeRTOSV8.2.1/FreeRTOS/Demo/ARM7_STR75x_IAR/serial/serial.c:117-118 | on a freshly initialised port with queue length n, one string call gets its first n + 2 bytes out and drops the rest |
| Str75xSerial.Step | FreeRTOSV8.2.1/FreeRTOS/Demo/ARM7_STR75x_IAR/serial/serial.c:175-294 | any single driver event keeps both capacities and the port invariant |
| Str75xSerial.Run | FreeRTOSV8.2.1/FreeRTOS/Demo/ARM7_STR75x_IAR/serial/serial.c:175-294 | any sequence of driver events keeps both capacities and the port invariant |
| Str75xSerial.StepTransmits | FreeRTOSV8.2.1/FreeRTOS/Demo/ARM7_STR75x_IAR/serial/serial.c:217-278 | one event extends the outbound stream by exactly the bytes that event accepted |
| Str75xSerial.StepReceives | FreeRTOSV8.2.1/FreeRTOS/Demo/ARM7_STR75x_IAR/serial/serial.c:175-190 | one event, when nothing overflows, delivers bytes so that delivered plus still-queued equals previously queued plus newly arrived |
| Str75xSerial.TransmitInOrder | FreeRTOSV8.2.1/FreeRTOS/Demo/ARM7_STR75x_IAR/serial/serial.c:217-278 | over any event sequence the bytes on the line followed by those still queued are the accepted bytes, in acceptance order |
| Str75xSerial.ReceiveInOrder | FreeRTOSV8.2.1/FreeRTOS/Demo/ARM7_STR75x_IAR/serial/serial.c:175-190 | over any event sequence in which no arriving byte finds the receive queue full (`NoDrop`, checked event by event, so reads may make room between arrivals) the bytes delivered to the reader followed by those still queued are the arrived bytes, in arrival order |
| Str75xSerial.RoomForAllNoDrop | FreeRTOSV8.2.1/FreeRTOS/Demo/ARM7_STR75x_IAR/serial/serial.c:280-287 | room up front for every byte of the run is a special case of never dropping one |
| Str75xSerial.ReadBetweenArrivals | FreeRTOSV8.2.1/FreeRTOS/Demo/ARM7_STR75x_IAR/serial/serial.c:175-190 | two bytes pass through a one-byte queue when the task reads between them: nothing dropped, the first delivered, the second queued |
| Str75xSerial.Uart0Driver.constructor | FreeRTOSV8.2.1/FreeRTOS/Demo/ARM7_STR75x_IAR/serial/serial.c:97 | at program start there are no queues, nothing is configured, and the idle flag is statically true |
| Str75xSerial.Uart0Driver.SerialPortInitMinimal | FreeRTOSV8.2.1/FreeRTOS/Demo/ARM7_STR75x_IAR/serial/serial.c:109-172 | init creates a receive queue of the given length and a transmit queue one longer, and reports success exactly when both exist; only then is the UART configured at the wanted baud rate and marked idle |
| Str75xSerial.Uart0Driver.SerialGetChar | FreeRTOSV8.2.1/FreeRTOS/Demo/ARM7_STR75x_IAR/serial/serial.c:175-190 | the driver's get returns the oldest received byte exactly when one is queued, as GetChar says |
| Str75xSerial.Uart0Driver.SerialPutChar | FreeRTOSV8.2.1/FreeRTOS/Demo/ARM7_STR75x_IAR/serial/serial.c:217-246 | the driver's put does what PutChar says and keeps the invariant |
| Str75xSerial.Uart0Driver.SerialPutString | FreeRTOSV8.2.1/FreeRTOS/Demo/ARM7_STR75x_IAR/serial/serial.c:193-214 | the loop puts every byte before the NUL, one at a time, ignoring the length argument |
| Str75xSerial.Uart0Driver.ServiceReading | FreeRTOSV8.2.1/FreeRTOS/Demo/ARM7_STR75x_IAR/serial/serial.c:262-288 | one pass of the interrupt loop services the transmit and then the receive source it reports |
| Str75xSerial.Uart0Driver.SerialIsr | FreeRTOSV8.2.1/FreeRTOS/Demo/ARM7_STR75x_IAR/serial/serial.c:255-294 | the interrupt routine services its first reading and then every further reading while one is pending |
| NiosSerial.EncodeDecode | FreeRTOSV8.2.1/FreeRTOS/Demo/NiosII_CycloneIII_DBC3C40_GCC/RTOSDemo/serial.c:109-110 | decoding a control word into its record and encoding it again gives back the same word |
| NiosSerial.SetTrdy | FreeRTOSV8.2.1/FreeRTOS/Demo/NiosII_CycloneIII_DBC3C40_GCC/RTOSDemo/serial.c:160 | or-ing in the TRDY mask sets the transmit-interrupt enable and changes no other field |
| NiosSerial.ClearTrdy | FreeRTOSV8.2.1/FreeRTOS/Demo/NiosII_CycloneIII_DBC3C40_GCC/RTOSDemo/serial.c:257 | and-ing out the TRDY mask clears the transmit-interrupt enable and changes no other field |
| NiosSerial.SetRrdy | FreeRTOSV8.2.1/FreeRTOS/Demo/NiosII_CycloneIII_DBC3C40_GCC/RTOSDemo/serial.c:145 | or-ing in the RRDY mask sets the receive-interrupt enable and changes no other field |
| NiosSerial.ClearRrdy | FreeRTOSV8.2.1/FreeRTOS/Demo/NiosII_CycloneIII_DBC3C40_GCC/RTOSDemo/serial.c:238 | and-ing out the RRDY mask clears the receive-interrupt enable and changes no other field |
| NiosSerial.ErrorMask | FreeRTOSV8.2.1/FreeRTOS/Demo/NiosII_CycloneIII_DBC3C40_GCC/RTOSDemo/serial.c:226 | the status word meets the PE-or-FE mask exactly when it reports a parity or framing error |
| NiosSerial.InitialControlDecodes | FreeRTOSV8.2.1/FreeRTOS/Demo/NiosII_CycloneIII_DBC3C40_GCC/RTOSDemo/serial.c:109 | the control word written at init enables receive interrupts, not transmit ones, and sets RTS and DCTS |
| NiosSerial.Initial | FreeRTOSV8.2.1/FreeRTOS/Demo/NiosII_CycloneIII_DBC3C40_GCC/RTOSDemo/serial.c:98-122 | right after a successful init both queues are empty, receive interrupts are on, transmit interrupts off, and the invariant holds |
| NiosSerial.PutChar | FreeRTOSV8.2.1/FreeRTOS/Demo/NiosII_CycloneIII_DBC3C40_GCC/RTOSDemo/serial.c:152-169 | a put succeeds exactly when the transmit queue has room; success queues the byte and enables the transmit interrupt; failure changes nothing |
| NiosSerial.GetChar | FreeRTOSV8.2.1/FreeRTOS/Demo/NiosII_CycloneIII_DBC3C40_GCC/RTOSDemo/serial.c:131-149 | a get returns the oldest byte exactly when one is queued; a failed get re-enables the receive interrupt and changes nothing else |
| NiosSerial.ReceiveHandler | FreeRTOSV8.2.1/FreeRTOS/Demo/NiosII_CycloneIII_DBC3C40_GCC/RTOSDemo/serial.c:220-243 | a character with a parity or framing error is discarded; otherwise it is queued if there is room, and if not the receive interrupt is masked |
| NiosSerial.TransmitHandler | FreeRTOSV8.2.1/FreeRTOS/Demo/NiosII_CycloneIII_DBC3C40_GCC/RTOSDemo/serial.c:246-262 | the transmit handler moves the oldest queued byte to the line, or disables the transmit interrupt when nothing is queued; the outbound stream is unchanged |
| NiosSerial.InterruptHandler | FreeRTOSV8.2.1/FreeRTOS/Demo/NiosII_CycloneIII_DBC3C40_GCC/RTOSDemo/serial.c:195-217 | the interrupt handler leaves the receive queue alone unless the status shows RRDY, and the transmit side unless it shows TRDY; it keeps the outbound stream, the fixed control bits and the invariant |
| NiosSerial.PutBytes | FreeRTOSV8.2.1/FreeRTOS/Demo/NiosII_CycloneIII_DBC3C40_GCC/RTOSDemo/serial.c:186-191 | putting a run of bytes leaves the receive side and the receive enable alone and never turns the transmit interrupt off |
| NiosSerial.PutBytesAcceptsPrefix | FreeRTOSV8.2.1/FreeRTOS/Demo/NiosII_CycloneIII_DBC3C40_GCC/RTOSDemo/serial.c:172-192 | a string call adds to the outbound stream exactly the longest prefix that fits the free queue slots, and enables the transmit interrupt when at least one byte went in |
| NiosSerial.PutString | FreeRTOSV8.2.1/FreeRTOS/Demo/NiosII_CycloneIII_DBC3C40_GCC/RTOSDemo/serial.c:172-192 | definition with no contract of its own: the bytes `vSerialPutString` offers are those before the NUL; its property is carried by `PutStringSendsPrefix` and `UartDriver.SerialPutString` |
| NiosSerial.PutStringSendsPrefix | FreeRTOSV8.2.1/FreeRTOS/Demo/NiosII_CycloneIII_DBC3C40_GCC/RTOSDemo/serial.c:172-192 | the string's bytes before the NUL that fit the transmit queue are accepted, in order, and the receive queue is untouched |
| NiosSerial.Step | FreeRTOSV8.2.1/FreeRTOS/Demo/NiosII_CycloneIII_DBC3C40_GCC/RTOSDemo/serial.c:131-262 | any single driver event keeps both capacities, the fixed control bits and the invariant |
| NiosSerial.Run | FreeRTOSV8.2.1/FreeRTOS/Demo/NiosII_CycloneIII_DBC3C40_GCC/RTOSDemo/serial.c:131-262 | any sequence of driver events keeps both capacities and the invariant |
| NiosSerial.StepTransmits | FreeRTOSV8.2.1/FreeRTOS/Demo/NiosII_CycloneIII_DBC3C40_GCC/RTOSDemo/serial.c:152-262 | one event extends the outbound stream by exactly the bytes that event accepted |
| NiosSerial.StepReceives | FreeRTOSV8.2.1/FreeRTOS/Demo/NiosII_CycloneIII_DBC3C40_GCC/RTOSDemo/serial.c:131-243 | one event, when nothing overflows, keeps delivered plus still-queued equal to previously queued plus newly arrived |
| NiosSerial.TransmitInOrder | FreeRTOSV8.2.1/FreeRTOS/Demo/NiosII_CycloneIII_DBC3C40_GCC/RTOSDemo/serial.c:152-262 | over any event sequence the bytes on the line followed by those still queued are the accepted bytes, in acceptance order |
| NiosSerial.ReceiveInOrder | FreeRTOSV8.2.1/FreeRTOS/Demo/NiosII_CycloneIII_DBC3C40_GCC/RTOSDemo/serial.c:131-243 | over any event sequence in which no error-free arriving byte finds the receive queue full (`NoDrop`, checked event by event, so reads may make room between arrivals) the bytes delivered followed by those still queued are the arrived bytes, in arrival order |
| NiosSerial.RoomForAllNoDrop | FreeRTOSV8.2.1/FreeRTOS/Demo/NiosII_CycloneIII_DBC3C40_GCC/RTOSDemo/serial.c:232-240 | room up front for every byte of the run is a special case of never dropping one |
| NiosSerial.ReadBetweenArrivals | FreeRTOSV8.2.1/FreeRTOS/Demo/NiosII_CycloneIII_DBC3C40_GCC/RTOSDemo/serial.c:131-152 | two bytes pass through a one-byte queue when the task reads between them: nothing dropped, the first delivered, the second queued |
| NiosSerial.OnlyFlowBitsChange | FreeRTOSV8.2.1/FreeRTOS/Demo/NiosII_CycloneIII_DBC3C40_GCC/RTOSDemo/serial.c:145 | no sequence of driver events changes any control bit other than the TRDY and RRDY enables |
| NiosSerial.ReadMany | FreeRTOSV8.2.1/FreeRTOS/Demo/NiosII_CycloneIII_DBC3C40_GCC/RTOSDemo/serial.c:131-149 | k successive gets shorten the receive queue by k, down to empty |
| NiosSerial.ReceiveStaysMaskedUntilEmptyRead | FreeRTOSV8.2.1/FreeRTOS/Demo/NiosII_CycloneIII_DBC3C40_GCC/RTOSDemo/serial.c:139-148 | once masked, the receive interrupt stays masked while gets succeed, and the first get that finds the queue empty unmasks it |
| NiosSerial.UartDriver.constructor | FreeRTOSV8.2.1/FreeRTOS/Demo/NiosII_CycloneIII_DBC3C40_GCC/RTOSDemo/serial.c:87-90 | at program start there are no queues, no registered handler, and a zero control word |
| NiosSerial.UartDriver.SerialPortInitMinimal | FreeRTOSV8.2.1/FreeRTOS/Demo/NiosII_CycloneIII_DBC3C40_GCC/RTOSDemo/serial.c:98-122 | init returns handle 1 exactly when both queues were created; only then are the initial control word written and the handler registered |
| NiosSerial.UartDriver.SerialGetChar | FreeRTOSV8.2.1/FreeRTOS/Demo/NiosII_CycloneIII_DBC3C40_GCC/RTOSDemo/serial.c:131-149 | the driver's get does what GetChar says, including the RRDY re-enable on failure |
| NiosSerial.UartDriver.SerialPutChar | FreeRTOSV8.2.1/FreeRTOS/Demo/NiosII_CycloneIII_DBC3C40_GCC/RTOSDemo/serial.c:152-169 | the driver's put does what PutChar says and keeps the invariant |
| NiosSerial.UartDriver.SerialPutString | FreeRTOSV8.2.1/FreeRTOS/Demo/NiosII_CycloneIII_DBC3C40_GCC/RTOSDemo/serial.c:172-192 | the loop puts every byte before the NUL, one at a time |
| NiosSerial.UartDriver.UartReceiveHandler | FreeRTOSV8.2.1/FreeRTOS/Demo/NiosII_CycloneIII_DBC3C40_GCC/RTOSDemo/serial.c:220-243 | the receive handler does what ReceiveHandler says |
| NiosSerial.UartDriver.UartTransmitHandler | FreeRTOSV8.2.1/FreeRTOS/Demo/NiosII_CycloneIII_DBC3C40_GCC/RTOSDemo/serial.c:246-262 | the transmit handler does what TransmitHandler says |
| NiosSerial.UartDriver.UartInterruptHandler | FreeRTOSV8.2.1/FreeRTOS/Demo/NiosII_CycloneIII_DBC3C40_GCC/RTOSDemo/serial.c:195-217 | the interrupt handler decodes the raw status word and does what InterruptHandler says |
| MenuTouch.ToInt16 | Menu/menu_touch.c:27-28 | storing a difference in `int16_t` gives a value in range that is congruent to it modulo 2^16, and the difference itself when it already fits |
| MenuTouch.Classify | Menu/menu_touch.c:29-51 | each gesture is named by its exact condition: right or left when the horizontal movement dominates and passes 60 in that direction, down or up likewise vertically, click when neither movement passes 60, nothing when they tie above 60 |
| MenuTouch.Recognise | Menu/menu_touch.c:21-53 | nothing is recognised without a touch; with a touch the gesture classifies the wrapped deltas, and only a click writes the last coordinates back |
| MenuTouch.MenuTouchGesture | Menu/menu_touch.c:18-53 | the sampling loop ends on the last sample, or on the stale coordinates when there was none, and returns what Recognise gives for it |
| MenuTouch.MirrorSwapsLeftRight | Menu/menu_touch.c:29-45 | mirroring the horizontal movement swaps left and right and leaves every other outcome alone |
| MenuTouch.TransposeSwapsAxes | Menu/menu_touch.c:29-45 | swapping the axes swaps right with down and left with up |
| MenuTouch.SmallPanelDeltasExact | Menu/menu_touch.c:27-32 | for coordinates below 32768 the deltas do not wrap, and a right swipe is exactly a dominant movement of more than 60 to the right |
| MenuTouch.WideDeltaWraps | Menu/menu_touch.c:27-34 | a 40000-pixel movement to the right wraps in `int16_t` and is reported as a left swipe |
| CliCommands.RegisteredCommands | FreeRTOSV8.2.1/FreeRTOS-Plus/Demo/FreeRTOS_Plus_CLI_with_Trace_Windows_Simulator/CLI-commands.c:116-176 | five commands are registered under distinct names, each expecting a parameter count of at least -1 |
| CliCommands.ExpectedParameterCounts | FreeRTOSV8.2.1/FreeRTOS-Plus/Demo/FreeRTOS_Plus_CLI_with_Trace_Windows_Simulator/CLI-commands.c:117-164 | the commands expect 0, 0, 3, any number (-1) and 1 parameters respectively |
| CliCommands.Decimal | FreeRTOSV8.2.1/FreeRTOS-Plus/Demo/FreeRTOS_Plus_CLI_with_Trace_Windows_Simulator/CLI-commands.c:263 | a `%d` rendering of a parameter number is a non-empty string of digits without a leading zero |
| CliCommands.DecimalRoundTrip | FreeRTOSV8.2.1/FreeRTOS-Plus/Demo/FreeRTOS_Plus_CLI_with_Trace_Windows_Simulator/CLI-commands.c:263 | reading the rendered digits back gives the number |
| CliCommands.TaskStats | FreeRTOSV8.2.1/FreeRTOS-Plus/Demo/FreeRTOS_Plus_CLI_with_Trace_Windows_Simulator/CLI-commands.c:179-197 | task-stats writes its header followed by the task table, and reports that no more output follows |
| CliCommands.RunTimeStats | FreeRTOSV8.2.1/FreeRTOS-Plus/Demo/FreeRTOS_Plus_CLI_with_Trace_Windows_Simulator/CLI-commands.c:200-218 | run-time-stats writes its header followed by the run-time table, and reports that no more output follows |
| CliCommands.ThreeEchoStep | FreeRTOSV8.2.1/FreeRTOS-Plus/Demo/FreeRTOS_Plus_CLI_with_Trace_Windows_Simulator/CLI-commands.c:221-285 | the first call writes the header; call n writes "n: " and the n-th parameter; more output follows until the third parameter, after which the counter returns to 0 |
| CliCommands.EchoStep | FreeRTOSV8.2.1/FreeRTOS-Plus/Demo/FreeRTOS_Plus_CLI_with_Trace_Windows_Simulator/CLI-commands.c:288-352 | the first call writes the header; each later call echoes the next parameter; the call after the last parameter writes nothing, resets the counter and ends the output |
| CliCommands.ThreeEchoRun | FreeRTOSV8.2.1/FreeRTOS-Plus/Demo/FreeRTOS_Plus_CLI_with_Trace_Windows_Simulator/CLI-commands.c:221-285 | repeated calls produce one output and one more-flag per call |
| CliCommands.EchoRun | FreeRTOSV8.2.1/FreeRTOS-Plus/Demo/FreeRTOS_Plus_CLI_with_Trace_Windows_Simulator/CLI-commands.c:288-352 | repeated calls produce one output and one more-flag per call |
| CliCommands.EchoLines | FreeRTOSV8.2.1/FreeRTOS-Plus/Demo/FreeRTOS_Plus_CLI_with_Trace_Windows_Simulator/CLI-commands.c:329-331 | the echoed lines from a given parameter on are, in order, "i: " followed by parameter i |
| CliCommands.EchoLine | FreeRTOSV8.2.1/FreeRTOS-Plus/Demo/FreeRTOS_Plus_CLI_with_Trace_Windows_Simulator/CLI-commands.c:263-265 | definition with no contract of its own: "n: ", the parameter, then CR LF; its property is carried by `EchoLines` and `DecimalRoundTrip` |
| CliCommands.ThreeEchoSession | FreeRTOSV8.2.1/FreeRTOS-Plus/Demo/FreeRTOS_Plus_CLI_with_Trace_Windows_Simulator/CLI-commands.c:221-285 | a whole three-parameter command is four calls: the header and the three numbered parameters, with more output signalled after all but the last, and the counter back at 0 |
| CliCommands.EchoRunFrom | FreeRTOSV8.2.1/FreeRTOS-Plus/Demo/FreeRTOS_Plus_CLI_with_Trace_Windows_Simulator/CLI-commands.c:316-349 | from any parameter on, the remaining calls echo the remaining parameters in order and then end with an empty output |
| CliCommands.EchoSession | FreeRTOSV8.2.1/FreeRTOS-Plus/Demo/FreeRTOS_Plus_CLI_with_Trace_Windows_Simulator/CLI-commands.c:288-352 | a whole echo command with k parameters is k + 2 calls: the header, every parameter numbered in order, and a final empty output, leaving the counter at 0 |
| CliCommands.ThreeParameterEcho.Call | FreeRTOSV8.2.1/FreeRTOS-Plus/Demo/FreeRTOS_Plus_CLI_with_Trace_Windows_Simulator/CLI-commands.c:221-285 | one call of the command with its static counter does what ThreeEchoStep says |
| CliCommands.ParameterEcho.Call | FreeRTOSV8.2.1/FreeRTOS-Plus/Demo/FreeRTOS_Plus_CLI_with_Trace_Windows_Simulator/CLI-commands.c:288-352 | one call of the command with its static counter does what EchoStep says |
| CliCommands.StrNCmpPrefix | FreeRTOSV8.2.1/FreeRTOS-Plus/Demo/FreeRTOS_Plus_CLI_with_Trace_Windows_Simulator/CLI-commands.c:379 | comparing the first strlen(literal) characters with `strncmp` succeeds exactly when the literal is a prefix of the parameter |
| CliCommands.StartStopTrace | FreeRTOSV8.2.1/FreeRTOS-Plus/Demo/FreeRTOS_Plus_CLI_with_Trace_Windows_Simulator/CLI-commands.c:355-403 | a parameter starting with "start" restarts the trace; otherwise one starting with "stop" stops it and saves the log; anything else is rejected; each action has its fixed message, and no more output follows |
| DacEx.DualOutputLanes | FreeRTOSV8.2.1/FreeRTOS/Demo/CORTEX_M7_STM32F7_STM32756G-EVAL_IAR_Keil/ST_Library/stm32f7xx_hal_dac_ex.c:108-118 | the dual output word carries channel 1 in its low half and channel 2 in its high half, for 16-bit data |
| DacEx.DualOutput | FreeRTOSV8.2.1/FreeRTOS/Demo/CORTEX_M7_STM32F7_STM32756G-EVAL_IAR_Keil/ST_Library/stm32f7xx_hal_dac_ex.c:112-114 | definition with no contract of its own: DOR1 or'ed with DOR2 shifted left by 16; its property is carried by `DualOutputLanes` and `Dac.DualGetValue` |
| DacEx.DualDataLanes8 | FreeRTOSV8.2.1/FreeRTOS/Demo/CORTEX_M7_STM32F7_STM32756G-EVAL_IAR_Keil/ST_Library/stm32f7xx_hal_dac_ex.c:243-246 | with 8-bit right alignment the packed word holds data 1 in bits 0-7 and data 2 in bits 8-15 |
| DacEx.DualDataLanes16 | FreeRTOSV8.2.1/FreeRTOS/Demo/CORTEX_M7_STM32F7_STM32756G-EVAL_IAR_Keil/ST_Library/stm32f7xx_hal_dac_ex.c:247-250 | with the other alignments the packed word holds data 1 in the low half and data 2 in the high half |
| DacEx.DualData | FreeRTOSV8.2.1/FreeRTOS/Demo/CORTEX_M7_STM32F7_STM32756G-EVAL_IAR_Keil/ST_Library/stm32f7xx_hal_dac_ex.c:243-250 | definition with no contract of its own: the packed dual value; its property is carried by `DualDataLanes8`, `DualDataLanes16` and `WideData1Spills` |
| DacEx.HoldingAddress | FreeRTOSV8.2.1/FreeRTOS/Demo/CORTEX_M7_STM32F7_STM32756G-EVAL_IAR_Keil/ST_Library/stm32f7xx_hal_dac_ex.c:252-256 | definition with no contract of its own: the base plus `DAC_DHR12RD_ALIGNMENT`, in 32-bit arithmetic; `Dac.DualSetValue` states the write at that address |
| DacEx.WideData1Spills | FreeRTOSV8.2.1/FreeRTOS/Demo/CORTEX_M7_STM32F7_STM32756G-EVAL_IAR_Keil/ST_Library/stm32f7xx_hal_dac_ex.c:245 | with 8-bit alignment a data 1 of 0x100 lands in channel 2's lane, because the C code does not mask it |
| DacEx.ModifyRegKeepsOthers | FreeRTOSV8.2.1/FreeRTOS/Demo/CORTEX_M7_STM32F7_STM32756G-EVAL_IAR_Keil/ST_Library/stm32f7xx_hal_dac_ex.c:157 | MODIFY_REG leaves every bit outside the cleared and set masks as it was |
| DacEx.ModifyRegSetsField | FreeRTOSV8.2.1/FreeRTOS/Demo/CORTEX_M7_STM32F7_STM32756G-EVAL_IAR_Keil/ST_Library/stm32f7xx_hal_dac_ex.c:157 | when the set mask lies inside the clear mask, the field afterwards holds exactly the set value |
| DacEx.ModifyReg | FreeRTOSV8.2.1/FreeRTOS/Demo/CORTEX_M7_STM32F7_STM32756G-EVAL_IAR_Keil/ST_Library/stm32f7xx_hal_dac_ex.c:157 | definition with no contract of its own: `MODIFY_REG`; its property is carried by `ModifyRegKeepsOthers` and `ModifyRegSetsField` |
| DacEx.WaveValueWithin | FreeRTOSV8.2.1/FreeRTOS/Demo/CORTEX_M7_STM32F7_STM32756G-EVAL_IAR_Keil/ST_Library/stm32f7xx_hal_dac_ex.c:157 | a wave selection and amplitude inside the WAVE1 and MAMP1 fields, shifted to the channel, stay inside that channel's field |
| DacEx.WaveFieldSet | FreeRTOSV8.2.1/FreeRTOS/Demo/CORTEX_M7_STM32F7_STM32756G-EVAL_IAR_Keil/ST_Library/stm32f7xx_hal_dac_ex.c:157 | after the update, the channel's wave and amplitude field holds exactly the requested wave and amplitude |
| DacEx.WaveFieldOnly | FreeRTOSV8.2.1/FreeRTOS/Demo/CORTEX_M7_STM32F7_STM32756G-EVAL_IAR_Keil/ST_Library/stm32f7xx_hal_dac_ex.c:157 | the update leaves every control bit outside the channel's wave and amplitude field as it was, so the other channel is untouched |
| DacEx.Dac.constructor | FreeRTOSV8.2.1/FreeRTOS/Demo/CORTEX_M7_STM32F7_STM32756G-EVAL_IAR_Keil/ST_Library/stm32f7xx_hal_dac_ex.c:108-118 | stands for the zero-initialised `DAC_HandleTypeDef` the application passes in (it is built outside this file; these lines are its first use, through `hdac->Instance`): reset state, unlocked, no error, registers zero, nothing written |
| DacEx.Dac.DualGetValue | FreeRTOSV8.2.1/FreeRTOS/Demo/CORTEX_M7_STM32F7_STM32756G-EVAL_IAR_Keil/ST_Library/stm32f7xx_hal_dac_ex.c:108-118 | for 16-bit output registers, the returned word's two lanes are the two channels' outputs |
| DacEx.Dac.WaveGenerate | FreeRTOSV8.2.1/FreeRTOS/Demo/CORTEX_M7_STM32F7_STM32756G-EVAL_IAR_Keil/ST_Library/stm32f7xx_hal_dac_ex.c:151-166 | a locked handle returns busy and changes nothing; otherwise the control register gets the wave field for the channel, and the handle ends ready, unlocked, with status OK |
| DacEx.Dac.TriangleWaveGenerate | FreeRTOSV8.2.1/FreeRTOS/Demo/CORTEX_M7_STM32F7_STM32756G-EVAL_IAR_Keil/ST_Library/stm32f7xx_hal_dac_ex.c:144-167 | triangle generation is wave generation with WAVE1_1 and the given amplitude |
| DacEx.Dac.NoiseWaveGenerate | FreeRTOSV8.2.1/FreeRTOS/Demo/CORTEX_M7_STM32F7_STM32756G-EVAL_IAR_Keil/ST_Library/stm32f7xx_hal_dac_ex.c:193-216 | noise generation is wave generation with WAVE1_0 and the given amplitude |
| DacEx.Dac.DualSetValue | FreeRTOSV8.2.1/FreeRTOS/Demo/CORTEX_M7_STM32F7_STM32756G-EVAL_IAR_Keil/ST_Library/stm32f7xx_hal_dac_ex.c:233-260 | the packed dual value is written to the holding register at the instance address plus the alignment offset, nothing else changes, and the status is OK |
| DacEx.Dac.DmaConvCpltCh2 | FreeRTOSV8.2.1/FreeRTOS/Demo/CORTEX_M7_STM32F7_STM32756G-EVAL_IAR_Keil/ST_Library/stm32f7xx_hal_dac_ex.c:324-331 | completion of a channel-2 DMA transfer sets the handle ready and changes nothing else |
| DacEx.Dac.DmaErrorCh2 | FreeRTOSV8.2.1/FreeRTOS/Demo/CORTEX_M7_STM32F7_STM32756G-EVAL_IAR_Keil/ST_Library/stm32f7xx_hal_dac_ex.c:352-362 | a channel-2 DMA error adds the DMA error flag to the error code and sets the handle ready |
| DacEx.ErrorFlagsAccumulate | FreeRTOSV8.2.1/FreeRTOS/Demo/CORTEX_M7_STM32F7_STM32756G-EVAL_IAR_Keil/ST_Library/stm32f7xx_hal_dac_ex.c:357 | adding an error flag keeps every flag already recorded and records the new one |
| UipTask.MacLow | FreeRTOSV8.2.1/FreeRTOS/Demo/ARM9_STR91X_IAR/webserver/uIP_Task.c:347 | the low MAC register value from four address bytes fits in 32 bits |
| UipTask.MacHigh | FreeRTOSV8.2.1/FreeRTOS/Demo/ARM9_STR91X_IAR/webserver/uIP_Task.c:348 | the high MAC register value from two address bytes fits in 16 bits |
| UipTask.MacFromRegisters | FreeRTOSV8.2.1/FreeRTOS/Demo/ARM9_STR91X_IAR/webserver/uIP_Task.c:347-348 | reading the two registers back yields six address bytes |
| UipTask.MacRegistersRoundTrip | FreeRTOSV8.2.1/FreeRTOS/Demo/ARM9_STR91X_IAR/webserver/uIP_Task.c:347-348 | packing any six-byte address into MAL and MAH and unpacking gives the address back, byte 0 lowest |
| UipTask.RegistersMacRoundTrip | FreeRTOSV8.2.1/FreeRTOS/Demo/ARM9_STR91X_IAR/webserver/uIP_Task.c:347-348 | unpacking any register pair and packing again gives the same register values |
| UipTask.SetMacAddress | FreeRTOSV8.2.1/FreeRTOS/Demo/ARM9_STR91X_IAR/webserver/uIP_Task.c:333-349 | the address given to uIP is the configured MAC, and the MAC registers hold that same address |
| UipTask.DemoMacRegisters | FreeRTOSV8.2.1/FreeRTOS/Demo/ARM9_STR91X_IAR/webserver/uIP_Task.c:91-96 | for 00:12:13:14:15:20 the registers are MAL = 0x14131200 and MAH = 0x2015 |
| UipTask.FirstBuffer | FreeRTOSV8.2.1/FreeRTOS/Demo/ARM9_STR91X_IAR/webserver/uIP_Task.c:290-302 | the retry returns the first buffer offered within the attempts, after exactly that many calls, or none when every attempt found none |
| UipTask.AcquireBuffer | FreeRTOSV8.2.1/FreeRTOS/Demo/ARM9_STR91X_IAR/webserver/uIP_Task.c:290-302 | the retry loop makes between 1 and 10 calls, delays once after each empty answer, and stops at the first buffer |
| UipTask.FirstBufferStops | FreeRTOSV8.2.1/FreeRTOS/Demo/ARM9_STR91X_IAR/webserver/uIP_Task.c:294-297 | once a buffer has been found, allowing more attempts changes neither the buffer nor the call count |
| UipTask.TxFrame | FreeRTOSV8.2.1/FreeRTOS/Demo/ARM9_STR91X_IAR/webserver/uIP_Task.c:307-313 | the sent frame has uip_len bytes, the first 54 from uip_buf and the rest from uip_appdata |
| UipTask.TxBuffer.Fill | FreeRTOSV8.2.1/FreeRTOS/Demo/ARM9_STR91X_IAR/webserver/uIP_Task.c:304-314 | the copies put the 54 header bytes and then the application data into the DMA buffer, leave the rest alone, and hand the first uip_len bytes to the driver |
| UipTask.Send | FreeRTOSV8.2.1/FreeRTOS/Demo/ARM9_STR91X_IAR/webserver/uIP_Task.c:284-315 | a frame is sent exactly when some attempt obtained a buffer, and the frame sent is the assembled one |
| UipTask.FrameLayout | FreeRTOSV8.2.1/FreeRTOS/Demo/ARM9_STR91X_IAR/webserver/uIP_Task.c:307-311 | a frame of at most 54 bytes is a prefix of the header; a longer one is the whole header followed by the leading application data |
| UipTask.FrameType | FreeRTOSV8.2.1/FreeRTOS/Demo/ARM9_STR91X_IAR/webserver/uIP_Task.c:218-232 | the frame type is the big-endian value of bytes 12 and 13, IP exactly for 08 00 and ARP exactly for 08 06 |
| UipTask.Dispatch | FreeRTOSV8.2.1/FreeRTOS/Demo/ARM9_STR91X_IAR/webserver/uIP_Task.c:218-243 | an IP frame goes through the ARP update and uIP input, then is answered exactly when uIP produced data; an ARP frame goes to the ARP code, is answered exactly when that produced data, and never gets an ARP header added; other frames do nothing |
| UipTask.DispatchResolves | FreeRTOSV8.2.1/FreeRTOS/Demo/ARM9_STR91X_IAR/webserver/uIP_Task.c:226-241 | every IP reply gets its Ethernet header filled in before it is sent, while an ARP reply is sent as it stands |
| UipTask.PeriodicPassProperties | FreeRTOSV8.2.1/FreeRTOS/Demo/ARM9_STR91X_IAR/webserver/uIP_Task.c:250-262 | the periodic pass visits every connection once, in index order, and sends exactly one frame per connection that produced data |
| UipTask.PeriodicCalls | FreeRTOSV8.2.1/FreeRTOS/Demo/ARM9_STR91X_IAR/webserver/uIP_Task.c:250-262 | definition with no contract of its own: the calls of the connection loop, connection by connection; its property is carried by `PeriodicPassProperties` and `PeriodicPass` |
| UipTask.ConnectionCalls | FreeRTOSV8.2.1/FreeRTOS/Demo/ARM9_STR91X_IAR/webserver/uIP_Task.c:252-261 | definition with no contract of its own: `uip_periodic(i)`, then `uip_arp_out` and the send when uip_len > 0; its property is carried by `OneConnection` |
| UipTask.OneConnection | FreeRTOSV8.2.1/FreeRTOS/Demo/ARM9_STR91X_IAR/webserver/uIP_Task.c:252-261 | one connection's calls visit exactly that connection and send once exactly when it produced output |
| UipTask.PeriodicPass | FreeRTOSV8.2.1/FreeRTOS/Demo/ARM9_STR91X_IAR/webserver/uIP_Task.c:250-262 | the loop over the connections makes those calls, in order, with one send per producing connection |
| UipTask.Iteration | FreeRTOSV8.2.1/FreeRTOS/Demo/ARM9_STR91X_IAR/webserver/uIP_Task.c:213-278 | a received frame is dispatched; with nothing received and the periodic timer expired, the connections are polled in index order with exactly one send per connection that produced output, and the ARP timer runs, as the last call, exactly when it is due; otherwise the task waits |
| UipTask.PeriodicHasNoTimer | FreeRTOSV8.2.1/FreeRTOS/Demo/ARM9_STR91X_IAR/webserver/uIP_Task.c:265-269 | the ARP timer is never run inside the connection loop, only after it |
| Lm3s811Demo.CharAt | FreeRTOSV8.2.1/FreeRTOS/Demo/CORTEX_LM3S811_GCC/main.c:168 | reading the message string at a position gives NUL exactly past its last character |
| Lm3s811Demo.MessageHasNoNul | FreeRTOSV8.2.1/FreeRTOS/Demo/CORTEX_LM3S811_GCC/main.c:168 | the demo message holds no NUL before its terminator |
| Lm3s811Demo.Step | FreeRTOSV8.2.1/FreeRTOS/Demo/CORTEX_LM3S811_GCC/main.c:319-366 | a button press or a UART interrupt keeps the pointer inside the message and adds at most one character to the line; an interrupt that is not a transmit interrupt, or that finds the pointer at the terminator, changes nothing |
| Lm3s811Demo.Select | FreeRTOSV8.2.1/FreeRTOS/Demo/CORTEX_LM3S811_GCC/main.c:361-364 | a character is written only on a slot whose FIFO reading shows room, so no more characters go out than readings were taken |
| Lm3s811Demo.RunTx | FreeRTOSV8.2.1/FreeRTOS/Demo/CORTEX_LM3S811_GCC/main.c:356-366 | a run of transmit interrupts keeps the pointer inside the message |
| Lm3s811Demo.RunTxWrites | FreeRTOSV8.2.1/FreeRTOS/Demo/CORTEX_LM3S811_GCC/main.c:356-366 | each transmit interrupt advances the pointer by one until the terminator, and the line gains exactly the characters passed over whose FIFO reading showed room, in order |
| Lm3s811Demo.RunTxAtNul | FreeRTOSV8.2.1/FreeRTOS/Demo/CORTEX_LM3S811_GCC/main.c:359 | once the pointer is at the terminator, further transmit interrupts do nothing |
| Lm3s811Demo.PressThenInterrupts | FreeRTOSV8.2.1/FreeRTOS/Demo/CORTEX_LM3S811_GCC/main.c:319-366 | a button press followed by interrupts sends the message from its start, one character per event, skipping those that met a full FIFO |
| Lm3s811Demo.WholeMessageSent | FreeRTOSV8.2.1/FreeRTOS/Demo/CORTEX_LM3S811_GCC/main.c:319-366 | when the FIFO always has room, a press and one interrupt per remaining character put the whole message on the line |
| Lm3s811Demo.SelectAllRoom | FreeRTOSV8.2.1/FreeRTOS/Demo/CORTEX_LM3S811_GCC/main.c:361-364 | when every reading shows room, every character is written |
| Lm3s811Demo.UartMessage.constructor | FreeRTOSV8.2.1/FreeRTOS/Demo/CORTEX_LM3S811_GCC/main.c:169 | before the first press the pointer is unset and nothing has been sent |
| Lm3s811Demo.UartMessage.ButtonPressed | FreeRTOSV8.2.1/FreeRTOS/Demo/CORTEX_LM3S811_GCC/main.c:320-332 | the button task restarts the message, writes its first character when the FIFO has room, and moves past it |
| Lm3s811Demo.UartMessage.UartIsr | FreeRTOSV8.2.1/FreeRTOS/Demo/CORTEX_LM3S811_GCC/main.c:345-368 | the UART interrupt sends the next character when a transmit interrupt is pending, the terminator is not reached and the FIFO has room, and moves past it even when the FIFO is full |
| Lm3s811Demo.CheckTask | FreeRTOSV8.2.1/FreeRTOS/Demo/CORTEX_LM3S811_GCC/main.c:214-264 | the check task sends one message per cycle: FAIL exactly when some check has failed in this or an earlier cycle, PASS otherwise |
| Lm3s811Demo.FailIsSticky | FreeRTOSV8.2.1/FreeRTOS/Demo/CORTEX_LM3S811_GCC/main.c:252-257 | once a cycle reports FAIL, every later cycle does too |
| Lm3s811Demo.PassMeansAllHealthy | FreeRTOSV8.2.1/FreeRTOS/Demo/CORTEX_LM3S811_GCC/main.c:232-262 | a cycle reports PASS exactly when no report up to and including it failed, and the error flag of a cycle is the previous flag set by any failing check of that cycle |
| Lm3s811Demo.PrintTask | FreeRTOSV8.2.1/FreeRTOS/Demo/CORTEX_LM3S811_GCC/main.c:385-401 | message i is drawn at column (i + 1) mod 64 and row (i + 1) mod 2, with the counters wrapping at 2^32 |
| Lm3s811Demo.WrapKeepsPosition | FreeRTOSV8.2.1/FreeRTOS/Demo/CORTEX_LM3S811_GCC/main.c:396-399 | the 32-bit wrap of the counters does not change the drawn column or row |
| Lm3s811Demo.PositionsAdvance | FreeRTOSV8.2.1/FreeRTOS/Demo/CORTEX_LM3S811_GCC/main.c:396-399 | each message moves the column forward by one modulo 64 and flips the row |
| Lm3s811Demo.PrintStepBound | FreeRTOSV8.2.1/FreeRTOS/Demo/CORTEX_LM3S811_GCC/main.c:191 | one post or take keeps the print queue within three messages; a post is accepted exactly when fewer than three are queued; messages move through it first in, first out |
| Lm3s811Demo.PrintStep | FreeRTOSV8.2.1/FreeRTOS/Demo/CORTEX_LM3S811_GCC/main.c:257-261 | definition with no contract of its own: one `xQueueSend` or `xQueueReceive` on `xPrintQueue` (also lines 335 and 393); its property is carried by `PrintStepBound` |
| Lm3s811Demo.PrintRun | FreeRTOSV8.2.1/FreeRTOS/Demo/CORTEX_LM3S811_GCC/main.c:393 | definition with no contract of its own: the print queue over a sequence of posts and takes; its property is carried by `PrintQueueBound` |
| Lm3s811Demo.PrintQueueBound | FreeRTOSV8.2.1/FreeRTOS/Demo/CORTEX_LM3S811_GCC/main.c:191 | over any interleaving of posts and takes the print queue never holds more than three messages, and vPrintTask takes exactly the accepted messages in the order they were accepted |

## Left out

- Str75xSerial.Isr: each pass of the `vSerialISR` loop reads `UART0->MIS` three times (serial.c:262, 280 and 289); one `Mis` reading stands for the first two, so the model takes MIS to be unchanged between the transmit test and the receive test, and the reading that decides whether the loop goes on is the next element of the sequence.
- Hardware set-up is left out: clocks, pins, baud-rate dividers, interrupt controller channels and priorities, the LCD and touch controller drivers. The model records only that a port was configured, and at what baud rate.
- Concurrency and blocking are left out. Tasks and interrupts are modelled as sequences of events, each running to completion. Block times other than zero (`portMAX_DELAY` and the retry delay) appear only as counts, not as time.
- Str75xSerial.Uart0Driver.SerialPortInitMinimal: the C function returns an uninitialised handle on success. The model returns only whether both queues were created.
- `vSerialClose` is left out of both serial drivers, because its body is empty.
- NiosSerial.UartDriver.UartInterruptHandler: the write of 0 to the status register that clears the interrupt is not modelled, because the model has no status register state.
- The Nios `asm("break")` on a parity or framing error (serial.c:226-230) is not modelled, because it only stops a debugger; the model discards the character and returns, as the code does after the break. A failed queue creation returns handle 0.
- MenuTouch.MenuTouchGesture: when the panel is released before any second sample is read, the C code uses the uninitialised `X2`/`Y2`. The model takes those values as the `stale` parameter.
- `00-STM32F429_LIBRARIES/tm_stm32f4_disco.h` is not part of this model, because the core does not use it.
- The trace recorder, the file output of the saved log, and the FreeRTOS task and run-time table generators are left out. Their output text is a parameter of `TaskStats` and `RunTimeStats`.
- CliCommands.ThreeEchoStep: the `configASSERT` on a missing parameter becomes a precondition that parameter n exists. The interpreter only runs this command with exactly three parameters.
- CliCommands.EchoStep: the counter is an unbounded number. Overflow of the `BaseType_t` counter is not modelled, because no command line holds 2^31 parameters.
- The CLI commands do not truncate output to `xWriteBufferLen`. The model takes every output string to fit the buffer.
- `DAC_DMAHalfConvCpltCh2` and the weak user callbacks (`HAL_DACEx_ConvCpltCallbackCh2`, `HAL_DACEx_ConvHalfCpltCallbackCh2`, `HAL_DACEx_ErrorCallbackCh2`) are left out, because they hold no driver logic. The `assert_param` checks are left out too.
- DacEx.Dac.WaveGenerate: the brief `HAL_DAC_STATE_BUSY` between lock and unlock is not visible, because nothing can observe it within one call.
- uIP itself is left out: `uip_input`, `uip_arp_*`, `uip_periodic` and the timers. What they leave in `uip_len` and whether a timer expired are parameters.
- The Ethernet driver is left out: `ENET_HandleRxPkt`, `pcGetNextBuffer`, `ENET_TxPkt` and the DMA set-up. The buffers it offers are a parameter sequence, and a missing answer counts as NULL.
- `ENET_IRQHandler`, `vGPIO_ISR` and the semaphore gives and takes that wake tasks are left out, because they only schedule tasks.
- UipTask.MacLow: the C code builds the register with `|` of shifted bytes. The model uses the sum of the same byte fields, which is equal because the fields do not overlap.
- Lm3s811Demo.UartMessage.UartIsr: the C interrupt dereferences `pcNextChar`, which stays NULL until the first button press. The model requires that a transmit interrupt only comes after a press, because the C code has no defined behaviour otherwise.
- Lm3s811Demo.UartMessage.ButtonPressed: queueing the "Int" message for the print task is not part of this method. The print task takes the sequence of received messages as its parameter, and `PrintQueueBound` covers the queue.
- The debounce delay of the button task is left out.
- The demo-task health checks (`xAreIntegerMathsTaskStillRunning` and the others) are left out. Their results are the `Health` parameter of `CheckTask`.
- The LCD drawing itself is left out. `PrintTask` returns what would be drawn where.
