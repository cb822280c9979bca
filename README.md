# CAN heartbeat ("ping/pong") model

A Dafny model of the heartbeat protocol that `canping`, `canpong` and the
STM32F4 firmware `stm32f4_canpong` run over a classical CAN bus. A
transmitter sends a frame with a standard identifier, DLC 1 and a wrapping
8-bit counter in its first payload byte. A receiver validates these frames
and drives an LED from the counter's parity.

- `can_types.dfy` (module `CanTypes`): the C integer types, the SocketCAN
  `struct can_frame`, 8-bit increment with wrap-around, and the counter
  sequence a transmitter emits.
- `canpong.dfy` (module `CanPong`): the host receiver. `set_led_brightness`
  is a method of the class `LedFile`, whose `writes` field records every
  character handed to write(2). `read_frame` is the pure classification
  `Classify`, the specification `ReadFrameSpec` and the method
  `Receiver.ReadFrame`. The LED initialisation, the read loop and the
  `atexit` cleanup form `Receiver.Run`, specified by `Replay`.
- `canping.dfy` (module `CanPing`): the host transmitter. The class `Pinger`
  holds the shared frame buffer (`canId`, `dlc`, the 8-byte `data` array),
  the static counter of `ping` and the frames written so far. `Serve` is the
  `pause()` loop with one `ping` per timer expiry. The `itimerval` constants
  give the tick schedule.
- `stm32_canpong.dfy` (module `Stm32Pong`): the embedded node. The class
  `Board` has the four LEDs, `led_counter`, the transmit log and receive
  FIFO 0. It has one method per handler: `tx`, `rx`, the timer, CAN-receive
  and button interrupts, and `main`. The drain done by `rx` is specified by
  `Drain`.
- `heartbeat.dfy` (module `Heartbeat`): the host transmitter feeding the host
  receiver end to end. It also has lemmas for where the embedded receive path
  and the host receiver disagree.

Inputs stand in for the environment. These are the counts returned by read(2)
and write(2), the frame a read fills in, the transmit status from
`CAN_TransmitStatus`, the interrupt-pending flags and the result of `setup()`.
A run of the host receiver is a finite list of reads. When the list runs out,
this stands for a SIGINT or SIGTERM delivered during the next blocking read.
Interrupts and signals are sequential method calls.

Behaviours the model keeps apart, as the code has them:

- The host receiver tests the DLC before the identifier. A frame with DLC 2
  therefore stops it even when the identifier is foreign (`canpong.c:164-171`).
  The embedded node refuses only DLC 0 and filters no identifier
  (`stm32f4_canpong/src/main.c:42-52`, filter mask 0 at
  `stm32f4_canpong/src/setup.c:66-71`). See `Heartbeat.DlcTwoDiverges`,
  `Heartbeat.ForeignIdentifierDiverges` and `Stm32Pong.DrainIgnoresIdentifiers`.
- The embedded node transmits on 0x23. The host programs default to 0x7FF, so
  a host receiver with its default identifier ignores the node's heartbeat
  (`Heartbeat.EmbeddedHeartbeatIgnoredByDefaultHost`).
- In `set_led_brightness` the write count is held in a `size_t`, so the
  `written < 0` test can never succeed. A -1 from write(2) arrives as
  SIZE_MAX and is caught by the `!= 1` test (`CanPong.WrittenIsOne`).

Behaviour of the embedded node and of the host receiver's exit path:

- The embedded node raises its fault LED when `CAN_TransmitStatus` reports a
  failed transmission. It has no notion of a short write.
- The embedded node does not check the identifier, and its only length check
  is DLC below 1.
- The embedded node has no truncated-read case.
- The code never bounds the number of pending messages; the model's `Board.fifo` is unbounded, while the bxCAN FIFO 0 holds three messages.
- The host receiver also runs its LED cleanup on the exit that follows a read
  error, not only on a termination signal. The cleanup is registered with
  `atexit`.

## Model

| member | source | states |
|---|---|---|
| CanTypes.Inc8 | canping.c:124-131 | 8-bit increment with wrap-around, the step of `counter++`: below 255 it adds one, 255 wraps to 0 |
| CanTypes.Counters | canping.c:124-131 | the values n ticks emit from a start value: n of them, the first is the start, and each is the wrapped successor of the one before |
| CanTypes.CountersAt | canping.c:124-131 | the k-th emitted counter is start + k modulo 256 |
| CanTypes.CountersSplit | canping.c:161-163 | n ticks followed by m ticks emit the same values as n + m ticks |
| CanTypes.IncN | stm32f4_canpong/src/main.c:61-61 | the counter after n increments is start + n modulo 256 |
| CanTypes.IncNSnoc | stm32f4_canpong/src/main.c:61-61 | n increments followed by one more equal n + 1 increments |
| CanTypes.CountersWrap | canping.c:124-124 | with an unsigned char counter, 255 is followed by 0 |
| CanPong.SizeT | canpong.c:81-81 | storing write(2)'s result in a size_t keeps non-negative counts and adds 2^64 to negative ones |
| CanPong.WrittenIsOne | canpong.c:81-91 | the `written != 1` test is passed exactly when write(2) returned 1, so a -1 (SIZE_MAX) is caught there and the `< 0` branch is dead |
| CanPong.LedChar | canpong.c:79-79 | the byte written is '0' for brightness 0 and '1' for brightness 1 |
| CanPong.SetBrightnessStatus | canpong.c:73-94 | set_led_brightness returns 0 or -1, and 0 exactly when the brightness is at most 1 and one byte was written |
| CanPong.LedFile.constructor | canpong.c:142-147 | the LED file starts with nothing written to it |
| CanPong.LedFile.SetBrightness | canpong.c:73-94 | a brightness above 1 returns -1 with no write; otherwise exactly one character '0' + brightness is written, and the result is SetBrightnessStatus |
| CanPong.Classify | canpong.c:150-173 | read_frame's checks in order: a negative count is a read failure, any other count than sizeof(struct can_frame) is incomplete, then DLC other than 1 is rejected, then a foreign identifier is ignored, else the counter is data[0] |
| CanPong.ReadFrameSpec | canpong.c:150-185 | read_frame returns 0 or -1; the LED is written exactly for an accepted frame, with '1' iff the counter is odd; a foreign frame returns 0, other rejections -1, an accepted one 0 iff the LED write succeeded |
| CanPong.Replay | canpong.c:220-227 | the read loop consumes reads until the first nonzero status; when it did not stop, every read returned 0 |
| CanPong.ReplaySnoc | canpong.c:221-226 | one more read after a session still running adds that read's status and LED writes |
| CanPong.ReplayPrefix | canpong.c:221-226 | once a session has stopped, later reads do not change it |
| CanPong.MatchingCounters | canpong.c:169-173 | the identifier filter over a run of reads: the counters of exactly the frames whose identifier is the configured one, in order, at most one per read |
| CanPong.ParityChars | canpong.c:179-179 | the LED characters for a counter sequence: one per counter, '1' for odd and '0' for even |
| CanPong.ReplayHealthy | canpong.c:164-184 | with complete, DLC-1 frames and working LED writes for the matching ones the loop never stops and writes exactly one parity character per matching frame, none for foreign ones |
| CanPong.LastMatchingDrivesLed | canpong.c:173-183 | after such traffic the last LED character is '1' iff the last matching frame's counter is odd |
| CanPong.Receiver.constructor | canpong.c:104-147 | the receiver starts on the configured identifier with an LED file nothing has been written to |
| CanPong.Receiver.ReadFrame | canpong.c:150-185 | read_frame returns ReadFrameSpec's status and appends exactly ReadFrameSpec's LED characters |
| CanPong.Receiver.Cleanup | canpong.c:195-204 | the exit handler writes '0' to the LED, whatever write(2) reports |
| CanPong.Receiver.Run | canpong.c:187-227 | the LED is set to '0' before the first read; if that fails the process exits with failure and no cleanup; otherwise the loop runs as Replay, exits with failure iff a read returned nonzero, and the exit handler writes '0' once at the end |
| CanPing.TickTime | canping.c:149-152 | the n-th tick comes 1 s + n × 0.5 s after the timer is armed |
| CanPing.Schedule | canping.c:148-155 | ticks are 500 ms apart, the first delay is twice the period, and the first five ticks are at 1.0, 1.5, 2.0, 2.5 and 3.0 s |
| CanPing.PingFrame | canping.c:119-131 | a ping frame has the configured identifier, DLC 1, the counter in data[0] and the other payload bytes untouched |
| CanPing.PingFrames | canping.c:123-137 | n ticks emit n frames |
| CanPing.PingFramesAt | canping.c:119-131 | the k-th frame of a run carries the k-th counter value under the fixed header |
| CanPing.PingFramesSnoc | canping.c:131-132 | one more tick appends one frame carrying the counter advanced n times |
| CanPing.Pinger.constructor | canping.c:118-124 | the frame buffer's identifier is set once to the configured one and its DLC to 1; the counter starts at 0 |
| CanPing.Pinger.Ping | canping.c:123-137 | data[0] gets the counter's current value, the counter advances with wrap-around, the frame is written, the identifier, DLC and data[1..7] are unchanged; a short write is only reported |
| CanPing.Pinger.Serve | canping.c:161-163 | over any number of ticks, whatever each write returned, the frames sent are PingFrames from the current counter, the header never changes and the counter advances once per tick |
| Stm32Pong.HeartbeatMsg | stm32f4_canpong/src/main.c:21-26 | tx builds a standard-identifier data frame with StdId 0x23, DLC 1 and Data[0] = the counter |
| Stm32Pong.FirstEmpty | stm32f4_canpong/src/main.c:39-45 | the position of the first pending message with DLC below 1, or the queue length when there is none |
| Stm32Pong.BlueAfter | stm32f4_canpong/src/main.c:47-52 | blue after a run of accepted messages is the parity of the last one, or unchanged when there is none |
| Stm32Pong.Drain | stm32f4_canpong/src/main.c:35-54 | rx consumes messages up to and including the first with DLC below 1; blue follows the last message before it; red latches iff such a message was found; the messages behind it stay pending |
| Stm32Pong.DrainAll | stm32f4_canpong/src/main.c:39-53 | with no DLC-0 message pending the FIFO ends empty, red is unchanged and blue is the parity of the last message |
| Stm32Pong.DrainIgnoresIdentifiers | stm32f4_canpong/src/main.c:39-53 | the drain depends on each message's DLC and first byte only, never on its identifier |
| Stm32Pong.Board.constructor | stm32f4_canpong/src/main.c:14-14 | out of reset led_counter is 0, the LEDs are off and nothing is sent or pending |
| Stm32Pong.Board.Boot | stm32f4_canpong/src/main.c:80-87 | after setup switched the LEDs off, a failed setup lights red and returns -1, a successful one lights green and idles; nothing else changes |
| Stm32Pong.Board.Tx | stm32f4_canpong/src/main.c:16-33 | one heartbeat message is queued; a failed status sets red; every other LED and the counter are unchanged |
| Stm32Pong.Board.Rx | stm32f4_canpong/src/main.c:35-54 | the FIFO, red and blue become Drain of their old values; green, orange, the counter and the transmit log are unchanged |
| Stm32Pong.Board.Tim2Irq | stm32f4_canpong/src/main.c:57-63 | on an update event orange flips, the counter's old value is transmitted and the counter advances with wrap-around; red rises only on a failed transmit; green, blue and the FIFO are unchanged |
| Stm32Pong.Board.Can1Rx0Irq | stm32f4_canpong/src/main.c:66-70 | a pending FIFO 0 interrupt drains the FIFO as Drain; without it nothing changes |
| Stm32Pong.Board.Exti0Irq | stm32f4_canpong/src/main.c:73-78 | the button clears red and changes nothing else |
| Stm32Pong.Board.Arrive | stm32f4_canpong/src/setup.c:62-73 | the receive filter, whose mask is all zeros, stores every received frame at the tail of FIFO 0 |
| Heartbeat.Deliver | canping.c:131-132 | delivery on the bus: each frame handed to write(2) arrives as one complete read of sizeof(struct can_frame) bytes, in order, and each LED write succeeds |
| Heartbeat.MatchingAllSent | canpong.c:169-173 | a receiver on the transmitter's identifier matches every ping frame, so the counters it sees are exactly those sent |
| Heartbeat.EndToEnd | canping.c:131-132 | frames sent by n ticks and delivered whole keep the receiver running and give one LED write per tick, the parity of that tick's counter |
| Heartbeat.FirstFiveCounters | canping.c:124-131 | a fresh transmitter emits 0, 1, 2, 3, 4, which map to '0', '1', '0', '1', '0' |
| Heartbeat.FiveTicks | canpong.c:179-179 | five ticks on the default identifier 0x7FF make the receiver write off, on, off, on, off |
| Heartbeat.OtherIdentifierIgnored | canpong.c:169-171 | a receiver on another identifier ignores every ping frame: it keeps running and never writes the LED |
| Heartbeat.AsHostFrame | stm32f4_canpong/src/main.c:21-26 | the bxCAN-to-SocketCAN view of a standard data message: same identifier, same DLC, same first payload byte |
| Heartbeat.EmbeddedHeartbeatIgnoredByDefaultHost | stm32f4_canpong/src/main.c:21-21 | the node's heartbeat on 0x23 is a foreign frame for a host receiver on its default 0x7FF |
| Heartbeat.DlcTwoDiverges | canpong.c:164-167 | a DLC-2 frame stops the host receiver but is taken by the embedded node, whose blue then shows the frame's first byte's parity |
| Heartbeat.ForeignIdentifierDiverges | stm32f4_canpong/src/main.c:47-52 | a frame on a foreign identifier leaves the host's LED alone and drives the embedded node's blue LED |

## Left out

- Command-line parsing and help text (`parse_cmdline`, `print_usage` in both host programs): the identifier is a parameter. Its parsing with `strtoumax` and truncation to `canid_t` is not modelled.
- Opening and binding the CAN socket, the interface-index lookup, and opening the sysfs LED file: each step is I/O that either succeeds or exits. The model starts after them.
- Signals, `sigaction`, `setitimer`, `pause`, `atexit` and `exit` as mechanisms. Ticks and signals are sequential calls. A signal arriving in the middle of `read_frame` or of `ping` is not modelled, because concurrency cannot be expressed here. `ping` is installed with `sa_flags` 0 (canping.c:140-142), so SIGALRM is blocked while it runs: an expiry during `ping` waits until it returns and further ones merge, so a tick can be delayed or lost but never re-enters `ping`. Delayed and lost ticks are not modelled. Only SIGINT or SIGTERM, whose default action ends the process, can cut `ping` short.
- The shared `status` variable of canpong.c: its values are the return values of the modelled methods.
- What the kernel's LED driver makes of a write that reported an error: `LedFile.writes` lists what was handed to write(2), not the LED's physical level.
- The pad and reserved bytes of `struct can_frame`, and the `frame` bytes a short read overwrote: `read_frame` never looks at them.
- The vendor-library register configuration in setup.c (clocks, pin modes, CAN bit timing, NVIC priorities, EXTI, TIM2 period). `setup()` is an input, except that its LED reset (setup.c:24) is part of `Board.Boot`. Interrupt priorities and preemption are not modelled.
- Clearing the interrupt-pending bits, and the hardware conditions behind `TIM_GetITStatus`, `CAN_GetITStatus` and `EXTI_GetITStatus`: they are boolean inputs.
- The bxCAN receive FIFO's depth of three messages and its overrun behaviour: `Board.fifo` is unbounded. How a remote frame's `Data[0]` reads back is not modelled.
- Debug printing (`#ifdef DEBUG`) and every `perror`/`fputs`/`fprintf` diagnostic. Their only trace in the model is `Ping`'s short-write result.
- Stm32Pong.Board.Tx: `CAN_Transmit` returns a mailbox number and the model does not keep it. The status for that mailbox is an input, so the library's answer for a full set of mailboxes is not modelled.
