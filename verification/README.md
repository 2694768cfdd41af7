# AVR launcher firmware: a Dafny model of its control kernel

The firmware drives a launcher/feeder rig on an AVR micro-controller:
- a back, a front and a side speed motor;
- a throw motor;
- two magazine motors.

It holds the speed motors at commanded speeds with a discrete PID regulator.
It takes command bytes from a Bluetooth link on UART3 and from the host on UART0.
It reports one telemetry line per iteration of its main loop.

The model covers these parts of the firmware:

- `Definitions` (definitions.dfy): `Abs` on the 16-bit `int` of the AVR compiler.
- `Communication` (communication.dfy): the command/status byte of `communication.h`.
  - Eight one-bit flags.
  - The `STATUS_DE_*` decoders, the `RESET_*` clearers and the `SET_*` setters.
  - The setters are written both as the header has them and as evidently intended.
- `Pid` (pid.dfy): the `PID` class of `PID.h`/`PID.cpp`, a `Controller` class whose methods update its fields.
  - `Compute_PID` has a zero-order hold: below the tick threshold it returns the held output.
  - The float gains are exact ratios, with C's truncation toward zero on assignment to `int`.
- `Uart` (uart.dfy): the interrupt-driven serial transport of `uart.cpp`.
  - A `RingBuffer` class over a byte array, with the ghost sequence of stored bytes as its abstraction.
  - A `Channel` class with the receive and transmit interrupts, `getc`, `putc`, `puts`, both `available` variants and `flush`.
- `Lcd` (lcd.dfy): the HD44780 driver of `lcd.cpp` in 4-bit mode.
  - A `Display` class holds the port lines and, as ghost state, the controller's side of the 4-bit protocol: the high nibble held between the two pulses and the bytes received so far.
  - The number printers are proved to send exactly the characters of a reference function.
  - `lcd_unum`'s double-dabble loop is proved to print the number right-aligned in five columns.
- `Firmware` (firmware.dfy): `main.cpp`.
  - The interrupt handlers: speed capture, overflow, PID tick and the magazine encoders.
  - One iteration of the `while(1)` loop, proved against functions that give the new `StartFlag`, the motor calls and the telemetry line.
  - The motor classes are not part of this model. Their methods become a log of `Call`s. The values read from them are parameters of the iteration (`Readings`).

Interrupt handlers and loop iterations are atomic steps.
Time, the hardware registers and the port pins are state that the methods receive or update.

## Model

| member | source | states |
|---|---|---|
| Definitions.Abs | Definitions.cpp:20-25 | the result is non-negative and is the argument or its negation, for every 16-bit argument except INT_MIN |
| Definitions.AbsOfNonNegative | Definitions.cpp:20-25 | a non-negative argument comes back unchanged |
| Definitions.AbsOfNegative | Definitions.cpp:22-23 | a negative argument comes back as `0 - x` |
| Definitions.AbsIdempotentAndEven | Definitions.cpp:20-25 | `Abs(Abs(x)) == Abs(x)` and `Abs(-x) == Abs(x)` |
| Definitions.NegationOverflowsOnlyAtIntMin | Definitions.cpp:22-23 | after 16-bit wrap-around, `0 - x` is negative exactly for positive x and for INT_MIN, so INT_MIN is the one argument `Abs` cannot handle |
| Communication.Position | communication.h:14-21 | every flag has a bit position below 8 |
| Communication.PositionsDistinct | communication.h:14-21 | the eight flags sit at eight distinct bits, validity at bit 0 and data request at bit 1 |
| Communication.Status | communication.h:25-32 | `STATUS_DE_x` yields 0 or 1, and 1 exactly when bit x is set |
| Communication.Reset | communication.h:35-42 | `RESET_x` clears flag x and leaves every other flag as it was |
| Communication.Raise | communication.h:47-62 | the bitwise-or assignment of each setter sets its flag and leaves every other flag as it was |
| Communication.SetAsWritten | communication.h:47-62 | each setter as written sets its flag, and every setter except `SET_DATA_RQ_BIT` also sets validity; `SET_STOP`'s bare `RESET_START_PLATFORM_MOTOR_BIT` (no `(`, so not expanded and not compilable where used) is read as doing nothing |
| Communication.StopAsWrittenKeepsStart | communication.h:49-54 | with the bare macro name read as doing nothing, `SET_START` then `SET_STOP` leaves start and stop both set (byte 0x0D) |
| Communication.StopAsWrittenEffect | communication.h:52-54 | with the bare macro name read as doing nothing, `SET_STOP` sets stop and validity and keeps every other flag, start included |
| Communication.Set | communication.h:47-62 | the setters with `SET_STOP` corrected to clear start: each sets its flag, all but `SET_DATA_RQ_BIT` set validity, and start and stop each clear the other |
| Communication.SetEffect | communication.h:47-62 | for every setter, with `SET_STOP` corrected, and every flag: the raised flags read 1, the cleared counterpart reads 0, every other flag keeps its value |
| Communication.StartStopExclusive | communication.h:49-54 | after a start setter and a stop setter, in either order, exactly the last one set is set |
| Communication.SetIdempotent | communication.h:47-62 | applying a setter twice equals applying it once, as written and as intended |
| Communication.SpeedBitsNotExclusive | communication.h:55-62 | the increase and decrease setters of an axis do not clear each other: both bits can be set |
| Communication.Decode | communication.h:25-32 | the decoded set holds exactly the flags whose `STATUS_DE` is 1 |
| Communication.DecodeInjective | communication.h:25-32 | two bytes with the same flags are equal |
| Communication.DecodeAfterSet | communication.h:47-62 | with `SET_STOP` corrected, decoding after a setter gives the old flags, minus the counterpart, plus the raised flags |
| Communication.ConsumeClearsOnlyValidity | communication.h:35 | clearing validity removes exactly the validity flag from the decoded set |
| Pid.TruncDiv | PID.cpp:92-96 | the `(int)` conversion of a quotient truncates toward zero and lies within one unit of the exact value |
| Pid.Mul | PID.cpp:92 | `(int)(g * 0)` is 0 |
| Pid.Accumulate | PID.cpp:94 | `iTerm += ki * error` with a zero error leaves the integral term unchanged |
| Pid.TimeLimit | PID.cpp:78-84 | the threshold is 5 ticks in low-speed mode and 0 otherwise |
| Pid.Limit | PID.cpp:113-119 | the result lies in `[min, max]`, equals the value when already inside, and otherwise is a bound |
| Pid.LimitIdempotent | PID.cpp:113-119 | limiting twice is limiting once |
| Pid.Controller.constructor | PID.h:34-42 | a global controller starts with every field zero |
| Pid.Controller.Initialise | PID.cpp:33-40 | installs setpoint 1500 and low-speed mode and changes nothing else |
| Pid.Controller.SetSetpoint | PID.cpp:43-47 | the setpoint becomes the argument and nothing else changes |
| Pid.Controller.SetPid | PID.cpp:49-54 | the three gains become the arguments and nothing else changes |
| Pid.Controller.IncSetpoint | PID.h:50 | the setpoint rises by `SETPOINTSTEPPING` (10) |
| Pid.Controller.DcrSetpoint | PID.h:51 | the setpoint falls by `SETPOINTSTEPPING` (10) |
| Pid.Controller.Tick | main.cpp:371-375 | the `uint8_t` tick counter advances by one, modulo 256 |
| Pid.TickWraps | PID.h:40 | a byte increment is the integer increment modulo 256 |
| Pid.Controller.ComputePid | PID.cpp:75-111 | once the counter reaches the threshold: the error, the three terms, the output `P + I - D`, the last speed and the zeroed counter; below it: nothing changes; either way the result is the held output; a speed equal to the setpoint and the last speed gives zero P and D terms and keeps I |
| Pid.HeldCallsAgree | PID.cpp:78-109 | two low-speed calls below the threshold return the same held output and leave the integral untouched |
| Pid.UpdateThenHold | PID.cpp:86-109 | an update zeroes the counter, so a low-speed call right after holds the new output |
| Pid.IncThenDcrRestores | PID.h:50-51 | `Inc_Setpoint` then `Dcr_Setpoint` restores the setpoint |
| Pid.ReferenceProducts | PID.cpp:22-24 | the reference gains' products, with truncation toward zero for negative ones |
| Pid.SteadyScenario | PID.cpp:86-109 | two updates at the setpoint (1500) produce output 0 |
| Pid.StepScenario | PID.cpp:26-27 | from rest, speed 1300 gives -30815, below `MIN_OUTPUT` (no clamping); speed 1400 next gives -2277; every intermediate value fits a 16-bit `int` |
| Uart.Next | uart.cpp:429 | the next index stays within the buffer |
| Uart.NextIsMaskedIncrement | uart.cpp:429 | `(i + 1) & MASK` on `unsigned char` is the wrapping successor for every power-of-two size |
| Uart.AvailableAsWritten | uart.cpp:654 | `(MASK + head - tail) % MASK` lies in `[0, MASK)`, so it never reports the MASK bytes of a full buffer |
| Uart.AvailableAsWrittenCharacterised | uart.cpp:652-655 | `(MASK + head - tail) % MASK` is the stored count while the bytes do not wrap and the buffer is not full, 0 when full without wrapping, and one less than the count once they wrap |
| Uart.AvailableAsWrittenMissesWrappedByte | uart.cpp:654 | one byte stored in slot 0 of a 32-slot buffer is reported as 0 available |
| Uart.Available | uart.cpp:652-655 | `(SIZE + head - tail) % SIZE` is exactly the number of stored bytes |
| Uart.RingBuffer.constructor | uart.cpp:360-366 | a fresh buffer of `SIZE` slots, both indices 0, empty |
| Uart.RingBuffer.CapacityBound | uart.cpp:8-29 | a buffer of SIZE slots never holds more than SIZE - 1 bytes |
| Uart.RingBuffer.IsEmpty | uart.cpp:558 | `head == tail` exactly when no byte is stored |
| Uart.RingBuffer.IsFull | uart.cpp:431 | the next head is the tail exactly when SIZE - 1 bytes are stored |
| Uart.RingBuffer.Reset | uart.cpp:476-479 | both indices 0 and the buffer empty |
| Uart.RingBuffer.Put | uart.cpp:429-440 | the byte is appended when there is room; otherwise it is dropped and nothing changes |
| Uart.RingBuffer.Take | uart.cpp:562-567 | removes and returns the oldest stored byte |
| Uart.RingBuffer.Flush | uart.cpp:667 | the unread bytes are discarded; the tail stays |
| Uart.UntilNul | uart.cpp:621-626 | the bytes of a C string: a NUL-free prefix that ends at the first NUL or at the end |
| Uart.UntilNulIsPrefix | uart.cpp:621-626 | any NUL-free prefix that ends at a NUL or at the end is the C string |
| Uart.Channel.constructor | uart.cpp:360-366 | two fresh empty buffers, no latched error, transmit interrupt off |
| Uart.Channel.Init | uart.cpp:474-479 | all four indices 0, both buffers empty, transmit interrupt off, latched error kept |
| Uart.Channel.ReceiveIsr | uart.cpp:401-442 | with room: the byte is queued and the error is the status' FE/DOR bits; full: the byte is dropped and the overflow code latched |
| Uart.Channel.Getc | uart.cpp:552-571 | `UART_NO_DATA` exactly on an empty buffer; otherwise the oldest byte in the low half, the latched error in the high half, and that byte removed |
| Uart.Channel.Putc | uart.cpp:580-597 | the byte is queued for sending and the transmit interrupt enabled |
| Uart.Channel.Puts | uart.cpp:621-626 | the bytes of the C string are queued in order; the interrupt is enabled if any was sent |
| Uart.Channel.TransmitIsr | uart.cpp:445-465 | hands over the oldest queued byte, or disables the interrupt when the queue is empty |
| Uart.Channel.AvailableZero | uart.cpp:652-655 | `uart0_available` in terms of the stored bytes: short by one once they wrap, 0 when the buffer is full without wrapping |
| Uart.Channel.AvailableThree | uart.cpp:1326-1329 | `uart3_available` is non-zero exactly when a byte is stored |
| Uart.Channel.Flush | uart.cpp:665-668 | the unread received bytes are dropped; the tail and the stored bytes in the array stay |
| Uart.ReceiveAll | uart.cpp:401-442 | bytes received while there is room are queued in arrival order |
| Uart.ReadAll | uart.cpp:552-571 | calling `getc` until empty returns the queued bytes in order |
| Uart.ReceiveThenRead | uart.cpp:429-567 | first in, first out: up to SIZE - 1 bytes received come back from `getc` in arrival order |
| Lcd.HighNibbleLines | lcd.cpp:12-31 | setting D7..D4 from bits 7..4 of the byte puts its high nibble on the lines |
| Lcd.LowNibbleLines | lcd.cpp:35-54 | setting D7..D4 from bits 3..0 of the byte puts its low nibble on the lines |
| Lcd.NibbleSplitRoundTrip | lcd.cpp:9-57 | the high-then-low nibble split reassembles the byte into the register RS selects |
| Lcd.Text | lcd.cpp:108-112 | the displayed text has at most one character per transfer, all of them bytes |
| Lcd.TextOfChars | lcd.cpp:108-112 | sending characters with `lcd_putch` and reading the displayed text gives those characters back |
| Lcd.ChexValues | lcd.cpp:170-173 | `chex[d]` is the digit of value d; the blanking table differs only at 0, which is a space |
| Lcd.ChexInverse | lcd.cpp:170-171 | the entries of `chex` are exactly the hex digits, each at its own value |
| Lcd.HexChars | lcd.cpp:176-182 | four hex digits (0-9, A-F), most significant first, whose value is `num` |
| Lcd.HexCharsUnique | lcd.cpp:176-182 | any four hex digits whose value is `num` are exactly the output of `lcd_unum_hex` |
| Lcd.HexCharsBlanking | lcd.cpp:184-190 | the first three zero digits (every zero, not only leading ones) become spaces; the last digit is always shown |
| Lcd.BlankingMiddleZeros | lcd.cpp:184-190 | 0x1001 shows "1  1": zero digits in the middle are blanked too |
| Lcd.BlankingZero | lcd.cpp:184-190 | 0 shows "   0" |
| Lcd.BlankingLetters | lcd.cpp:184-190 | 0xA0F0 shows "A F0" |
| Lcd.Unum3Chars | lcd.cpp:192-197 | three decimal digits, zero-padded, whose value is `num` |
| Lcd.Place | lcd.cpp:220-224 | every column shows a space or a decimal digit |
| Lcd.RightAligned | lcd.cpp:199-225 | the reference for `lcd_unum`: five byte characters |
| Lcd.Corrected | lcd.cpp:205-212 | a decimal digit after the add-3 correction is at most 12, and is 8 or more (its double carries out of the nibble) exactly when the digit is 5 or more |
| Lcd.DoubleAdjusted | lcd.cpp:205-212 | doubling a digit after the add-3 correction carries exactly what doubling it in decimal carries |
| Lcd.CorrectDigits | lcd.cpp:205-212 | each BCD digit of 5 or more gets 3 added, the others stay |
| Lcd.ShiftIn | lcd.cpp:214-217 | the corrected shift doubles the BCD number and adds the incoming bit |
| Lcd.ShiftInBcd | lcd.cpp:214-217 | the shift expressions of the source keep a valid BCD value that stands for twice the number plus the bit |
| Lcd.ShiftInDigits | lcd.cpp:214-217 | once each corrected digit's double is split into carry and remainder, the shifted value is valid BCD standing for twice the number plus the bit |
| Lcd.LeadingNibbles | lcd.cpp:221-223 | `bcd` is below 0x1000, 0x100 or 0x10 exactly when its digits above that are zero |
| Lcd.UnumChars | lcd.cpp:220-224 | five columns, each a space or a hex digit; the first is a space exactly when `bcd4` is 0; the last is never blank |
| Lcd.UnumCharsAsWritten | lcd.cpp:220 | with the first column read from data space (`stray`), the output equals the intended one exactly when `bcd4` is 0 or the stray byte is the digit |
| Lcd.UnumCharsRightAligned | lcd.cpp:220-224 | blanking the leading zero digits of the BCD result is right-aligning the number it stands for |
| Lcd.UnumAsWrittenFirstColumn | lcd.cpp:220 | for a number of 10000 or more the as-written output is right-aligned `num` exactly when the stray byte is the ten-thousands digit |
| Lcd.UnumAsWrittenMisreadsTenThousands | lcd.cpp:220 | for 10000 the as-written output differs from "10000" whenever the stray byte is not '1' |
| Lcd.PrefixIsQuotient | lcd.cpp:217 | the bits of `num` from position i up, whose lowest is the bit the round tests, are `num` divided by 2 to the i |
| Lcd.PrefixAtMost | lcd.cpp:217 | the bits read so far never stand for more than `num` |
| Lcd.PrefixOfSixteenBits | lcd.cpp:199-203 | before the first of the sixteen rounds no bit of the 16-bit `num` is read |
| Lcd.DabbleRound | lcd.cpp:205-217 | one round keeps a valid BCD value and doubles the number that `bcd4` and `bcd` stand for, adding the incoming bit |
| Lcd.DoubleDabble | lcd.cpp:199-218 | after sixteen rounds of add-3 correction and shift, `bcd4` and the BCD digits of `bcd` stand for `num` |
| Lcd.UnumDigits | lcd.cpp:199-225 | the double-dabble loop produces `num` right-aligned in five columns |
| Lcd.UnumZero | lcd.cpp:199-225 | 0 prints as four spaces and '0' |
| Lcd.UnumMax | lcd.cpp:199-225 | 65535 fills all five columns |
| Lcd.GotoxyAddress | lcd.cpp:234-237 | the DDRAM address is `y * 64 + x` truncated to a byte |
| Lcd.GotoxyLines | lcd.cpp:234-237 | lines 0 and 1 start at 0x00 and 0x40; line y + 4 lands on line y |
| Lcd.GotoCommand | lcd.cpp:118-122 | the bitwise or of 0x80 and an address below 0x80 is the "set DDRAM address" command |
| Lcd.Display.constructor | lcd.cpp:9-57 | nothing received, no nibble held, RS low |
| Lcd.Display.Strobe | lcd.h:143 | one EN pulse: the first of a pair holds RS and D7..D4 as the high nibble, the second completes the byte with the low nibble |
| Lcd.Display.Write | lcd.cpp:9-57 | two strobes, high nibble first; the controller receives the byte in the register RS selects |
| Lcd.Display.Cmd | lcd.cpp:60-64 | the byte reaches the instruction register |
| Lcd.Display.Dat | lcd.cpp:67-71 | the byte reaches the data register |
| Lcd.Display.Putch | lcd.cpp:108-112 | the character's code reaches the data register |
| Lcd.Display.Goto | lcd.cpp:118-122 | the "set DDRAM address" command is sent |
| Lcd.Display.Gotoxy | lcd.cpp:234-237 | the address command for column x of line y is sent |
| Lcd.Display.Unum3 | lcd.cpp:192-197 | exactly the characters of `Unum3Chars(num)` are displayed |
| Lcd.Display.UnumHex | lcd.cpp:176-182 | exactly the characters of `HexChars(num)` are displayed |
| Lcd.Display.UnumHexBlanking | lcd.cpp:184-190 | exactly the characters of `HexCharsBlanking(num)` are displayed |
| Lcd.Display.Unum | lcd.cpp:199-225 | exactly `num` right-aligned in five columns is displayed |
| Firmware.SpeedMotor.Capture | main.cpp:329-334 | the timer value is captured, the timer restarts at 0 and the capture flag is raised |
| Firmware.SpeedMotor.Elapse | main.cpp:329-334 | the 16-bit timer counts modulo 65536 |
| Firmware.EdgeToEdge | main.cpp:329-334 | two edges `ticks` apart capture `ticks` modulo 65536 |
| Firmware.Magazine.Count | main.cpp:395-428 | an encoder edge records its direction and moves the count by one in that direction |
| Firmware.EncoderStep | main.cpp:395-428 | the step is +1 exactly for an up edge, -1 otherwise |
| Firmware.FrontTravel | main.cpp:395-410 | n edges move the front count by at most n either way |
| Firmware.BackTravel | main.cpp:413-428 | n edges move the back count by at most n either way |
| Firmware.TravelsOpposite | main.cpp:395-428 | the two encoders count the same B levels in opposite senses |
| Firmware.AlternatingCancels | main.cpp:395-428 | B alternating low/high cancels out on either encoder |
| Firmware.Values | main.cpp:235-255 | six telemetry values per line |
| Firmware.MotorFields | main.cpp:236-242 | three space-separated fields per motor |
| Firmware.TelemetryLine | main.cpp:235-255 | a telemetry line has fifteen items |
| Firmware.ParseTelemetryLine | main.cpp:235-255 | a receiver recovers the tag and the six values from a telemetry line |
| Firmware.ParseRejectsShortLine | main.cpp:235-255 | a sequence of any other length is not a telemetry line |
| Firmware.Command | main.cpp:136-139 | the command byte is a byte, and 0 exactly when nothing is waiting on UART3 or the waiting byte is NUL |
| Firmware.Commanded | main.cpp:178-198 | `StartFlag` becomes true exactly on 'g', or when it was true and the byte is not 's' |
| Firmware.CommandCalls | main.cpp:178-203 | at most two calls, all to the magazines, and only on 's' or on 'g' at `HOMEPOSITION` |
| Firmware.BranchCalls | main.cpp:219-282 | six calls when running, four to six when stopped; the back motor is stopped exactly when not running; the throw motor gets the command byte when running and 0 when stopped |
| Firmware.HostByte | main.cpp:210-217 | the host byte is a byte |
| Firmware.StopCommandStopsEverything | main.cpp:196-203 | after 's' the platform is stopped, whatever came before: magazines, speed motors and side motor stopped, throw motor told 0 |
| Firmware.GoCommandRuns | main.cpp:178-195 | after 'g' the platform runs; the magazines are started exactly when the throw motor is at home |
| Firmware.BranchesExclusive | main.cpp:207-310 | the back motor is operated exactly in the running branch and stopped exactly in the other |
| Firmware.Board.constructor | main.cpp:40-48 | globals zero, `StartFlag` false, channels empty, no calls, no telemetry |
| Firmware.Board.BackEdgeIsr | main.cpp:329-334 | the back motor's capture |
| Firmware.Board.BackOverflowIsr | main.cpp:337-340 | a timer overflow without an edge sets the back speed to 0 |
| Firmware.Board.SideEdgeIsr | main.cpp:342-347 | the side motor's capture |
| Firmware.Board.SideOverflowIsr | main.cpp:350-353 | the side handler's statement is commented out: the speed is kept |
| Firmware.Board.FrontOverflowIsr | main.cpp:357-360 | a timer overflow without an edge sets the front speed to 0 |
| Firmware.Board.FrontEdgeIsr | main.cpp:363-368 | the front motor's capture |
| Firmware.Board.PidTickIsr | main.cpp:371-375 | both regulators' counters advance by one, modulo 256 |
| Firmware.FiveTicksRelease | main.cpp:371-375 | five ticks release a low-speed update: the speed is taken in, the counter returns to 0, the new output is returned |
| Firmware.Board.FrontEncoderIsr | main.cpp:395-410 | B low counts the front magazine up, B high counts it down |
| Firmware.Board.BackEncoderIsr | main.cpp:413-428 | B high counts the back magazine up, B low counts it down |
| Firmware.Board.FrontEncoderEdges | main.cpp:395-410 | a run of front encoder interrupts moves the count by `FrontTravel` of their B levels |
| Firmware.Board.BackEncoderEdges | main.cpp:413-428 | a run of back encoder interrupts moves the count by `BackTravel` of their B levels |
| Firmware.Board.Putc | main.cpp:235 | the character is handed to UART0 |
| Firmware.Board.Putint | main.cpp:237 | the integer is handed to UART0 |
| Firmware.Board.SendMotorFields | main.cpp:236-242 | the three fields of one motor are sent |
| Firmware.Board.SendTelemetry | main.cpp:235-255 | exactly one telemetry line is sent |
| Firmware.Board.ReadCommand | main.cpp:136-139 | the oldest UART3 byte, if any, becomes `Rx_Buffer` and is removed from the buffer |
| Firmware.Board.HandleCommand | main.cpp:178-203 | `StartFlag` and the magazine calls follow the command; a start from stopped raises both virginity flags |
| Firmware.Board.ReadHost | main.cpp:210-217 | when `uart0_available` reports a byte, the oldest is read; '.' clears `StartFlag` |
| Firmware.Board.Branch | main.cpp:207-313 | the branch StartFlag selects is taken, then `Rx_Buffer` and `rx` are reset |
| Firmware.Board.RunBranch | main.cpp:207-258 | the host byte is read, the running calls are made in order, the bytes reset and line '2' sent |
| Firmware.Board.StopBranch | main.cpp:259-310 | the stop calls (and the 'd'/'D' magazine calls) are made, the bytes reset and line '1' sent |
| Firmware.Board.LoopStep | main.cpp:124-315 | one iteration: the new `StartFlag`, the calls, the telemetry line, the virginity flags and both receive buffers, all as functions of the state before it; the bytes are 0 again after it |

## Left out

- Register setup is not modelled: per-MCU register tables, baud rate and frame setup, and the pin macros (uart.cpp:119-354, the body of `uart0_init` after the index resets, declarations.h, headers.h). Reading a port pin becomes a `bool` parameter.
- Interrupts and the main loop are not interleaved. Each handler, each library routine and each loop iteration is one atomic step, so the `ATOMIC_BLOCK`s of uart.cpp add nothing here.
- uart.h is not part of this model. These values are taken from the library's published header:
  - `UART_NO_DATA` = 0x0100 and `UART_BUFFER_OVERFLOW` = 0x0200;
  - the FE0/DOR0 bits (0x18);
  - the buffer sizes, which are a parameter (any power of two from 2 to 256).
- Only the UART0 code and the UART3 `available`/`getc` variants are modelled. UART1, UART2 and the other UART3 routines are copies of UART0.
- `uartN_puts_p` is not modelled (program memory).
- `uart0_putint` is not modelled as digits: it formats with `itoa`, and the firmware model records the integer.
- Uart.Channel.Putc: the busy-wait until the transmit buffer has room is a precondition. Waiting for the transmit interrupt would need interleaving.
- Uart.Channel.Puts: requires room for the whole string, for the same reason.
- Pid.Mul: the float gains are exact ratios with truncation toward zero. Float rounding of `float` products is not modelled.
- Pid.Controller.IncSetpoint: 16-bit overflow of the setpoint is not modelled. The same holds for the terms in `ComputePid` and the encoder counts: integers are unbounded there. 16-bit wrap-around is modelled where it decides a property: the `Abs` argument INT_MIN, the `uint8_t` tick counter and the 16-bit capture timer.
- `Inc_KP` … `Dcr_KD` (PID.h:44-49) change a gain by a float step and are not modelled.
- The getters `Get_Kp` … `Get_dTerm` are field reads with nothing to state; they have no contract.
- `Compute_PID`'s local `static int output` is not kept as state. It is shared by all controllers, but it is only read right after it is written, and then it is copied to the controller's `lastOutput`.
- In lcd.cpp, the following are not modelled: `lcd_init`, `lcd_clear`, the delays, `lcd_puts`, `lcd_puts_p`, `lcd_num` (`itoa`), `Printf` and the busy flag. `pgm_read_byte` from the digit tables (lines 178-189 and 221-224) is a sequence index.
- Lcd.Display.Unum: the `+=` of the correction step is on 16-bit values and is proved not to overflow, so no wrap is modelled.
- Lcd.Display.Unum: sends the intended first column, the ten-thousands digit `chex[bcd4]`; lcd.cpp:220 reads `chex` without `pgm_read_byte`, so on the AVR that column is a byte from data space (see Findings); `UnumCharsAsWritten` models the source's version.
- The LCD status output of the main loop (main.cpp:143-171) is not modelled.
- The reads of throw-motor flags into unused globals (main.cpp:128-132, 176) are not modelled.
- The start-up code before the loop (main.cpp:50-122) is not modelled: its initialisation calls and its loop over motor positions. `initialise`, `bluetooth_check` and `wdt_init` are not modelled.
- The motor classes (BackMotor, FrontMotor, SideMotor, ThrowMotor and the magazines' `Operate`/`StopMotor`/`MoveD`) are not part of this model.
  - Their calls are logged with their arguments.
  - Their return values are unused by the loop and not modelled.
  - Their effect on speeds, compare values, setpoints, virginity flags and the throw position is not modelled; those values enter each iteration as `Readings`.
- Firmware.Board.SendTelemetry: records what is handed to `uart0_putc`/`uart0_putint`, not the bytes in the UART0 transmit buffer, because `putint` formatting is not modelled.
- Firmware.SpeedMotor.Elapse: models the hardware counting of the timer between two edges. No handler does that.
- How the source differs from its design description:
  - `SET_STOP` does not clear start: as written it does not compile where used, and read as a no-op it leaves start set (see Findings).
  - The increase/decrease speed setters do not clear each other, so those pairs are not exclusive (`SpeedBitsNotExclusive`).
  - `SET_DATA_RQ_BIT` does not set validity.
  - The model follows the code on each of these points.
- The loop's test `rx == 'S'` (main.cpp:196) is always false: `rx` is 0 when the command test runs. The model keeps it as written.
- The loop reads UART0 through the as-written `uart0_available`, so the model inherits its undercount (see Findings).

## Findings

| source | as written | input that shows it | evidently intended | confidence | as-written member | corrected member |
|---|---|---|---|---|---|---|
| uart.cpp:654 | `(UART_RX0_BUFFER_MASK + head - tail) % UART_RX0_BUFFER_MASK` | a 32-byte buffer with tail 31 and head 0 holds one byte but reports 0; a full non-wrapped buffer also reports 0 | `(SIZE + head - tail) % SIZE`, the number of stored bytes | high, not executed | Uart.AvailableAsWrittenMissesWrappedByte | Uart.Available |
| communication.h:52-54 | `SET_STOP` names the function-like macro `RESET_START_PLATFORM_MOTOR_BIT` without `(`: the preprocessor does not expand it, so any use of `SET_STOP` fails to compile (no file of the firmware uses it); read as a statement that does nothing, start is not cleared | on that reading, `SET_START` then `SET_STOP` on 0x00 gives 0x0D, start and stop both set; compiled, a use is an error | clear start, the mirror image of `SET_START` | medium, not executed | Communication.StopAsWrittenKeepsStart | Communication.StartStopExclusive |
| lcd.cpp:220 | `(bcd4)?(chex[bcd4]):' '` reads the program-memory table `chex` as data memory, without `pgm_read_byte` (lines 221-224 use it) | `num` = 10000: the first column is the data-space byte at `chex`'s program-memory address plus 1, not '1' | `pgm_read_byte(&chex[bcd4])`, the ten-thousands digit | high, not executed | Lcd.UnumAsWrittenMisreadsTenThousands | Lcd.UnumDigits |
