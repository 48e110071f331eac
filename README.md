# StatisticalRobot device drivers, modelled in Dafny

This project models the device drivers of the StatisticalRobot library. The library is the C# layer a student robot uses to talk to its sensors and actuators:

- the AK09918 three-axis magnetometer (I2C);
- the Grove 16x2 character display (I2C), with its scrolling slide show;
- the Grove multichannel gas sensor (I2C);
- a push button, a buzzer and an infrared reflection sensor (digital pins);
- a periodic timer.

How the model represents the hardware:

- **I2C bus.** Each bus device is a `Device` object (module `I2cBus`). It has a fixed address and an append-only trace of events: register writes, register reads with the bytes they returned, and waits. What a read returns comes from an oracle. The oracle gets the whole trace so far, the register and the byte offset, so a sensor whose answer depends on earlier traffic is covered.
- **Digital pins.** The robot board is a `Board` object (module `Gpio`). It keeps a log of mode changes, reads and writes. A read's level comes from an oracle over the log.
- **Time.** Wall-clock time is an explicit `now` parameter, in whole milliseconds since DateTime's zero (0001-01-01).
- **Specification pattern.** Every driver method is proved against a pure function of the old state and the inputs. The properties the library promises are then proved as lemmas about those functions.

What is proved, in the library's terms:

- **AK09918.**
  - In single-shot mode, an acquisition re-arms the sensor. It then polls the mode register. It times out exactly when none of the first 15 polls reads idle.
  - A timed-out acquisition made exactly 16 polls and read no sample. It returns the caller's values unchanged.
  - Otherwise, exactly one 8-byte sample block is read, last, and decoded.
  - In the continuous modes, the driver reads the block once without polling.
  - Decoding is the inverse of encoding: the little-endian axes, the big-endian device ID, and the overflow classification.
  - Scaling to microtesla truncates toward zero and stays within ±4915.
  - Every error kind has its own distinct text.
- **Character display.**
  - The argument check fails exactly when the line or the position is out of range, and reports the line first.
  - `SetText`'s wrapping loop writes exactly a two-row layout: at most 16 characters per row, no newline, and the cursor moved to 0xC0 between the rows.
  - `SetTextNoRefresh` fills both rows with newline-free text.
  - A slide show's frames are the 16-character windows of the padded text. Right to left is left to right reversed. The first and last frames are blank. Every frame is written at the start of the chosen line.
- **Gas sensor.**
  - The 4-byte little-endian reading round-trips.
  - `MeasureAll` reads the NO2, ethanol, VOC and CO channels in that order.
  - The address guard is shown as written: it lets negative values through.
- **Clock-gated drivers.**
  - The timer, the buzzer and the infrared sensor share one gate. On a clock that does not run backwards, two firings are more than one period apart.
  - The buzzer's writes alternate, starting Low.
  - The infrared sensor samples exactly when its gate fires.
  - The button reports at most one button-up per minimum delay, and never on the first call.

Behaviour worth knowing, modelled as the code has it:

- `Initialize`'s default mode is single-shot (`Normal`), although the comment above it says 10 Hz continuous.
- `Initialize(Normal)` records the mode but writes nothing.
- The poll reads the mode register CNTL2, not the status register.
- A timeout in `GetData` scales the caller's incoming values.
- `GetStateBool` is true when the pin reads Low, which its doc comment calls "button is up".

## Model

| member | source | states |
|---|---|---|
| Ak09918.ModeCode | StatisticalRobot-Lib/AK09918.cs:5-13 | the mode byte is 0x10 exactly for self-test and 0x00 exactly for power-down |
| Ak09918.ModeCodeInjective | StatisticalRobot-Lib/AK09918.cs:5-13 | distinct modes have distinct register codes |
| Ak09918.ErrorCode | StatisticalRobot-Lib/AK09918.cs:15-25 | every error kind has a code in 0..7 |
| Ak09918.StrError | StatisticalRobot-Lib/AK09918.cs:154-197 | the text is "Unknown Error" exactly when the code is outside the eight declared kinds |
| Ak09918.StrErrorDistinct | StatisticalRobot-Lib/AK09918.cs:154-197 | no declared kind gets the generic text, and different kinds get different texts |
| Ak09918.ToInt16 | StatisticalRobot-Lib/AK09918.cs:120-122 | the `(short)` cast is congruent to its argument modulo 2^16 and the identity on the int16 range |
| Ak09918.Int16RoundTrip | StatisticalRobot-Lib/AK09918.cs:120-122 | decoding the low and high bytes of any int16, little-endian, returns it |
| Ak09918.Int16Split | StatisticalRobot-Lib/AK09918.cs:120-122 | `Int16LE` of any two bytes has them as its low and high bytes, and is negative exactly when the high byte is 0x80 or more |
| Ak09918.DecodeSample | StatisticalRobot-Lib/AK09918.cs:118-130 | a decoded sample is classified only as OK or overflow |
| Ak09918.DecodeEncode | StatisticalRobot-Lib/AK09918.cs:118-130 | decoding a sensor's block returns its three axes, and reports overflow exactly when bit 0x08 of status byte 2 is set |
| Ak09918.DeviceIdRoundTrip | StatisticalRobot-Lib/AK09918.cs:199-204 | the ID pair is big-endian, so splitting any int16 high byte first and decoding returns it |
| Ak09918.DeviceIdSplit | StatisticalRobot-Lib/AK09918.cs:203 | `DeviceId` of any pair has the first byte as its high byte and the second as its low byte, and is negative exactly when the first is 0x80 or more |
| Ak09918.DeviceIdExample | StatisticalRobot-Lib/AK09918.cs:199-204 | company 0x48 and device 0x0C give 0x480C |
| Ak09918.Scale | StatisticalRobot-Lib/AK09918.cs:88-90 | the microtesla value lies within ±4915 and is 15v/100 truncated toward zero |
| Ak09918.ScaleExamples | StatisticalRobot-Lib/AK09918.cs:88-90 | 16, 32, 48 scale to 2, 4, 7; -16 scales to -2, not -3; the int16 extremes scale to ±4915 |
| Ak09918.PollShape | StatisticalRobot-Lib/AK09918.cs:101-115 | from read n on, the loop makes 1 to 16-n reads of CNTL2 and every read but the last is non-zero; it gives up exactly when it made all of them, and otherwise stopped on 0x00 |
| Ak09918.NormalSplit | StatisticalRobot-Lib/AK09918.cs:98-131 | a single-shot acquisition is the re-arm write, the poll events, then the sample read unless it timed out; on a timeout no sample is read and the caller's values are kept |
| Ak09918.TimeoutIffNoIdlePoll | StatisticalRobot-Lib/AK09918.cs:98-116 | after writing 0x01 to CNTL2, the acquisition times out if and only if none of the first 15 polls read 0x00 |
| Ak09918.TimeoutAborts | StatisticalRobot-Lib/AK09918.cs:109-112 | a timeout made exactly 16 poll reads, read no sample block and left x, y, z unchanged |
| Ak09918.SampleAfterIdle | StatisticalRobot-Lib/AK09918.cs:103-130 | without a timeout, polling stopped at its first 0x00 within 15 reads, and the one sample block was read last and decoded into the result |
| Ak09918.ContinuousReadsOnce | StatisticalRobot-Lib/AK09918.cs:118-130 | outside single-shot mode the driver writes and polls nothing and makes one 8-byte read at 0x11, decoded |
| Ak09918.ScaledKeepsError | StatisticalRobot-Lib/AK09918.cs:85-93 | GetData returns GetRawData's error and trace, with each axis scaled |
| Ak09918.OverflowExample | StatisticalRobot-Lib/AK09918.cs:85-130 | a block with status 0x08 gives Overflow with raw (16, 32, 48) and microtesla (2, 4, 7) |
| Ak09918.InitialMode | StatisticalRobot-Lib/AK09918.cs:68-72 | Initialize never settles on self-test: self-test becomes power-down, and any other mode is kept |
| Ak09918.InitialWrites | StatisticalRobot-Lib/AK09918.cs:74-81 | Initialize sends nothing exactly when it settles on single-shot mode, and otherwise one write of that mode's code to CNTL2 |
| Ak09918.SelfTestInitializesAsPowerDown | StatisticalRobot-Lib/AK09918.cs:68-81 | Initialize(SelfTest) records the same mode as Initialize(PowerDown), power-down, and sends the same single write of 0x00 |
| Ak09918.AK09918.constructor | StatisticalRobot-Lib/AK09918.cs:60-63 | a fresh device at the fixed address 0x0C with an empty trace, mode power-down |
| Ak09918.AK09918.SwitchMode | StatisticalRobot-Lib/AK09918.cs:138-147 | self-test fails with WriteFailed and changes nothing; any other mode returns OK, is recorded and is written once to CNTL2 |
| Ak09918.AK09918.Initialize | StatisticalRobot-Lib/AK09918.cs:66-82 | returns OK, records InitialMode(m) and appends exactly InitialWrites(m) |
| Ak09918.AK09918.GetMode | StatisticalRobot-Lib/AK09918.cs:133-136 | the recorded mode, never self-test for a driver in its invariant |
| Ak09918.AK09918.Reset | StatisticalRobot-Lib/AK09918.cs:149-152 | one write of the soft-reset bit to CNTL3 |
| Ak09918.AK09918.GetRawMode | StatisticalRobot-Lib/AK09918.cs:206-209 | one read of CNTL2, returning the sensor's answer |
| Ak09918.AK09918.GetRawData | StatisticalRobot-Lib/AK09918.cs:96-131 | the error, the new trace and x, y, z are exactly AcquireRaw of the old mode and trace; the mode is kept |
| Ak09918.AK09918.GetData | StatisticalRobot-Lib/AK09918.cs:85-93 | the error, the new trace and x, y, z are exactly AcquireScaled of the old mode and trace |
| Ak09918.AK09918.GetDeviceID | StatisticalRobot-Lib/AK09918.cs:199-204 | one 2-byte read at 0x00, its bytes combined high byte first |
| AbstractLcd.CheckBounds | StatisticalRobot-Lib/AbstractLCD.cs:100-106 | passes if and only if each given argument is in range; a bad line is reported, with its value, before a bad position |
| Lcd16x2.CharByte | StatisticalRobot-Lib/LCD16x2.cs:111 | `(byte)c` agrees with the character's code modulo 256, and equals it for codes below 256 |
| Lcd16x2.CursorAddress | StatisticalRobot-Lib/LCD16x2.cs:33 | for an in-range cell the command is 0x80 + 0x40·line + position |
| Lcd16x2.PadRight | StatisticalRobot-Lib/LCD16x2.cs:82 | the result has length the larger of n and the text's length, starts with the text, and is spaces after it |
| Lcd16x2.WrapLength | StatisticalRobot-Lib/LCD16x2.cs:58-74 | the wrapping loop makes at most one write per character, plus one move to the second line |
| Lcd16x2.WrapIsRendered | StatisticalRobot-Lib/LCD16x2.cs:58-74 | the wrapping loop's writes equal the two-row layout: the first row, then, if text is left, the cursor to line 1 and the second row |
| Lcd16x2.RenderedRows | StatisticalRobot-Lib/LCD16x2.cs:53-75 | the layout writes no newline, at most 16 characters per row, and moves to 0xC0 only when text is left after the first row |
| Lcd16x2.WrapNewlineFree | StatisticalRobot-Lib/LCD16x2.cs:58-74 | newline-free text shows its first 32 characters (all of it if shorter), with the cursor moved to 0xC0 before the 17th |
| Lcd16x2.PaddedFillsDisplay | StatisticalRobot-Lib/LCD16x2.cs:77-101 | newline-free text padded to 32 fills both rows: 16 characters, 0xC0, then 16 characters |
| Lcd16x2.LCD16x2.constructor | StatisticalRobot-Lib/LCD16x2.cs:19-27 | a fresh device at the address; the trace is clear, a 1 ms wait, display on with the cursor off (0x0C), two-line mode (0x28) |
| Lcd16x2.LCD16x2.TextCommand | StatisticalRobot-Lib/LCD16x2.cs:114-117 | one byte written to the action register |
| Lcd16x2.LCD16x2.WriteChar | StatisticalRobot-Lib/LCD16x2.cs:109-112 | the character's low byte written to the data register 0x40 |
| Lcd16x2.LCD16x2.SetCursor | StatisticalRobot-Lib/LCD16x2.cs:29-34 | the result is CheckBounds of line and position; on failure nothing is written, on success one address command |
| Lcd16x2.LCD16x2.SetTextAt | StatisticalRobot-Lib/LCD16x2.cs:36-51 | checked as SetCursor; on success the address command, then the text cut at the end of the line, one character per write |
| Lcd16x2.LCD16x2.WriteWrapped | StatisticalRobot-Lib/LCD16x2.cs:58-74 | the loop appends exactly Wrap(text), the layout WrapIsRendered characterises |
| Lcd16x2.LCD16x2.SetText | StatisticalRobot-Lib/LCD16x2.cs:53-75 | clear, a 50 ms wait, then the wrapped text |
| Lcd16x2.LCD16x2.SetTextNoRefresh | StatisticalRobot-Lib/LCD16x2.cs:77-101 | return home, a 50 ms wait, then the text padded to 32 characters, wrapped |
| Lcd16x2.LCD16x2.Clear | StatisticalRobot-Lib/LCD16x2.cs:103-107 | clear, then a 50 ms wait |
| LcdSlide.Frames | StatisticalRobot-Lib/LCDSlide.cs:83-101 | a text of n characters has n + 16 + 1 frames |
| LcdSlide.FramesAreWindows | StatisticalRobot-Lib/LCDSlide.cs:87-90 | frame k is 16 characters long; left to right it is the window of the padded text starting at k, right to left the window starting at n + 16 - k for a text of n characters |
| LcdSlide.RightToLeftIsReversed | StatisticalRobot-Lib/LCDSlide.cs:85-101 | the right-to-left frames are the left-to-right frames in reverse order |
| LcdSlide.BlankEnds | StatisticalRobot-Lib/LCDSlide.cs:83-90 | left to right, the first and last frames are all spaces |
| LcdSlide.ShowAtLine | StatisticalRobot-Lib/LCDSlide.cs:78-103 | every address command of a show puts the cursor at the start of the slide's line |
| LcdSlide.LCDSlide.constructor | StatisticalRobot-Lib/LCDSlide.cs:9-18 | keeps the display, line and texts; left to right, 300 ms per frame, 800 ms between texts |
| LcdSlide.LCDSlide.LeftToRight | StatisticalRobot-Lib/LCDSlide.cs:24-28 | the direction becomes L2R, the delays are kept, and the slide itself is returned |
| LcdSlide.LCDSlide.RightToLeft | StatisticalRobot-Lib/LCDSlide.cs:34-38 | the direction becomes R2L, the delays are kept, and the slide itself is returned |
| LcdSlide.LCDSlide.SetDirection | StatisticalRobot-Lib/LCDSlide.cs:45-49 | the direction becomes the given one, the delays are kept, and the slide itself is returned |
| LcdSlide.LCDSlide.SetFrameDelay | StatisticalRobot-Lib/LCDSlide.cs:56-60 | only the frame delay changes, and the slide itself is returned |
| LcdSlide.LCDSlide.SetPauseBetweenLines | StatisticalRobot-Lib/LCDSlide.cs:67-71 | only the pause changes, and the slide itself is returned |
| LcdSlide.LCDSlide.ShowFrame | StatisticalRobot-Lib/LCDSlide.cs:89-90 | the cursor to (line, 0), the frame's 16 characters, then the frame delay |
| LcdSlide.LCDSlide.SlideForward | StatisticalRobot-Lib/LCDSlide.cs:87-91 | the loop shows exactly the left-to-right frames, in order |
| LcdSlide.LCDSlide.SlideBackward | StatisticalRobot-Lib/LCDSlide.cs:95-100 | the descending loop shows exactly the right-to-left frames, in order |
| LcdSlide.LCDSlide.ShowText | StatisticalRobot-Lib/LCDSlide.cs:83-103 | one text's frames in the stored direction, then the pause |
| LcdSlide.LCDSlide.ShowAll | StatisticalRobot-Lib/LCDSlide.cs:80-104 | every text in order, each as ShowText |
| LcdSlide.LCDSlide.Start | StatisticalRobot-Lib/LCDSlide.cs:78-104 | the show with a delay given to this call used instead of the stored one, and the stored one otherwise |
| LcdSlide.SlideText | StatisticalRobot-Lib/AbstractLCD.cs:27-31 | fails exactly when the line check fails, with its error; otherwise a fresh slide of the one text on that line, with defaults |
| LcdSlide.SlideShow | StatisticalRobot-Lib/AbstractLCD.cs:81-85 | fails exactly when the line check fails, with its error; otherwise a fresh slide of the texts on that line, with defaults |
| LcdSlide.SlideShowParams | StatisticalRobot-Lib/AbstractLCD.cs:94-98 | the same as SlideShow, with the line first |
| MultiChannelGas.DecodeUInt32LE | StatisticalRobot-Lib/MultiChannelGas.cs:120 | the value is a uint32 whose lowest byte is b[0] and whose highest byte is b[3] |
| MultiChannelGas.DecodeEncode | StatisticalRobot-Lib/MultiChannelGas.cs:114-121 | decoding the bytes a sensor sends for any uint32 returns it |
| MultiChannelGas.EncodeDecode | StatisticalRobot-Lib/MultiChannelGas.cs:114-121 | any four bytes decode to a value whose encoding is those bytes |
| MultiChannelGas.AddressByte | StatisticalRobot-Lib/MultiChannelGas.cs:93-102 | 1..127 is sent as is; 0 and anything above 127 become 0x08; a negative value is sent as its low byte |
| MultiChannelGas.NegativeAddressExample | StatisticalRobot-Lib/MultiChannelGas.cs:95-101 | -1 is sent as 0xFF and -128 as 0x80 |
| MultiChannelGas.MeasureOrder | StatisticalRobot-Lib/MultiChannelGas.cs:82-85 | MeasureAll makes exactly four 4-byte reads, of 0x01, 0x03, 0x05, 0x07 in that order, and each value decodes its own read |
| MultiChannelGas.MultichannelGasSensor.constructor | StatisticalRobot-Lib/MultiChannelGas.cs:20-37 | a fresh device at the given address, 0x08 by default, with an empty trace |
| MultiChannelGas.MultichannelGasSensor.Preheat | StatisticalRobot-Lib/MultiChannelGas.cs:45-48 | one bare write of 0xFE |
| MultiChannelGas.MultichannelGasSensor.StopPreheat | StatisticalRobot-Lib/MultiChannelGas.cs:53-56 | one bare write of 0xFF |
| MultiChannelGas.MultichannelGasSensor.ReadUInt32LE | StatisticalRobot-Lib/MultiChannelGas.cs:114-121 | one 4-byte read of the command register, with its bytes decoded little-endian |
| MultiChannelGas.MultichannelGasSensor.GetNO2 | StatisticalRobot-Lib/MultiChannelGas.cs:61 | a channel read of 0x01 |
| MultiChannelGas.MultichannelGasSensor.GetEthanol | StatisticalRobot-Lib/MultiChannelGas.cs:66 | a channel read of 0x03 |
| MultiChannelGas.MultichannelGasSensor.GetVOC | StatisticalRobot-Lib/MultiChannelGas.cs:71 | a channel read of 0x05 |
| MultiChannelGas.MultichannelGasSensor.GetCO | StatisticalRobot-Lib/MultiChannelGas.cs:76 | a channel read of 0x07 |
| MultiChannelGas.MultichannelGasSensor.MeasureAll | StatisticalRobot-Lib/MultiChannelGas.cs:82-85 | the four channel reads of Measure, with their values |
| MultiChannelGas.MultichannelGasSensor.ChangeAddress | StatisticalRobot-Lib/MultiChannelGas.cs:93-102 | one write of 0x55 carrying AddressByte(newAddress); the handle keeps its old address |
| Gpio.PinValue.ToInt | StatisticalRobot-Lib/InfraredReflective.cs:30 | `(int)` of a level is 0 or 1, and 1 exactly for High |
| Clock.GateStep | StatisticalRobot-Lib/PeriodTimer.cs:17-21 | fires exactly when more than the period has passed, and then remembers `now`, otherwise the old instant |
| Clock.SameInstant | StatisticalRobot-Lib/PeriodTimer.cs:17-21 | with a non-negative period, a gate checked again at the instant it fired does not fire |
| Clock.FiringsSpaced | StatisticalRobot-Lib/PeriodTimer.cs:13-23 | on a clock that does not run backwards, any two firings are more than one period apart |
| PeriodicTimer.PeriodTimer.constructor | StatisticalRobot-Lib/PeriodTimer.cs:3-7 | the period is kept and the timer starts at `now` |
| PeriodicTimer.PeriodTimer.Check | StatisticalRobot-Lib/PeriodTimer.cs:13-23 | the result and the new last tick are one step of the gate |
| BuzzerDriver.BeepStep | StatisticalRobot-Lib/Buzzer.cs:28-36 | within the interval nothing changes; past it the stored level is written and then flipped, and the time is remembered |
| BuzzerDriver.BeepsAlternate | StatisticalRobot-Lib/Buzzer.cs:28-36 | over any sequence of calls, the writes happen once per gate firing and alternate, starting with the stored level |
| BuzzerDriver.FromSilence | StatisticalRobot-Lib/Buzzer.cs:25-34 | from a new buzzer the levels written are Low, High, Low, ... |
| BuzzerDriver.FirstBeepWrites | StatisticalRobot-Lib/Buzzer.cs:25-32 | past the interval after DateTime's zero, the first Beep writes Low |
| BuzzerDriver.Buzzer.constructor | StatisticalRobot-Lib/Buzzer.cs:18-23 | the pin is set to output; the state is time zero and Low |
| BuzzerDriver.Buzzer.Update | StatisticalRobot-Lib/Buzzer.cs:28-36 | the new state and the pin writes are BeepStep of the old state |
| BuzzerDriver.Buzzer.Beep | StatisticalRobot-Lib/Buzzer.cs:43-46 | the same as Update |
| InfraredReflectiveDriver.WatchStep | StatisticalRobot-Lib/InfraredReflective.cs:24-33 | -1 exactly within 50 ms of the last sample, with the state kept; otherwise 0 or 1, 1 exactly for High, and the level and time are stored |
| InfraredReflectiveDriver.SamplesWhenGateFires | StatisticalRobot-Lib/InfraredReflective.cs:26 | over any sequence of calls, a call samples if and only if the 50 ms gate fires |
| InfraredReflectiveDriver.SamplesSpaced | StatisticalRobot-Lib/InfraredReflective.cs:24-33 | on a clock that does not run backwards, two samples are more than 50 ms apart |
| InfraredReflectiveDriver.FirstWatchSamples | StatisticalRobot-Lib/InfraredReflective.cs:21-30 | past 50 ms after DateTime's zero, the first call returns the level read |
| InfraredReflectiveDriver.InfraredReflective.constructor | StatisticalRobot-Lib/InfraredReflective.cs:15-19 | the pin is set to input; the state is time zero and Low |
| InfraredReflectiveDriver.InfraredReflective.Update | StatisticalRobot-Lib/InfraredReflective.cs:24-33 | the result and the new state are WatchStep of the old state, and the pin is read only by a call that samples |
| InfraredReflectiveDriver.InfraredReflective.Watch | StatisticalRobot-Lib/InfraredReflective.cs:41-44 | the same as Update |
| ButtonDriver.StateText | StatisticalRobot-Lib/Button.cs:32-35 | "Released" exactly when the pin is High, "Pressed" exactly when it is Low |
| ButtonDriver.UpStep | StatisticalRobot-Lib/Button.cs:52-67 | reports exactly on a pressed-to-released edge while the watch is stopped, and then starts it; otherwise the watch is stopped once past the delay; the pressed state is remembered |
| ButtonDriver.FirstCallQuiet | StatisticalRobot-Lib/Button.cs:54-65 | a new button never reports a button-up on its first call |
| ButtonDriver.UpsSpaced | StatisticalRobot-Lib/Button.cs:52-67 | on a clock that does not run backwards, two reported button-ups are more than the minimum delay apart |
| ButtonDriver.Button.constructor | StatisticalRobot-Lib/Button.cs:21-26 | the pin is set to input; not pressed, the watch stopped, a 100 ms delay |
| ButtonDriver.Button.GetState | StatisticalRobot-Lib/Button.cs:32-35 | one pin read, whose level gives the text by StateText |
| ButtonDriver.Button.GetStateBool | StatisticalRobot-Lib/Button.cs:41-44 | one pin read; true exactly when it reads Low |
| ButtonDriver.Button.GetButtonUp | StatisticalRobot-Lib/Button.cs:52-67 | one pin read; the result and the new state are UpStep of the old state |
| ButtonDriver.Button.SetMinDelay | StatisticalRobot-Lib/Button.cs:73-76 | only the minimum delay changes |

## Left out

- The bus and pin libraries are not part of this model. `I2cBus.Device` and `Gpio.Board` stand in for them through oracles.
  - The static `Robot` helper becomes the `Board` or `Device` each driver is given.
  - Bus failures and their exceptions are not modelled, so every read returns as many bytes as asked for.
- Waits (`Robot.Wait`, `Thread.Sleep`) are `Delay` events on the device trace. No time passes in the model.
- Clock readings are a `now` parameter in whole milliseconds.
  - Where the source reads `DateTime.Now` twice, once to compare and once to store, the model uses a single instant.
  - Sub-millisecond resolution is not modelled.
  - The button's `Stopwatch` is a started-at instant on the same clock.
- Text is a Dafny `string`, a sequence of Unicode scalar values, not of UTF-16 code units as a C# `string` is. For text outside the Basic Multilingual Plane the model differs from the source: such a character counts once, not twice, toward the 16-character trim and wrap, `PadRight(32)` and the slide windows, and `CharByte` writes one byte for it where the source writes the low bytes of both surrogates.
- LcdSlide.LCDSlide.Start: a negative frame delay or pause is logged as a `Delay` like any other. In the source, `Thread.Sleep` throws on values below -1 and sleeps forever on -1; neither is modelled.
- Exception message texts are not modelled. `ArgumentOutOfRangeException` is a `Failure` with the argument's kind and value, and nothing is written after it.
- `IEnumerable<string>` texts are copied into a `seq`. Lazy or changing enumerables, and aliasing of the collection, are not modelled.
- Enum values outside the declared modes are not modelled. `StrError` does take any integer.
- `int` arithmetic is unbounded where the source's operands cannot overflow:
  - a 16-bit raw value times 15;
  - ORs of shifted bytes, which are sums because the bytes never overlap.
- `CalcVoltage` uses floating point and is not part of this model. Neither are `Speaker.cs` and the test program.
- The status register and its data-ready and data-overrun bits are not modelled. The error kinds DataOverrun, NotReady, SelfTestFailed and ReadFailed are declared, with their codes and texts, but no operation returns them, as in the source.
- The button's `defHigh` argument is stored but never read, so the model stores it too and nothing depends on it.
- LcdSlide.LCDSlide.constructor: requires the line to be in range. The constructor is internal and is only reached through `SlideText`/`SlideShow`, which check the line first.
- The `AbstractLCD` base class is not modelled as a class of its own. It has one implementation, `LCD16x2`, so nothing dispatches on the display type. Its geometry is the constant `Lines`/`CharsPerLine` of `LCD16x2`, its check is `AbstractLcd.CheckBounds`, and `SlideText`/`SlideShow` take the display as an argument. A second display type would need a trait over the three display operations.
