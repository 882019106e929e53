# Navigation and delivery controls of the Arven medication robot, in Dafny

This project models the core of the robot's RP2040 firmware:

- the UART frame receiver that stores the sensor frames sent by the ATmega328P co-processor (`atmega/atmega.c`);
- the frame format that co-processor uses (`atmega/atmega.h`);
- the motor driver over GPIO and PWM (`motors/motors.c`);
- the HTTP request slots and response parsing of the web client (`web/web.c`);
- three sensor checks: weight (`weight/weight.c`), ultrasonic obstacle (`ultrasonic/ultrasonic.c`) and infrared drop (`ir/ir.c`).

The model has one Dafny module per source file. Code that changes state step by step is a `class` with `modifies` clauses, proved against pure specification functions:

- `AtmegaReceiver.FrameStore.ReceiveData` is a `while` loop over the bytes readable in one interrupt. Its new state is stated through `AtmegaReceiver.Receive`, a fold of the byte-by-byte function `Step`.
- `Motors.MotorDriver` keeps the hardware state the SDK calls leave behind, together with the ordered log of those calls.
- `Web.WebClient` keeps the table of request slots.

Pure computations are functions with lemmas beside them: hex fields, bump nibbles, the change mask, the C string routines, and the weight, ultrasonic and IR checks.

Where the code and the design description of the robot disagree, the model follows the code:

- The receiver writes into slot `current_frame_index` directly. It has no scratch buffer and no deduplication.
- It only adds every data byte to the slot's *first* character.
- Its frame counter and "frame begun" flag are locals, so they are reset on every interrupt.
- The index wraps at `MAX_FRAMES_STORED - 1`, so slot 4 of the 5 is never written.
- A weight increase is classified as `NoChange`, not as a refill.
- `web_init` sets up the dose-statistics slot twice. The second time it gives that slot the user-location type, and the user-location slot is never initialised.
- The motor driver re-issues every command. It keeps no cache of the last command.

Each of these is stated as a lemma or contract below.

## Model

| member | source | states |
|---|---|---|
| AtmegaProtocol.StartEndBytesAreTheDelimiterChars | atmega/atmega.h:114-115 | The start and end bytes are the ASCII codes of '$' and '^'. |
| AtmegaProtocol.ExampleFrameShape | atmega/atmega.h:1-3 | The documented example frame is 27 characters long. It is delimited by '$' and '^', and its 25 data characters are hex digits, none of them a delimiter. |
| AtmegaProtocol.HexDigitValue | atmega/atmega.h:17-19 | A character has a hex value exactly when it is a hex digit, and that value is below 16. |
| AtmegaProtocol.HexCharRoundTrip | atmega/atmega.h:17-19 | Decoding the hex digit written for d gives d back. |
| AtmegaProtocol.HexField | atmega/atmega.h:17-38 | A field decodes exactly when every character is a hex digit. A field of n digits decodes to a value below 16^n. |
| AtmegaProtocol.HexFieldRoundTrip | atmega/atmega.h:17-38 | Decoding the zero-padded hex encoding of n gives n back. |
| AtmegaProtocol.IrFieldRange | atmega/atmega.h:17-23 | A two-digit IR field holds at most 255 mm. |
| AtmegaProtocol.UltrasonicFieldRange | atmega/atmega.h:25-38 | The ultrasonic range 00000..1FFFF decodes to 0..131071, which fits in five digits. |
| AtmegaProtocol.WeightFieldHoldsTenBitAdc | atmega/atmega.h:58-60 | Every 10-bit ADC value survives the three-digit weight field. |
| AtmegaProtocol.DecodeBumps | atmega/atmega.h:40-56 | Only A..D are legal bump nibbles. |
| AtmegaProtocol.BumpsRoundTrip | atmega/atmega.h:45-56 | The nibbles A..D and the four (left, right) pairs are in one-to-one correspondence. |
| AtmegaProtocol.BumpsAreLowBitsOfHexValue | atmega/atmega.h:40-56 | The decoded pair is bit 1 (left) and bit 0 (right) of the nibble's hex value, read with the bump masks. |
| AtmegaProtocol.DirectionFromMask | atmega/atmega.h:65-74 | A zero mask always reads backwards. Forward needs a non-zero byte. A byte holding every bit of a non-zero mask reads forward. |
| AtmegaProtocol.MotorDirectionBits | atmega/atmega.h:65-74 | Front left is bit 5 and front right is bit 4 of the direction byte. A set bit means forward. |
| AtmegaProtocol.ChannelBit | atmega/atmega.h:11-15 | Every sensor channel has a bit below 8. |
| AtmegaProtocol.ChannelChanged | atmega/atmega.h:11-15 | A channel has changed exactly when its bit is set in the change mask. |
| AtmegaProtocol.ChannelBitsAsDocumented | atmega/atmega.h:11-15 | Each channel sits on its documented bit: IR left b7, IR right b6, US left b5, US centre b4, US right b3, bumps b2, weight b1, encoders b0. |
| AtmegaProtocol.ChannelBitsBijective | atmega/atmega.h:11-15 | The eight channels and the eight bits of the change mask correspond one to one. |
| AtmegaProtocol.ChannelChangedIndependent | atmega/atmega.h:11-15 | Testing a channel reads its own bit only. Setting its bit makes it read as changed. |
| AtmegaReceiver.NextIndex | atmega/atmega.c:58-61 | The next slot is (i + 1) mod (MAX_FRAMES_STORED - 1): the following slot, wrapping to 0 exactly when i + 1 reaches MAX_FRAMES_STORED - 1. It always differs from the current slot. |
| AtmegaReceiver.NextIndexCycle | atmega/atmega.c:58-61 | Committed frames go to slots 0, 1, 2, 3 in turn. Four commits bring the index back to its start, and no fewer do. |
| AtmegaReceiver.Step | atmega/atmega.c:50-76 | One byte keeps the state well formed. It changes the index exactly when it is the end byte of a begun frame with 25 counted bytes. It grows the count by at most one and touches no slot but the current one. |
| AtmegaReceiver.Run | atmega/atmega.c:45-77 | A byte sequence keeps the state well formed. The count grows by at most the number of bytes. |
| AtmegaReceiver.Receive | atmega/atmega.c:38-78 | One interrupt call leaves a well-formed store and index. |
| AtmegaReceiver.RunAppend | atmega/atmega.c:45-77 | Receiving a + b equals receiving a, then b. |
| AtmegaReceiver.NoStartByteNoChange | atmega/atmega.c:50-76 | Outside a frame, bytes other than '$' change nothing. |
| AtmegaReceiver.PreambleChangesNothing | atmega/atmega.c:40-53 | Bytes before the first '$' of a call leave the store and index as they were. |
| AtmegaReceiver.DataByteInsideFrame | atmega/atmega.c:66-70 | Inside a frame that is not full, every byte is data, '$' and '^' included. It is added to the current slot's first character and counted. |
| AtmegaReceiver.DataIgnoredWhenFull | atmega/atmega.c:66-76 | Once 25 bytes are counted, non-end bytes are ignored. |
| AtmegaReceiver.EndByteCommitsOnlyFullFrame | atmega/atmega.c:55-64 | '^' advances the index only after '$' and exactly 25 data bytes. Otherwise the index stays, and outside a frame nothing changes. |
| AtmegaReceiver.LastSlotNeverWritten | atmega/atmega.c:58-61 | Slot MAX_FRAMES_STORED - 1 is never written. |
| AtmegaReceiver.DataRun | atmega/atmega.c:66-70 | A run of data bytes adds their sum modulo 256 to the current slot's first character and counts them. |
| AtmegaReceiver.FrameCommits | atmega/atmega.c:50-70 | '$', 25 bytes and '^' in one call advance the index and add the bytes' sum to the old slot's first character. |
| AtmegaReceiver.SplitFrameNotCommitted | atmega/atmega.c:40-43 | A frame split across two calls is never committed, because the call's flags restart at zero. |
| AtmegaReceiver.SaturatedAfterCommit | atmega/atmega.c:55-70 | After a commit the count stays at 25 for the rest of the call, and no slot is written. |
| AtmegaReceiver.EmptyPairAdvancesAfterCommit | atmega/atmega.c:50-64 | After a commit, a bare '$' '^' pair advances the index again. |
| AtmegaReceiver.ExampleFrameCommits | atmega/atmega.h:1-3 | The documented example frame, received in one call, is committed. |
| AtmegaReceiver.FrameStore.constructor | atmega/atmega.c:6-7 | The store starts zeroed with index 0. |
| AtmegaReceiver.FrameStore.ReceiveData | atmega/atmega.c:38-78 | The new index and first characters are exactly those `Receive` gives from the old ones. Every other character of every slot is unchanged. |
| Motors.DirectionLevel | motors/motors.h:31-34 | Forward is written as level 0 and Reverse as 1. |
| Motors.GetPin | motors/motors.c:96-120 | Pins 2 and 3 belong to front left, and 6 and 7 to front right. Pins 2 and 6 are the direction pins. |
| Motors.GetPinInjective | motors/motors.c:96-120 | Front left uses pins 2 and 3 and front right uses pins 6 and 7. No two (motor, role) pairs share a pin. |
| Motors.DutyLevel | motors/motors.c:79-80 | The duty is the speed, capped at MOTOR_PERIOD (3). It is never above the speed. |
| Motors.DutyLevelIsMin | motors/motors.c:79-80 | The cap is the identity up to 3, constant above 3, and monotone. |
| Motors.InitOps | motors/motors.c:34-50 | The four calls of `motor_init` touch only this motor's pins. They end with the slice's wrap, and none drives a pin, sets a duty or starts the slice. |
| Motors.DirSpeedOps | motors/motors.c:71-89 | Four calls. The only GPIO write is the first, with the direction's level. The duty goes to the motor's speed pin. The last call starts the slice. |
| Motors.DirectionWrittenBeforeSpeed | motors/motors.c:71-75 | The direction write is the first call. Every duty write comes after it and is at most the period. |
| Motors.MotorDriver.constructor | motors/motors.c:8 | Slices start at zero and the hardware is untouched. |
| Motors.MotorDriver.Init | motors/motors.c:34-50 | The call log grows by exactly `InitOps`. The direction pin's output level is reset to 0, as the SDK's `gpio_init` does. The slice is recorded, returned and wrapped at MOTOR_PERIOD. Duties and enables are unchanged. |
| Motors.MotorDriver.InitAll | motors/motors.c:28-32 | Exactly the two front motors get their slices, and both slices get the wrap. Both direction pins are reset to 0. The log grows by front left's init calls, then front right's. |
| Motors.MotorDriver.Stop | motors/motors.c:52-55 | Only the motor's slice is disabled. Direction, duty and wrap are kept. |
| Motors.MotorDriver.SetDirection | motors/motors.c:91-94 | Only the direction pin is written, with the direction's level. |
| Motors.MotorDriver.SetSpeed | motors/motors.c:77-89 | Wrap, capped duty and enable are written, in that order. Nothing else changes. |
| Motors.MotorDriver.SetDirSpeed | motors/motors.c:71-75 | The direction is written, then the speed, as the exact call log. |
| Motors.MotorDriver.MoveForward | motors/motors.c:57-60 | The direction pin is 0 and the slice runs at the capped duty. |
| Motors.MotorDriver.MoveReverse | motors/motors.c:62-65 | The direction pin is 1 and the slice runs at the capped duty. |
| Motors.ForwardTwiceWritesTwice | motors/motors.c:57-60 | Repeating a forward command issues the whole call sequence twice. |
| CStrings.FindChar | web/web.c:214 | `strchr` gives the first index of the character, or None exactly when it is absent. |
| CStrings.FindCharFirst | web/web.c:218 | A first occurrence is what FindChar finds. |
| CStrings.FirstToken | web/web.c:215 | There is no token exactly when the string holds only delimiters. Otherwise the token is non-empty and delimiter-free. Only delimiters precede it, and it ends at a delimiter or at the end of the string. |
| CStrings.FirstTokenExamples | web/web.c:215 | The first token of ";;ab;c" is "ab": leading delimiters are skipped and the token stops at the next delimiter. A string of delimiters only has no token. |
| CStrings.Atoi | web/web.c:220 | The empty string reads as 0. Text starting with a digit reads as non-negative. Text starting with any other non-space, non-sign character reads as 0. |
| CStrings.FormatNat | web/web.c:175 | `%i` of a non-negative number is a non-empty run of digits with no leading zero. It is "0" exactly for 0. |
| CStrings.FormatInt | web/web.c:175 | `%i` output is non-empty. It starts with '-' exactly for negative numbers and with a digit otherwise. |
| CStrings.AtoiOfFormatInt | web/web.c:175 | `atoi` reads back the integer `%i` wrote, whatever non-digit text follows. |
| CStrings.DigitsValueOfFormatNat | web/web.c:175 | The digits of n have value n. |
| CStrings.FormatIntInjective | web/web.c:186 | Distinct integers are formatted differently. |
| Web.Cleared | web/web.c:228-231 | A cleared slot is inactive and incomplete, with empty body and headers, and keeps its type. |
| Web.LogDeliveryPath | web/web.c:180-186 | The path is the log-delivery prefix for this device followed by the id, with a '-' right after the prefix exactly for negative ids. |
| Web.RetrieveDoseStatsPath | web/web.c:171-175 | The path is the dose-statistics prefix followed by the id, with a '-' right after the prefix exactly for negative ids. |
| Web.LogDeliveryPathRoundTrip | web/web.c:180-189 | The log-delivery path is its prefix followed by text `atoi` reads as the schedule id. Distinct ids give distinct paths. |
| Web.RetrieveDoseStatsPathRoundTrip | web/web.c:171-178 | The same for the dose-statistics path. |
| Web.ParseCheckSchedule | web/web.c:214-225 | A parse succeeds only on a body containing ';'. |
| Web.ParseCheckScheduleBody | web/web.c:207-225 | The body "UserID:u;ScheduleID:s" parses to exactly (u, s). |
| Web.WebClient.constructor | web/web.c:19 | Every slot starts inactive, incomplete and empty. |
| Web.WebClient.Init | web/web.c:117-136 | The three slots are reset. The dose-statistics slot ends typed as the user-location request, and `complete` is untouched. |
| Web.WebClient.Request | web/web.c:140-160 | An inactive slot becomes active and the base URL + path is requested. An active slot changes nothing and issues nothing. |
| Web.WebClient.RequestCheckSchedule | web/web.c:162-169 | The check-schedule path is requested on its slot when that slot is free. |
| Web.WebClient.RequestLogDelivery | web/web.c:180-189 | The log-delivery path for the id is requested when its slot is free. |
| Web.WebClient.RequestRetrieveDoseStats | web/web.c:171-178 | The dose-statistics path for the id is requested when its slot is free. |
| Web.WebClient.RequestGetUserLocation | web/web.c:191-200 | The user-location path is requested when its slot is free. |
| Web.WebClient.ReceiveBody | web/web.c:338-347 | Only the addressed slot's body is replaced. |
| Web.WebClient.ResultCallback | web/web.c:303-322 | Status 200 marks the slot complete. Any other status clears it. Other slots are untouched. |
| Web.WebClient.ResponseCheckSchedule | web/web.c:202-237 | An active and complete slot returns the parsed schedule id and is cleared. Otherwise the result is -1 and nothing changes. |
| Web.WebClient.ResponseRetrieveDoseStats | web/web.c:239-247 | The result is `atoi` of the body when the slot is active and complete, else -1. Nothing changes. |
| Web.CheckScheduleExchange | web/web.c:202-237 | Request, body, then the 200 result (the order the HTTP client delivers them), then read: returns the schedule id, and the slot can be requested again. |
| Web.DoseStatsExchange | web/web.c:239-247 | With status 200, two reads both return the dose count, because the slot is not consumed. Otherwise both reads return -1. |
| Weight.DetermineWeight | weight/weight.c:17-28 | Zero volts weighs 0 g. The weight is non-negative exactly for non-negative voltages. |
| Weight.DetermineWeightLinear | weight/weight.c:23-25 | Weight is proportional to voltage. AREF reads as the full-scale 10 N in grams. |
| Weight.DetermineWeightMonotone | weight/weight.c:23-25 | More voltage never weighs less. |
| Weight.CheckForLoad | weight/weight.c:30-35 | A load is present exactly when the voltage is above Weight_MINV. The error state is never returned. |
| Weight.CheckForLoadMonotone | weight/weight.c:30-35 | A higher voltage keeps a present load present. |
| Weight.ClassifyChange | weight/weight.c:41-53 | An increase is NoChange. A decrease up to 1.1 doses inclusive is SmallChange. A larger decrease is LargeChange. |
| Weight.CheckForWeightChange | weight/weight.c:37-54 | The classification above, applied to the weight measured now. |
| Weight.ClassifyChangeMonotone | weight/weight.c:41-53 | A larger decrease never gets a milder class. |
| Weight.ClassifyChangeExamples | weight/weight.c:44-51 | With 50 g and a 5 g dose: 46 g and 44.5 g are Small, 44.4 g and 30 g are Large, and 55 g is NoChange. |
| Ultrasonic.CalculateDistance | ultrasonic/ultrasonic.c:36-40 | The distance is non-negative exactly for non-negative durations. |
| Ultrasonic.CalculateDistanceLinear | ultrasonic/ultrasonic.c:36-40 | The distance is additive in the duration, and 20000 us is 343 cm. |
| Ultrasonic.CheckForObstacle | ultrasonic/ultrasonic.c:25-30 | An obstacle is reported exactly when 0 <= duration and duration * 343 < range * 20000. |
| Ultrasonic.CheckForObstacleEdges | ultrasonic/ultrasonic.c:29 | A negative duration or a non-positive range never reports. A zero duration reports exactly when range > 0. |
| Ultrasonic.CheckForObstacleMonotone | ultrasonic/ultrasonic.c:25-30 | An obstacle stays reported for a shorter duration and a larger range. |
| Ir.CheckForDrop | ir/ir.c:21-24 | A drop is reported exactly when the distance is strictly greater than expected. |
| Ir.CheckForDropMonotone | ir/ir.c:21-24 | A farther floor or a lower threshold keeps a drop reported. An equal distance is never a drop. |

## Left out

- UART setup, the IRQ registration and `atmega_send_data` are not modelled. They are pure hardware calls with no logic. The readable bytes of one interrupt are a parameter of `ReceiveData`.
- `atmega_retrieve_sensor_values` is only declared in the header and has no body. There is no decoding from the stored frames into `struct SensorValues` to model. The field encodings are modelled separately.
- A full table of field offsets is not modelled. The documented segment widths do not add up to the 25-character frame, and `struct AtmegaFrame` disagrees with them.
- Concurrency between the receive interrupt and other readers of `frames` is not modelled.
- `Motors.MotorDriver.Init`: the PWM slice of a speed pin (`pwm_gpio_to_slice_num`) is a parameter.
- Stopping a motor before it is initialised uses slice 0, as the zeroed global does. That case is not distinguished.
- The motor pin type "All" of the header is not used by `get_pin` and is not modelled. `motor_slices` is a map over the two motors, not an array of six.
- The Wi-Fi connection, DNS, the HTTP transport, printing and `headers_callback` are not modelled. Headers are never stored. The body's copy through `bodyBuff` is one event, `ReceiveBody`.
- `web_response_get_user_location` is not modelled. It parses coordinates with `atof` into floats.
- `requests` is declared with 3 entries but indexed by 4 request types. The model uses a map with all four, so the out-of-bounds slot is not modelled.
- `Web.WebClient.ResultCallback`: the callback argument is the address of a local of `web_request` that has gone out of scope. The model passes the request type explicitly.
- `sprintf(url, "%s%i", url, id)` copies between overlapping buffers. The model takes the evidently intended result: the decimal id appended to the path.
- The fixed sizes of `uri`, `url`, `userId[20]`, `scheduleId[24]` and of bodies are not modelled. Neither are overflows of those buffers.
- `Web.WebClient.ResponseCheckSchedule` requires a body with a ';', a ':' after it and a first token with a ':'. Otherwise the C code dereferences a null pointer, which is undefined behaviour. The model does not describe that case.
- The zero value of a slot's type field before `web_init` is not modelled. The constructor sets it to the check-schedule type.
- The `Web_RequestType` enum and `WEB_CLIENT_REQUEST_URL` are not part of this model. The request types are a datatype, and the base URL is a constructor parameter.
- Integers are unbounded. 32-bit wrap-around of `int` and `long` and `atoi` overflow are not modelled.
- The char accumulator in a frame slot is modelled modulo 256, as an unsigned char.
- `Weight.DetermineWeight`: floating-point arithmetic in weight and ultrasonic is modelled with exact reals. Rounding is not captured.
- `Weight.CheckForWeightChange`: the voltage read by `measureVoltage()` is a parameter. That function is not defined in the weight module.
- The header prototypes of the weight module take an ADC value and use other names than the definitions in `weight.c`. The model follows the definitions.
- Other header prototypes also disagree with their definitions, and the model follows the definitions:
  - `ir/ir.h` declares `IR_CheckForDrop(void)` returning `int`.
  - `ultrasonic/ultrasonic.h` declares `Ultrasonic_CheckForObstacle` over a device and a `float` distance.
  - `motors/motors.h` declares `motor_forward` and `motor_reverse` with a `float` speed and defines no MOTOR_PERIOD. MOTOR_PERIOD (3) is taken from the top-level `motors.h`.
- `ReceiveBody` stores exactly the delivered body. `body_callback` copies the packet into the shared `bodyBuff` without a terminating NUL, so a shorter body keeps the tail of a longer earlier one. That leftover text is not modelled.
- `ReceiveBody`: strings are modelled without NUL characters. The final `strcpy` from `bodyBuff` into the request's body (web/web.c:345) stops at the first NUL, so a body with an embedded NUL would be cut there. The model stores the whole delivered body.
- The UWB positioning module and the application's main loop are outside this model.
