# AbloCAM motor and camera core, modelled in Dafny

AbloCAM is a Qt desktop application. It drives the motors and the camera of
an ablation microscope. This project models the parts of it that hold state
and make decisions:

- The Xeryon piezo-motor wrapper `Motor`. It covers connection, position
  limits, the desired-position (DPOS) re-entry, the timer poll that drives
  the LEDs, the index search and disconnection.
- The Navitar zoom motor. It covers the serial command framing, the answer
  parsing, and the same DPOS re-entry clamped to [-5, 5].
- The decision logic of the Xeryon and Navitar control widgets. It covers
  step buttons, arrow keys with modifiers, the coordinate-system toggle and
  the cursor clamp.
- The Basler camera. It covers the connect retry loop, disconnection, the
  resolution-to-frame-size arithmetic, and the stream/pause flags of the
  grab thread and widget.
- The shared helpers: the notifying value cell `DynVar`, `unicode`, the
  worker's call sequence, and the LED widget's colour table.

A Qt signal is an ordinary call: after a `DynVar` is set, the model calls
the slot connected to it. The camera's connection signal has two slots, and
the model calls them in the order they were connected. Everything the program sends to hardware is
recorded in a ghost trace. This covers vendor-library calls on the Xeryon
axis, LED signal emissions, and status messages. What the hardware reports
is an input: axis readings, replies on the Navitar line, camera limits and
whether an open attempt succeeds.

Two behaviours of the code are easy to misread, and the model follows the
code in both:

- The rotary correction does not add or subtract 360 degrees only once. It
  sets DPOS again, and that re-enters the slot. The correction therefore
  repeats until the value lies in range (`DesiredPosition.Chain`).
- A rotary stage's limits are [0, 360], not [0, 360). Both ends count as in
  range.

Files and modules:

| file | module | contents |
|---|---|---|
| common.dfy | Common | `Option`, clamp, Python's `round` (ties to even), `int(float)` truncation, `str.rstrip`/`lstrip`, `int(str)` parsing and integer printing |
| ablolib.dfy | Ablolib | `DynVar`, `unicode`, `Worker.run` |
| ledwidget.dfy | LedWidget | `QLED` state and colour table |
| desired_position.dfy | DesiredPosition | the DPOS re-entry chain shared by both motors, and its closed form |
| xeryon_axis.dfy | XeryonAxis | serial-port lookup, axis table, vendor controller stand-in, LED decision tables |
| xeryon_motor.dfy | XeryonMotor | the Xeryon `Motor` class |
| xeryon_gui.dfy | XeryonGui | button, key, coordinate-system and cursor logic of the Xeryon widgets |
| navitar.dfy | Navitar | serial line, Navitar `Motor`, `VControl` buttons |
| basler.dfy | Basler | `Basler`, `Thread`, `BaslerGUI` stream control |

## Model

| member | source | states |
|---|---|---|
| Common.Clamp | xeryon.py:1317-1323 | On an ordered interval the result lies in it. It equals the input exactly when the input is already inside. |
| Common.ClampIsNearest | xeryon.py:1317-1323 | The clamped value is the point of the interval nearest the input. |
| Common.Round | basler.py:211-213 | Python's `round`: within one half of its argument, and even on a tie. |
| Common.RoundOfInteger | xeryon.py:291 | Rounding a whole number gives it back, so rounding twice is rounding once. |
| Common.Trunc | xeryon.py:213-214 | `int` of a float drops the fraction toward zero, for both signs. |
| Common.RStrip | navitar.py:128 | `rstrip` keeps a prefix, removes only whitespace, and leaves no whitespace at the end. |
| Common.LStrip | navitar.py:138 | `lstrip`, the mirror image of `rstrip`. |
| Common.RStripDropsSpaces | navitar.py:128 | Stripping text that ends in a non-space, followed by whitespace, gives the text, by induction. |
| Common.ParseInt | navitar.py:136-141 | A string that parses is, once its surrounding whitespace is stripped, an optional sign followed only by digits and underscores. The result is negative only after a `-` sign, and never positive after one. |
| Common.ParseIntOfRStrip | navitar.py:136-138 | Stripping before `int` changes nothing, since `int` strips itself. |
| Common.ParseShowInt | navitar.py:136-141 | `int` of a printed integer, followed by any line end, is that integer. |
| Common.BlankIsNotANumber | navitar.py:136-141 | A blank line does not parse. |
| Common.RunValueOfShowNat | navitar.py:138 | The digit value of a printed natural number is that number, by induction. |
| Ablolib.DynVar.Get | ablolib.py:36-42 | The value built with until the first `set`, then the last value set. |
| Ablolib.DynVar.Set | ablolib.py:44-51 | The value is stored, and exactly one notification carrying it is emitted. |
| Ablolib.DynVar.Notify | xeryon.py:237 | A direct `signal.emit(get())` emits the current value without changing it. |
| Ablolib.Unicode | ablolib.py:110-114 | The result is the HTML head, the text, then the HTML tail. |
| Ablolib.BodyOf | ablolib.py:110-114 | It gives a body exactly for strings of that shape. |
| Ablolib.BodyOfUnicode | ablolib.py:110-114 | Taking the body of a wrapped string gives the string back. |
| Ablolib.UnicodeOfBody | ablolib.py:110-114 | Wrapping the body of an accepted string gives the string back. |
| Ablolib.Run | ablolib.py:133-141 | Exactly one of two paths happens. (a) The first call raises: the exception leaves `run`, with no `finished`. (b) Otherwise the second call follows the first directly, an error of that call is reported once, right after it, and `finished` is emitted last. |
| LedWidget.PaletteOf | LedWidget.py:83-114 | A palette exists exactly for green, red, orange and gray. |
| LedWidget.PaletteIsLitWhenOn | LedWidget.py:83-114 | Every table colour is 8-bit, and each lit gradient is brighter than its dark one. |
| LedWidget.PaletteDeterminesColor | LedWidget.py:83-114 | Different colour names give different palettes. |
| LedWidget.QLed.constructor | LedWidget.py:12-21 | The LED starts disabled, checkable and unchecked, at least 24x24, not hovered, and showing the initial colour if the table knows it. |
| LedWidget.QLed.ChangeColor | LedWidget.py:83-114 | A known colour is taken with its palette. An unknown or unchanged colour leaves colour and palette as they were. Nothing else changes. |
| LedWidget.QLed.ChangeState | LedWidget.py:68-77 | Each argument that is present is applied; each absent one leaves its field as it was. |
| LedWidget.QLed.ChangeHover | LedWidget.py:79-81 | Only the hover flag changes. |
| DesiredPosition.Chain | xeryon.py:361-378 | The chain has one more value than the number of corrections. It starts at the value set, and every value but the last is out of range. |
| DesiredPosition.Normalize | xeryon.py:361-378 | The end value is in range. A linear stage ends at the clamp. A rotary stage ends a whole number of turns away, in (0, 360] from above and in [0, 360) from below. |
| DesiredPosition.Corrected | xeryon.py:366-376 | A value in range is kept. A linear stage clamps into its limits. A rotary value out of range moves by one full turn, upward exactly when it was negative. |
| DesiredPosition.CorrectedDecreases | xeryon.py:366-376 | One correction lowers the re-entry count by exactly one, so the re-entry terminates. |
| DesiredPosition.ChainEndsAtNormalize | xeryon.py:361-378 | The re-entry chain ends at the closed form `Normalize`, by induction. |
| DesiredPosition.NormalizeStep | xeryon.py:366-376 | One correction does not change where the chain ends. |
| DesiredPosition.WholeTurnsUnique | xeryon.py:366-376 | Two positions in the same half-open turn that are whole turns apart are equal. |
| DesiredPosition.LinearChainIsShort | xeryon.py:367-376 | On a linear stage the value is set at most twice: once as asked, once as the violated limit. |
| DesiredPosition.NormalizeIdempotent | xeryon.py:377-378 | Setting DPOS to its normalised value leaves it there. |
| DesiredPosition.RotaryExamples | xeryon.py:366-376 | Concrete chains: 730 on a rotary stage visits 370 and ends at 10; -5 ends at 355; 7 on [-5, 5] ends at 5. |
| XeryonAxis.FindPortAsWritten | xeryon.py:65-73 | The first listed port whose serial number equals the one asked for, if any; `None` compares like any value. |
| XeryonAxis.FindPort | xeryon.py:65-73 | Without a serial number there is no port; otherwise the same first match. |
| XeryonAxis.UnknownLetterFindsAPort | xeryon.py:65-73 | As written, an unknown axis letter picks up a port that has no serial number; the corrected lookup does not. |
| XeryonAxis.AxisTable | xeryon.py:380-402 | Exactly X, Y, Z, Z3 and R have entries. Only R is rotary, and every serial number has 20 characters. |
| XeryonAxis.AxisTableIsInjective | xeryon.py:380-402 | No two letters share a controller. |
| XeryonAxis.ColorNamesAreKnown | LedWidget.py:83-114 | Every colour the motor emits is in the LED widget's table, and distinct colours have distinct names. |
| XeryonAxis.DisconnectedBurst | xeryon.py:337-342 | While disconnected, a poll emits five signals, one per LED in a fixed order, all off and all "Disconnected". |
| XeryonAxis.UnlimitedRotationLeds | xeryon.py:217-218 | On a rotary stage connecting greys out the low and then the high limit LED, both off. |
| XeryonAxis.ConnectedEvent | xeryon.py:236 | Connecting lights the connection LED green. |
| XeryonAxis.EncoderLed | xeryon.py:296-302 | The connection LED is lit, and red exactly on an encoder error. |
| XeryonAxis.IndexLed | xeryon.py:304-309 | The index LED is lit exactly while the encoder is valid or a search runs. It is orange exactly while searching without a valid encoder. |
| XeryonAxis.MotionLed | xeryon.py:311-320 | Orange while moving, green once reached. Dark only when reached with an invalid encoder. "Ready" exactly when reached with a valid one. |
| XeryonAxis.LowLimitLedFor | xeryon.py:322-328 | Lit exactly at the end switch or when DPOS presses the low limit. Orange exactly in the second case alone. |
| XeryonAxis.HighLimitLedFor | xeryon.py:330-335 | The same for the high limit. |
| XeryonAxis.PollLedsShape | xeryon.py:284-336 | A connected poll emits the connection LED exactly when the encoder-error flag changed, then index and motion, then the two limit LEDs exactly on a linear stage. |
| XeryonAxis.PollLeds | xeryon.py:296-335 | One connected poll: the connection LED only when the encoder-error flag changed, and then first; always the index and motion LEDs; the two limit LEDs only on a linear stage, never on a rotary one. |
| XeryonMotor.LimitsFor | xeryon.py:211-231 | The installed limits are always ordered. A rotary stage gets [0, 360]. Missing settings give [-5, 5]. Unordered settings give [-1, 1]. |
| XeryonMotor.SettingLimitNearSetting | xeryon.py:213-214 | A limit taken from a setting lies within one millimetre of it, toward zero. |
| XeryonMotor.ThousandthsRoundTrip | xeryon.py:291-293 | Rounding a position that is already in thousandths keeps it. |
| XeryonMotor.Thousandths | xeryon.py:291 | The position in whole thousandths lies within half a thousandth of the reading. |
| XeryonMotor.IndexSearchCalls | xeryon.py:268-282 | Exactly five axis calls: speed 500, DPOS -300, the index search, a DPOS inside the stage's range, then the speed as it was. |
| XeryonMotor.Motor.constructor | xeryon.py:137-192 | A new motor is disconnected with limits [-5, 5]. Its cells hold speed, 0, 0 and step size. The serial port and stage come from the letter-table lookup. An R axis works in degrees. |
| XeryonMotor.Motor.ResolveSerial | xeryon.py:380-411 | The port and stage are stored only when the lookup finds a port. Letter R switches the units to degrees. |
| XeryonMotor.Motor.OnSpeedChanged | xeryon.py:358-359 | The current speed is written to the axis. |
| XeryonMotor.Motor.SetDesired | xeryon.py:361-378 | DPOS ends at the normalised value. Every value of the chain is emitted once. The axis receives exactly one write, of the normalised value. |
| XeryonMotor.Motor.OnDesiredChanged | xeryon.py:361-378 | The slot re-enters through the chain and writes the axis once. |
| XeryonMotor.Motor.Step | xeryon.py:344-356 | The motor asks for DPOS plus the step, which defaults to the step-size cell, with the same single write. |
| XeryonMotor.Motor.Connect | xeryon.py:194-237 | The result is False exactly when no port is found even after a second lookup; then nothing else changes. Otherwise the motor is connected to a fresh controller on the stored port and stage, with the computed limits, and the result is None. A port already stored is kept with its stage, and both encoder flags are unchanged. |
| XeryonMotor.Motor.OpenController | xeryon.py:202-237 | The controller calls, in order: start, units, speed, and degrees for a rotary stage not already in degrees. The limits are installed. LED signals in order: the two limit LEDs greyed on a rotary stage, then the green connection LED. The step size is re-emitted. |
| XeryonMotor.Motor.InstallController | xeryon.py:211-236 | The limits are `LimitsFor` of the stage and settings, and the given controller is adopted. The timer runs, the motor is connected, and the limit LEDs then the connection LED are emitted. Port, stage, units, index flag, last position and both encoder flags are unchanged. |
| XeryonMotor.Motor.StartController | xeryon.py:202-208 | A fresh controller on the stored port has received start, units and speed. |
| XeryonMotor.Motor.ConfigureLimits | xeryon.py:211-231 | The limits equal `LimitsFor`. A rotary stage greys both limit LEDs and switches to degrees if needed. |
| XeryonMotor.Motor.UpdatePosition | xeryon.py:288-294 | The position, in thousandths, is stored and emitted exactly when it differs from the last one stored. |
| XeryonMotor.Motor.UpdateData | xeryon.py:284-342 | While connected: the position check, then exactly the LED signals `PollLeds` lists, with the encoder-error flag recorded. While disconnected: the five "Disconnected" signals. |
| XeryonMotor.Motor.ConnectedPoll | xeryon.py:287-335 | A connected tick: the position check, then exactly the LED signals `PollLeds` lists, with the encoder-error flag recorded. |
| XeryonMotor.Motor.DisconnectedPoll | xeryon.py:337-342 | A disconnected tick emits only the five "Disconnected" signals. |
| XeryonMotor.Motor.Disconnect | xeryon.py:239-251 | A controller, if any, receives stop. Connection, timer and index flags are cleared, and the five "Disconnected" signals are emitted. The encoder flags are forgotten. The last position, port, stage and units are kept, and so are the controller's units and reading. |
| XeryonMotor.Motor.ClearConnection | xeryon.py:243-251 | Connection, timer and index flags are cleared. The five "Disconnected" signals follow, then the encoder flags are forgotten. Port, stage and units are kept. |
| XeryonMotor.Motor.FindIndexThread | xeryon.py:265-282 | Axis calls in order: speed 500, DPOS -300, index search, DPOS normalised 0, old speed. The index is marked found and the speed cell ends where it started. |
| XeryonMotor.Motor.SearchIndexAtSpeed | xeryon.py:270-276 | The search runs at speed 500 from -300, and the index is marked found. |
| XeryonMotor.Motor.RestoreSpeed | xeryon.py:279-282 | The speed is set back and written, and the encoder-valid flag is forgotten. |
| XeryonMotor.Motor.FindIndex | xeryon.py:253-263 | Not connected: nothing happens. Connected: the orange "Searching index" LED, then the search body twice, as the worker calls it, with two rounds of speed signals, DPOS chains and axis calls. Limits, timer, encoder flags, last position, units, port and stage are left as they were. |
| XeryonGui.TierMultiplier | xeryon.py:757-762 | Digits 1, 2 and 3 select 0.1, 1 and 5; other digits select nothing. |
| XeryonGui.DirectionSign | xeryon.py:753-756 | One letter steps negative, the other positive, and any other letter selects no sign. |
| XeryonGui.ButtonStep | xeryon.py:749-763 | A button steps sign x tier x step size exactly when its name decodes. Otherwise the click fails. |
| XeryonGui.MoveHStep | xeryon.py:749-763 | A horizontal button steps exactly when its name is L or R followed by tier 1-3. For a positive step size, L steps negative and R positive. |
| XeryonGui.MoveVStep | xeryon.py:749-763 | The same for U and D, with U stepping negative. |
| XeryonGui.RotationStep | xeryon.py:1110-1118 | The rotation buttons step plus or minus one step size. |
| XeryonGui.ButtonsMirror | xeryon.py:749-763 | Opposite buttons of a tier step oppositely. |
| XeryonGui.TiersOrdered | xeryon.py:757-762 | For a positive step size the tiers strictly grow, and the middle one is the step size. |
| XeryonGui.KeyMultiplier | xeryon.py:1420-1425 | Shift gives 5 even with Control held. Control alone gives 0.1. Otherwise 1. |
| XeryonGui.KeyStep | xeryon.py:1412-1434 | Only the four arrows step. Left and right move X, down and up move Y, each by its own step size times the multiplier. |
| XeryonGui.ArrowsMatchButtons | xeryon.py:1412-1434 | Every arrow key, under every modifier combination, asks for exactly the step of its button: the same motor and direction, Shift the top tier, Control alone the bottom one, otherwise the middle. |
| XeryonGui.NextCoordinateSystem | xeryon.py:1371-1373 | The system counts up and wraps to 1 above 2. |
| XeryonGui.CoordinateToggleIsInvolution | xeryon.py:1371-1373 | From 1 or 2 the toggle goes to the other one, and two toggles return. |
| XeryonGui.CoordinateLabel | xeryon.py:1374-1377 | Only systems 1 and 2 have labels. |
| XeryonGui.XYWidget.constructor | xeryon.py:1185-1198 | The widget starts in system 1, labelled "Motors". |
| XeryonGui.XYWidget.ChangeCoordinates | xeryon.py:1367-1377 | The system changes to the next one and its label follows. |
| XeryonGui.MoveTarget | xeryon.py:1388-1402 | A click or slider moves a motor exactly when it is connected and system 1 is active. |
| XeryonGui.CursorPoint | xeryon.py:1311-1323 | The cursor lines lie within the limits, and a point already inside is drawn where it is. |
| XeryonGui.CursorIsNearest | xeryon.py:1311-1323 | Each drawn coordinate is the nearest allowed point. |
| Navitar.SerialPort.InWaiting | navitar.py:126 | Data is waiting exactly when input is non-empty. |
| Navitar.SerialPort.ReadLine | navitar.py:135-136 | Reads the next line, or an empty string since the port never waits. |
| Navitar.Frame | navitar.py:128 | The frame is the command without trailing whitespace plus exactly one newline. |
| Navitar.FrameIgnoresTrailingSpace | navitar.py:128 | Trailing whitespace does not change the frame, and framing twice is framing once. |
| Navitar.NumberAnswer | navitar.py:135-141 | An answer whose second line is an integer yields it. |
| Navitar.NoAnswer | navitar.py:135-141 | With no second line there is no number. |
| Navitar.Response | navitar.py:135-141 | No second line gives no number; otherwise the number is `int` of the second line, or none when it does not parse. |
| Navitar.Motor.constructor | navitar.py:67-98 | The motor starts disconnected with no port object. The port name stays unset, because the lookup asks for the integer 0. |
| Navitar.Motor.OnPort | navitar.py:23-32 | The lookup as intended: the port name is that of the first listed device reporting the controller's serial number, and unset when none does. |
| Navitar.ConnectAsWritten | navitar.py:90-112 | As written, a connected motor's port object has no port name and is not open, so no command can be sent on it. |
| Navitar.ConnectOnListedPort | navitar.py:102-114 | With the intended lookup, the motor connects on an open port exactly when a listed device reports its serial number. |
| Navitar.Motor.Connect | navitar.py:102-114 | A fresh port object is built on the stored name, open only if there is a name, and the motor is connected. |
| Navitar.Motor.Disconnect | navitar.py:116-120 | The port is closed and the motor disconnected. |
| Navitar.Motor.SendCommand | navitar.py:122-144 | The input is drained, exactly the framed command is written, and in time the result is the parsed second answer line. |
| Navitar.Motor.SetDesired | navitar.py:159-170 | DPOS ends at the clamp into [-5, 5]. Each chain value is emitted, and exactly one command is sent. |
| Navitar.Motor.OnDesiredChanged | navitar.py:159-170 | The slot re-enters until in range, then sends once. |
| Navitar.Motor.SendDesired | navitar.py:169-170 | The in-range branch sends exactly the framed placeholder command. |
| Navitar.Motor.Step | navitar.py:146-157 | The motor asks for DPOS plus the step, clamped, with one command sent. |
| Navitar.ButtonStep | navitar.py:258-272 | A button steps exactly when its name is U or D followed by digit 1-3. For a positive step size, U names step negative and D names positive. |
| Navitar.AllButtonsStepDownAsWritten | navitar.py:227-229 | As written, all six buttons step negative, and each down button steps like its up twin. |
| Navitar.DownButtonsMirrorUp | navitar.py:258-272 | With the intended names, down buttons step opposite the up buttons, by 0.1, 1 and 5 step sizes. |
| Basler.WidthSteps | basler.py:211 | The step count is within one half of the exact proportion. |
| Basler.NewWidthAsWritten | basler.py:211 | The width above the minimum is a multiple of 32. |
| Basler.FullResolutionOvershoots | basler.py:211 | At 100% on an 84-pixel range the width asked for exceeds the maximum. |
| Basler.NewWidth | basler.py:211 | The width is a multiple of 32 above the minimum and never outside the range. It equals the as-written width whenever the range is whole steps. |
| Basler.StepsFit | basler.py:211 | On a range of whole steps, a resolution up to 100% never asks for more steps than the range holds. |
| Basler.StepsInRange | basler.py:211 | The capped step count lies between 0 and the whole steps of the range, so its width stays in range. |
| Basler.ZeroResolutionIsMinimum | basler.py:211 | 0% gives the minimum width. |
| Basler.FullResolutionIsMaximum | basler.py:211 | 100% gives the maximum width when the range is whole steps. |
| Basler.WidthMonotone | basler.py:211 | A higher resolution never gives a smaller width. |
| Basler.NewHeight | basler.py:213 | The height is within one half of the aspect-ratio height. |
| Basler.HeightBounds | basler.py:213 | The full width gives the full height, and widths in range give heights in [0, maxH]. |
| Basler.FrameFits | basler.py:202-216 | For 0-100% the width written lies in [minW, maxW] and the height in [0, maxH]. |
| Basler.HeightCanFallBelowMinimum | basler.py:213 | On valid limits with minW 36, maxW 100, minH 50 and maxH 100, 0% gives width 36 and height 36, below the minimum height. |
| Basler.FirstOpen | basler.py:128-136 | It gives the first successful attempt of the ten, if any. |
| Basler.Basler.constructor | basler.py:96-111 | The camera starts at 30%, with nothing emitted on that cell, and connects at once. It is connected exactly when an attempt succeeded, and the first connection signal carries that. Connected, the exposure is the camera's minimum, emitted once; otherwise it is 0, never emitted. The status messages are "Basler camera connected!", or " Connection failed!" followed by "Basler camera disconnected!" when some attempt found a device. |
| Basler.Basler.Connect | basler.py:116-151 | At most ten attempts, stopping at the first success. The resolution cell is unchanged. On success: the camera is fresh, open and not grabbing; the minimum exposure is set and emitted once, the resolution applied, True emitted and "Basler camera connected!" added. On failure: disconnected, the exposure unchanged, False emitted, " Connection failed!" added, then "Basler camera disconnected!" when a camera was held before or an attempt stored one that failed to open. |
| Basler.Basler.TryOpen | basler.py:124-136 | Attempts continue until the first success, and the count is recorded. An opened camera is fresh, open and not grabbing. Without success, the handle is a fresh unopened camera when some attempt found a device, and is unchanged otherwise. |
| Basler.Basler.EmitConnection | basler.py:113-114 | The connection signal's slot stores the status. |
| Basler.Basler.Disconnect | basler.py:153-166 | A camera, if any, is stopped, closed and dropped. False is always emitted. |
| Basler.Basler.OnExposureChanged | basler.py:199-200 | The exposure cell is written to the camera. Its frame size, open flag and grabbing flag are unchanged. |
| Basler.Basler.OnResolutionChanged | basler.py:202-216 | While connected, the frame follows the formula. While disconnected, nothing is written. |
| Basler.Basler.SetResolution | basler.py:202-216 | The resolution is stored, emitted once, and applied while connected; disconnected, the frame is kept. The camera's exposure, open flag and grabbing flag are unchanged. |
| Basler.GrabThread.constructor | basler.py:313-320 | A thread starts streaming and not paused. |
| Basler.GrabThread.TogglePause | basler.py:322-323 | The pause flag flips. |
| Basler.GrabThread.StopStreaming | basler.py:325-326 | Streaming stops. |
| Basler.BaslerGui.StartStream | basler.py:567-586 | While streaming, nothing. Otherwise a fresh, unpaused thread and "Streaming started". |
| Basler.BaslerGui.StopStream | basler.py:604-611 | While not streaming, nothing. Otherwise the thread is told to stop and "Streaming stopped" is emitted. |
| Basler.BaslerGui.OnConnectionChanged | basler.py:528-537 | Losing the connection while streaming tells the thread to stop, keeps its pause flag, and adds "Streaming stopped". Otherwise nothing changes: streaming, messages and the thread's flags stay as they were. |
| Basler.BaslerGui.ClickConnect | basler.py:528-543 | The connect button runs `connect`, and its connection signal reaches both slots. Success leaves the stream as it was on a fresh open camera. Failure drops the camera and stops a running stream with "Streaming stopped". |
| Basler.BaslerGui.ClickDisconnect | basler.py:528-537 | The disconnect button runs `disconnect`, and its signal reaches both slots. A held camera is closed with "Basler camera disconnected!", the connection is lost, and a running stream is stopped with "Streaming stopped". |
| Basler.BaslerGui.ChangeResolution | basler.py:515-526 | With focus, the resolution is set and emitted once, and the frame read back; connected, the frame is the formula's width and height. Without focus nothing is set or emitted. The camera's exposure, open and grabbing flags are unchanged. A running stream is paused around the change, so its pause flag ends as it was. |

## Left out

- Qt widget trees, layouts, painting, focus handling (beyond the focus flag
  passed to `ChangeResolution`), icons and tooltips of buttons.
- The update timer is a flag. Its 500 ms interval is a constant; ticks are
  calls of `UpdateData`.
- Threads and concurrency. `findIndexThread` is modelled as its sequential
  body, called twice as `Worker.run` calls it. The grab thread's `run`
  loop, image grabbing, saving and the frame-rate smoothing are not
  modelled.
- The thread-model signals. Every `Thread` ever started stays connected to
  the stop and pause signals; the model tracks only the thread last
  started.
- The vendor libraries (Xeryon, pyserial, pypylon). They are replaced by
  small stand-in classes.
  - Unit conversion of encoder settings is not modelled: `AxisSettings`
    limits are already in millimetres.
  - `DISABLE_WAITING` is not modelled.
  - An attempt ends in one of three ways: no device (the handle is kept),
    a camera object that fails to open (it is stored unopened), or an
    opened camera.
  - A fresh camera opens at full frame.
- Floating point. Positions, speeds and percentages are real numbers.
  Python's `round` and `int` are written out exactly over them. Float
  rounding of `/32`, `/100` and `*1000` is not modelled.
- Navitar's half-second timeout loop reads the wall clock. It becomes the
  `inTime` parameter, and the loop body runs at most once because both of
  its branches return. UTF-8 decoding of replies is not modelled; replies
  are strings.
- The device's answer arrives all at once after the command is written.
  The answer is a parameter of `SendCommand`.
- Navitar's own copy of `DynVar` (navitar.py:34-59) behaves like the shared
  one and is modelled by `Ablolib.DynVar`.
- Serial-port discovery is a list of devices given as a parameter. Navitar's
  `GetSerialPort(0)` is not modelled as a search: it asks for an integer,
  which no listed serial number equals (Findings row 4).
  `Navitar.Motor.OnPort` models the lookup by a serial number.
- XeryonMotor.Motor.constructor: requires a non-empty axis letter. The
  empty letter is the Python default, and `XYWidget` builds such a
  placeholder `Motor()` for its parameters' defaults. That motor has no
  speed, DPOS, EPOS or step-size cells and no port. On it `disconnect`,
  `updateData` and `findIndex` still run (they only clear flags, emit the
  "Disconnected" signals, or do nothing while disconnected); `connect` and
  `step` raise. The model has no motor without cells.
- Navitar.Motor.constructor: requires a non-empty axis letter for the same
  reason. With an empty letter the source skips the cells and the port
  lookup, and the motor fails on first use.
- Calls that fail in the source without their object are required to have
  it.
  - XeryonMotor.Motor.SetDesired / Step require a controller, because the
    Python slot dereferences the axis.
  - XeryonMotor.Motor.OnDesiredChanged: requires a controller, as
    SetDesired, because the slot writes DPOS to the axis.
  - Navitar.Motor.SendCommand / SetDesired / Step require an open port. As
    written no motor ever has one (Findings row 4): the source emits the
    DPOS chain and then raises at `in_waiting`. The model states these
    operations for a motor built with `OnPort` on a listed port.
  - Navitar.Motor.OnDesiredChanged: requires an open port, as SetDesired,
    because its in-range branch sends the command.
  - Navitar.Motor.SendDesired: requires an open port, as SendCommand,
    which it calls.
  - Navitar.Motor.Disconnect requires a port object, which exists only
    after `connect`. Closing a port that was never opened does not fail.
  - Basler.BaslerGui.ChangeResolution requires a camera when the slider is
    moved, because `getDimensions` reads it.
- Basler.Basler.constructor requires camera limits with positive, ordered
  ranges, as the camera reports them. `__setResolution` divides by the
  maximum width.
- Navitar.Motor.Connect: opening the port always succeeds in the model.
  pyserial raises `SerialException` when the device cannot be opened
  (navitar.py:105-112); the exception leaves the motor with `connected`
  false. That failure is not modelled.
- XeryonMotor.Motor.Connect: a controller that fails to start is not
  modelled. The Xeryon library raises when its port cannot be opened
  (xeryon.py:203-205), which leaves `connected` false.
- XeryonMotor.Motor.Connect: on success it states the connection, the new
  controller and the limits. The controller's call trace and the LED
  signals are stated by OpenController, which it calls.
- XeryonMotor.Motor.ResolveSerial: models the corrected lookup
  `XeryonAxis.FindPort` of Findings row 1. For a letter outside the axis
  table the source stores the first port that reports no serial number,
  without a stage, and a later `connect` fails on the missing stage. The
  model stores no port, and `Connect` answers false.
- XeryonMotor.Motor.constructor: the same corrected lookup, through
  ResolveSerial.
- XeryonMotor.Motor.Connect: the same corrected lookup, for its second
  attempt.
- Basler.Basler.EmitConnection: calls only the camera's own slot,
  `__setConnectionStatus`. The same signal also reaches the widget's
  `__toggleConnection` (basler.py:402), which the model calls for the
  connect and disconnect buttons (`BaslerGui.ClickConnect`,
  `BaslerGui.ClickDisconnect`). When `Basler.Connect` or `Basler.Disconnect`
  is called on its own, the widget's slot is not part of that call.
- Basler.Basler.OnResolutionChanged: writes the corrected width
  `Basler.NewWidth` of Findings row 3. Where the source's rounded width
  exceeds the camera's maximum (a width range that is not whole steps of
  32, near 100%), the camera library refuses the value the source writes.
  The model writes the capped width, of which `FrameFits` holds.
- Basler.Basler.SetResolution: the same corrected width, through
  OnResolutionChanged.
- Basler.Basler.Connect: the same corrected width, when it applies the
  resolution.
- Basler.BaslerGui.ChangeResolution: the same corrected width, read back as
  the frame.
- Basler.FrameFits: the height is bounded to [0, maxH] only, not below by
  the camera's minimum height. The aspect-ratio height of a small width can
  fall under minH (`Basler.HeightCanFallBelowMinimum`), and the camera
  library would refuse it. The source and the model both write that
  height.
- Common.ParseInt: accepts only the ASCII digits 0-9 (`Common.IsDigit`,
  `Common.ParseSigned`). Python's `int` also accepts the other Unicode
  decimal digits. Its contract states the accepted shape and the sign; the
  value is stated, for printed integers, by `ParseShowInt`.
- DesiredPosition.Chain: Python's recursion limit is not modelled. Each
  correction nests `DynVar.set`, the signal and the slot once more, so a
  rotary DPOS some hundreds of turns out of range raises `RecursionError`
  in the source. The chain here ends for every value, and so do
  XeryonMotor.Motor.SetDesired and OnDesiredChanged.
- Status printing (`printE`, `printW`, `printOK`) is not modelled. The
  status-bar messages are kept as a ghost trace in the Basler classes only.
- `closeSignal` and `parentCloseSignal` wiring is not modelled. These are
  the connections from closing a window to `disconnect`/`stopStream`.

## Findings

| source | as written | input that shows it | evidently intended | confidence | as-written member | corrected member |
|---|---|---|---|---|---|---|
| xeryon.py:65-73, 401-405 | `get_serial_port(None)` returns the first port whose USB serial number is also `None` | an axis letter outside the table, with a listed port such as `/dev/ttyS0` that reports no serial number | no serial number finds no port | medium, not executed | XeryonAxis.FindPortAsWritten, XeryonAxis.UnknownLetterFindsAPort | XeryonAxis.FindPort |
| navitar.py:227-229 | the three down buttons are named `U1`, `U2`, `U3` | clicking the double-down button steps by minus one step size | names `D1`-`D3`, stepping positive as their down icons and `+` tooltips say | high, not executed | Navitar.ButtonNamesAsWritten, Navitar.AllButtonsStepDownAsWritten | Navitar.ButtonNames, Navitar.DownButtonsMirrorUp |
| basler.py:211 | the step count is rounded, so it can exceed the number of whole steps in the width range | minW 16, maxW 100, resolution 100 asks for width 112 | the width never exceeds the maximum | medium, not executed | Basler.NewWidthAsWritten, Basler.FullResolutionOvershoots | Basler.NewWidth |
| navitar.py:92 | the port lookup asks for the serial number `0`, an integer that no listed serial number equals | any list of ports: after `connect` the port object has no port name and is not open, so the first step's command raises at `in_waiting` | the lookup asks for the controller's serial number, so `connect` opens its port | medium, not executed | Navitar.ConnectAsWritten | Navitar.Motor.OnPort, Navitar.ConnectOnListedPort |
