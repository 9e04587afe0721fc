# Larson Scanner firmware, modelled in Dafny

The Evil Mad Scientist Larson Scanner is a row of nine LEDs driven by an
ATtiny2313. A bright "eye" sweeps back and forth, and one push button changes the
speed and the display. This project models three firmware variants. Each one is a
set of objects whose fields are the firmware's globals and static counters, and
whose methods are one step of the firmware. Each method is proved against pure
specification functions, and lemmas state what those functions promise.

- **larson_jm.c**, the restructured firmware (`LarsonJm.Scanner`):
  - the Timer0 soft-PWM interrupt (`Tick`);
  - the 1..9 cursor bounce;
  - the six display modes: the original folded eye, a three-LED eye, a KITT eye, two intensity bars and a glow;
  - the mode selector, the button debounce, the paced EEPROM write and boot-time settings.
- **larson.c** (v1.4, `Larson14.Scanner`): one pass of the main loop. A pass
  contains:
  - a loop-counter gate, so speed 1 does its work every other pass;
  - the paced settings write;
  - a button that toggles BrightMode on a long press and cycles the speed 1 → 2 → 3 → 1 on release;
  - either the robot-mode chase or the classic eye on a 0..127 position that folds back at both ends.
- **larsonrunoff.c** (`Runoff.Scanner`): one pass of the run-off firmware. Its
  skinny eye runs on a 0..207 position and runs off both ends of the strip.
  Slots off the strip are marked -1 and skipped. The button changes the speed on
  the first pressed pass and toggles BrightMode every 101 pressed passes.

Shared pieces:

| module | what it holds |
|---|---|
| `Board` | the LED port masks of board.h |
| `Pwm` | the phase counter, and port bits driven by a comparison |
| `Controls` | the larson_jm.c cursor, mode selector, button, EEPROM pacer and boot decode |
| `Eye` | the nibble blend of position into a centre LED and two 0..15 weights, the folded and run-off slot lists, additive deposit of the weighted eye into the nine LEDs |
| `Patterns` | the six larson_jm.c display frames |

Byte arithmetic is written out: `Controls.Inc8` is the uint8 `++`, and
`Runoff.Int8` is a store into an `int8_t`. avr-gcc's `>>` on a negative `int`
rounds toward minus infinity, so it is modelled as Dafny's `/ 16`. Jumper and
button levels are boolean parameters. The EEPROM word is a byte field.

Behaviour of the code that a reader might not expect, modelled as written:

- A long press does not suppress the release step. In larson_jm.c a release after a long press still increments the speed level and advances the display mode: `debounce` is set on each of the first 100 pressed passes (larson_jm.c:600-603). In larson.c a release after a long press still changes the speed (larson.c:277-280, 288-299).
- In larson_jm.c the EEPROM flush is never called from the main loop (larson_jm.c:687). `LarsonJm.Scanner.UpdateEeprom` is modelled but `Iterate` does not call it.
- In larson_jm.c `speed_level` is not re-clamped after a release (larson_jm.c:615). It is a byte that can grow past 3 and wrap. A stored nibble of 0 boots with speed 0.
- In larson.c the counter `debounce2` rises by two on each pressed pass up to 100 (larson.c:260, 279), so the BrightMode toggle fires on the 51st pressed pass, not the 101st.
- In larsonrunoff.c BrightMode toggles again every 101 pressed passes while the button stays down, and the speed changes on the first pressed pass, not on release (larsonrunoff.c:151-183).
- The intensity bars are driven with `position * 11 - 5`. Over positions 1..9 the left bar is 0, 1, 2, 3, 4, 6, 7, 8, 9 LEDs long: it never shows five LEDs (`Patterns.BarLengths`).
- The glow mode resets an LED only on the wrap back to LED 0 (larson_jm.c:465-470). When it moves on to the next LED it does not reset it. That LED already reads 0, because the previous call zeroed everything right of the current LED, unless the glow mode was only just entered. The current LED keeps whatever level the previous mode left, so a level of 50 or more hands over on the first call (`Patterns.GlowStep`).
- LED0..LED8 are not initialised in larsonrunoff.c (larsonrunoff.c:103). They are modelled as 0. The first pass is always active (`loopcount` starts at 254), so they are written before they are shown.

## Model

| member | source | states |
|---|---|---|
| Pwm.NextPhase | larson_jm.c:182-186 | the interrupt's phase counter stays in 0..100 and steps by one, modulo 101 |
| Pwm.OnTicksNoWrap | larson_jm.c:160-186 | before the phase wraps, the ticks an LED is on are the phases below its level |
| Pwm.OnTicksWrap | larson_jm.c:182-186 | a run of ticks across the wrap splits into the phases up to 100 and the phases from 0 |
| Pwm.CountBelowIs | larson_jm.c:162 | how many phases of a range fall below a level, in closed form |
| Pwm.DutyCycle | larson_jm.c:153-187 | over any 101 consecutive ticks an LED of level b ≤ 100 is on for exactly b ticks, whatever the starting phase; a level above 100 is always on |
| Pwm.DriveOwn | larson_jm.c:162-169 | driving an LED bit leaves it set when lit and clear when not |
| Pwm.DriveOther | larson_jm.c:162-169 | driving an LED bit changes no other port bit |
| Pwm.DriveAllKeeps | larson_jm.c:160-170 | the whole port loop leaves every non-LED bit as it was |
| Pwm.DriveAllStep | larson_jm.c:160-170 | driving one more LED leaves every other bit as the loop so far left it |
| Pwm.DriveAllLast | larson_jm.c:162-169 | the LED just driven shows its own level |
| Pwm.DriveAllShows | larson_jm.c:160-170 | after the loop, every LED's bit shows its own level, whatever the later LEDs did |
| Pwm.BoardBitsDisjoint | board.h:31-43 | the nine LED masks are single distinct bits on each port |
| Pwm.PortShows | larson_jm.c:160-181 | a loop over distinct bits shows every LED's level |
| Pwm.Alone | board.h:31-43 | in a set of distinct masks no other LED shares LED i's bit |
| Pwm.LowerPort | larson_jm.c:160-170 | port D shows LEDs 0..4 and keeps its other bits |
| Pwm.UpperPort | larson_jm.c:171-181 | port B shows LEDs 5..8 and keeps its other bits |
| LarsonJm.DrivePort | larson_jm.c:160-181 | the sequential bit loop computes exactly the port the specification function describes |
| LarsonJm.DrivePorts | larson_jm.c:160-181 | after both loops each LED bit is set iff its level exceeds the phase, and every bit that carries no LED is unchanged |
| LarsonJm.Scanner.Tick | larson_jm.c:153-187 | the interrupt: ports show the LED levels against the old phase, and the phase advances |
| Controls.Bounce | larson_jm.c:546-562 | the cursor stays in 1..9; the direction flips exactly when the step would leave 1..9, and the clamp puts it at 8 or 2 within the same call |
| Controls.Bounces | larson_jm.c:546-562 | any number of bounce steps keeps the cursor in 1..9 |
| Controls.BouncesAdd | larson_jm.c:546-562 | a + b steps are a steps then b steps |
| Controls.SweepRight | larson_jm.c:548 | moving right, the cursor advances one LED per step until LED 9 |
| Controls.SweepLeft | larson_jm.c:548 | moving left, the cursor retreats one LED per step until LED 1 |
| Controls.FirstSweep | larson_jm.c:680-681 | from boot (LED 1, moving right) eight steps reach LED 9 still moving right; the ninth gives LED 8 moving left |
| Controls.TurnAround | larson_jm.c:546-562 | from LED 9 moving right, nine steps turn back, reach LED 1 and turn up to LED 2 |
| Controls.Period16 | larson_jm.c:546-562 | the sweep has period 16 |
| LarsonJm.Scanner.UpdatePosition | larson_jm.c:546-562 | the cursor fields take one bounce step |
| Controls.NextMode | larson_jm.c:567-574 | the next display mode is in 0..5 and wraps 5 → 0 |
| Controls.NextModes | larson_jm.c:567-574 | repeated mode changes stay in 0..5 |
| Controls.ModesCycle | larson_jm.c:567-574 | n mode changes advance the mode by n modulo 6 |
| LarsonJm.Scanner.ToggleDisplayMode | larson_jm.c:567-574 | the mode field takes one mode step |
| Controls.Inc8 | larson_jm.c:588 | a byte `++` wraps 255 to 0 |
| Controls.ButtonStep | larson_jm.c:579-620 | a release fires iff the press was seen, and returns to the released state; the long-press event fires iff the counter passes 100 while not yet switched; a pressed pass never releases |
| Controls.Hold | larson_jm.c:586-604 | holding keeps the button state valid |
| Controls.AtMostOneLongPress | larson_jm.c:590-598 | however long the button is held, the long-press event fires at most once, and not at all once switched |
| Controls.HoldCounting | larson_jm.c:586-603 | the first 100 pressed passes only count, and mark the press as seen |
| Controls.HoldLong | larson_jm.c:590-603 | from the 101st pressed pass on, exactly one long-press event has fired and the press stays seen |
| Controls.HoldFromReleased | larson_jm.c:586-603 | the hold count and events after n pressed passes from released, in all cases |
| Controls.PressThenRelease | larson_jm.c:605-619 | releasing after n pressed passes advances speed and mode exactly when n ≥ 1, long press or not |
| LarsonJm.Scanner.UpdateButton | larson_jm.c:579-620 | the button fields take one button step; a release raises the dirty flag, increments the unclamped speed byte and advances the mode; a long press only raises the dirty flag |
| Controls.PaceStep | larson_jm.c:630-648 | the cycle counter stays in 0..250; a write happens iff dirty and the counter exceeds 100, and the dirty flag clears exactly then |
| Controls.Pace | larson_jm.c:630-648 | repeated pacing keeps the pacer valid |
| Controls.CooldownWindow | larson_jm.c:636-647 | a pending write waits until the counter passes 100, then writes exactly once |
| Controls.CleanNeverWrites | larson_jm.c:636 | with nothing pending, no pass ever writes |
| LarsonJm.Scanner.UpdateEeprom | larson_jm.c:625-649 | one pacing pass; when it writes, the stored byte becomes the speed in the high nibble |
| Controls.StoredSpeed | larson_jm.c:642-643 | the written byte holds the speed level in its high nibble, truncated to 8 bits, and a zero low nibble |
| Controls.BootSpeed | larson_jm.c:256-259 | the boot speed is the stored high nibble, or 1 when that exceeds 3; the unprogrammed byte 0xFF gives 1 |
| Controls.SpeedRoundTrip | larson_jm.c:256-259 | write then boot returns every speed 0..3; levels 0..15 survive the nibble |
| Controls.BootSkinny | larson_jm.c:245-253 | skinny eye is jumper 2, inverted when the button is held at power-on |
| LarsonJm.Scanner.constructor | larson_jm.c:227-268 | boot: speed from the stored byte, skinny weights from jumper and button, mode 0, cursor at LED 1 moving right, statics zeroed |
| Eye.Split | larson_jm.c:288-306 | centre LED and blend: r + m = 15, both in 0..15; 16·centre + r = 15 + p moving right, 16·centre + m = 127 − p moving left; the centre is on the strip for p ≤ 127 |
| Eye.FoldedSlot | larson_jm.c:314-339 | slot j is the centre offset by the head-first offset, reflected at 0 and 8, and lies in 0..8 |
| Eye.FoldedSlots | larson_jm.c:314-339 | all five reflected slots lie in 0..8 |
| Eye.RunoffSlot | larsonrunoff.c:219-236 | slot j lies j + 1 LEDs behind the centre, against the direction of travel (c − (j+1) moving right, c + (j+1) moving left), and is -1 when off the strip |
| Eye.RunoffSlots | larsonrunoff.c:219-236 | every run-off slot is -1 or in 0..8 |
| Eye.AddVisible | larsonrunoff.c:241-244 | adds x to LED i and leaves every other LED as it was; a deposit on a -1 slot changes nothing |
| Eye.SumAddVisible | larsonrunoff.c:241-244 | a deposit adds its amount to the LED total exactly when its slot is on the strip |
| Eye.Deposit | larson_jm.c:341-348 | the deposit loop as a function on nine LEDs; what each LED receives is stated by `Eye.DepositIsShare` |
| Eye.EyeFrame | larson_jm.c:308-348 | the folded eye around a centre is a nine-LED frame |
| Eye.RunoffFrame | larsonrunoff.c:213-247 | the run-off eye around a centre is a nine-LED frame |
| Eye.DepositIsShare | larson_jm.c:341-348 | contributions add: each LED holds the sum of every share whose slot lands on it (reference definition `Share`) |
| Eye.DepositTotal | larson_jm.c:341-348 | the deposit never exceeds what the eye parts hand out, and equals it when every slot is on the strip |
| Eye.HandedAll | larson_jm.c:344-347 | the four parts hand out 15 × (sum of the weights) |
| Eye.EyeFrameTotal | larson_jm.c:341-348 | the folded eye conserves brightness: the nine LEDs sum to 15 × (sum of the weights) |
| Eye.RunoffFrameTotal | larsonrunoff.c:238-247 | the run-off eye holds at most 15 × (sum of the weights) |
| Eye.FrameFitsByte | larson_jm.c:344-347 | with byte-sized weights every LED of a frame fits in a byte |
| Eye.DepositStepFits | larson_jm.c:344-347 | no single uint8 `+=` of the deposit loop wraps |
| Eye.ClearLeds | larson_jm.c:308-312 | the clearing loop leaves all nine LEDs dark |
| Eye.FillFoldedSlots | larson_jm.c:314-339 | the slot loop fills exactly the reflected slot list |
| Eye.AddByte | larson_jm.c:344-347 | one `+=` changes only its LED, by the amount added |
| Eye.AddSlot | larsonrunoff.c:241-244 | one guarded `+=` leaves the LEDs as the pure deposit of that share, unchanged when the slot is -1 |
| Eye.AddEyePart | larson_jm.c:342-348 | one iteration of the deposit loop adds eye part j, skipping -1 slots when guarded |
| Eye.AddEye | larson_jm.c:341-348 | the deposit loop leaves the LEDs equal to the deposit function, each a byte |
| Patterns.OrigStride | larson_jm.c:356-368 | the original eye's stride is 25 at speed 1, 35 at speed 3, 30 at every other speed, and 25 or 35 only at those speeds |
| Patterns.OrigAdvance | larson_jm.c:355-373 | the original cursor stays in 1..127; past 127 it restarts at 1 reversed, otherwise it strides on |
| Patterns.SlowestSweep | larson_jm.c:355-373 | at speed 1 a sweep is 1, 26, …, 126, then 1 reversed |
| Patterns.OrigFrame | larson_jm.c:288-353 | the mode 0 frame: each LED in 0..75 (below the PWM maximum 100), total 15 × (sum of the weights) |
| Patterns.OrigBlend | larson_jm.c:288-306 | the firmware's nibble arithmetic computes the blend `Split` describes |
| Patterns.OrigEye | larson_jm.c:286-348 | the three loops build exactly the mode 0 frame |
| Patterns.EyeFrameBounds | larson_jm.c:341-348 | with weights {1,4,2,1} or {0,4,1,0} every folded LED is in 0..75 |
| Patterns.EyeFrameAtMost75 | larson_jm.c:341-348 | a single folded LED never exceeds 75 |
| Patterns.SharesAtMost75 | larson_jm.c:344-347 | the shares that can reach one LED sum to at most 75 |
| Patterns.SlotsApart | larson_jm.c:327-336 | folding never stacks neighbouring slots or three slots on one LED |
| LarsonJm.OrigStep | larson_jm.c:355-373 | the stride code computes `OrigAdvance` |
| LarsonJm.Scanner.UpdateLarsonOrig | larson_jm.c:276-374 | mode 0 shows the frame at the old original cursor, strides the cursor and zeroes `slowness` |
| Patterns.Larson2Frame | larson_jm.c:381-404 | LED position−1 at 70 and only there, its neighbours on the strip at 15, every other LED 0 |
| LarsonJm.Larson2Eye | larson_jm.c:383-399 | the buffer code builds exactly that frame |
| LarsonJm.Scanner.UpdateLarson2 | larson_jm.c:381-404 | mode 1 shows the three-LED frame at the cursor |
| Patterns.KnightRiderFrame | larson_jm.c:483-540 | every value is one of 0, 5, 10, 15, 70; 70 exactly at the centre; 15 on the one LED ahead; the LED k behind (k = 1..3) at 15 − 5(k−1), so a 15, 10, 5 trail; dark beyond |
| LarsonJm.KnightRiderEye | larson_jm.c:485-539 | the buffer code builds exactly the KITT frame |
| LarsonJm.TrailLow | larson_jm.c:499-516 | the low-side loop writes the frame below the centre, one LED when moving left |
| LarsonJm.TrailHigh | larson_jm.c:517-535 | the high-side loop completes the frame, one LED when moving right |
| LarsonJm.Scanner.UpdateKnightRider | larson_jm.c:483-540 | mode 2 shows the KITT frame at the cursor |
| Patterns.BarFrame | larson_jm.c:434-449 | only 0 or 50; LED i is lit iff i < (x − 1) / 10, so lit LEDs form a prefix |
| Patterns.MiddleFrame | larson_jm.c:410-427 | only 0 or 50; LED j is lit iff its distance to LED 4 is below (x − 1) / 10; symmetric about LED 4 |
| Patterns.BarLengths | larson_jm.c:704-707 | the intensity from the cursor is a byte and gives bar length p − 1 for p ≤ 5, else p; dark at 1, full at 9 |
| LarsonJm.Scanner.UpdateIntensityMiddle | larson_jm.c:410-427 | mode 3 shows the middle bar |
| LarsonJm.Scanner.UpdateIntensityLeft | larson_jm.c:434-449 | mode 4 shows the left bar |
| Patterns.GlowStep | larson_jm.c:459-476 | the current LED brightens by one; at 50 the glow moves on (wrapping to LED 0 at zero); everything right of the current LED is dark; LEDs left of it are kept |
| Patterns.Glows | larson_jm.c:459-476 | repeated glow steps keep the LEDs bytes and the index in 0..8 |
| Patterns.GlowRise | larson_jm.c:461 | while below 50 the current LED climbs one step per call and nothing else changes |
| Patterns.GlowHandOver | larson_jm.c:461-471 | from dark, an LED takes 49 calls to reach 49 and the 50th hands over to the next LED |
| LarsonJm.GlowInto | larson_jm.c:459-476 | the glow code computes `GlowStep` |
| LarsonJm.Scanner.UpdateGlowLeft | larson_jm.c:454-477 | mode 5 takes one glow step while the cursor is below 6, and changes nothing otherwise |
| LarsonJm.Scanner.Show | larson_jm.c:350-353 | the copy loop makes the LED buffer equal the frame |
| LarsonJm.Scanner.Render | larson_jm.c:691-714 | the dispatch draws the current mode's frame; `slowness`, the original cursor and the glow index change only in their own modes |
| LarsonJm.Scanner.Iterate | larson_jm.c:686-714 | one pass: button step, bounce step, then the frame of the mode the button left |
| Larson14.SpeedSetting | larson.c:219-225 | speeds 2 and 3 are kept, anything else becomes 1; delay 1 exactly at speed 1 |
| Larson14.BootSettings | larson.c:206-225 | speed is the high nibble when 2 or 3, else 1; BrightMode is bit 0 unless the byte is 0xFF; delay 1 iff speed 1 |
| Larson14.ConfigByte | larson.c:249 | the written byte has the speed in its high nibble and BrightMode in bit 0, nothing in bits 1..3, and is never 0xFF |
| Larson14.ConfigRoundTrip | larson.c:206-249 | every valid setting survives a write and a reboot unchanged |
| Larson14.NextSpeed | larson.c:290-299 | a release moves speed s to s mod 3 + 1 and keeps BrightMode |
| Larson14.SpeedCycle | larson.c:288-302 | the speed cycles 1 → 2 → 3 → 1 with period exactly 3 |
| Larson14.Gate | larson.c:231-237 | a pass is active iff the incremented byte counter exceeds the delay; an active pass restarts the counter |
| Larson14.GateRate | larson.c:231-237 | the first pass is active; at speed 1 every other pass is active, at speeds 2 and 3 every pass |
| Larson14.PressStep | larson.c:258-304 | release advances iff the press was seen and returns to idle; the toggle fires iff the counter passes 100 while not yet switched; pressed passes never advance |
| Larson14.Holding | larson.c:258-282 | holding keeps the button state valid |
| Larson14.HoldCounting | larson.c:258-280 | the counter rises by two per pressed pass: after n ≤ 50 passes it reads 2n and nothing has toggled |
| Larson14.HoldAfterToggle | larson.c:262-276 | once a press has toggled, holding longer toggles nothing more |
| Larson14.HoldLong | larson.c:258-282 | from the 51st pressed pass on, exactly one toggle has fired |
| Larson14.PressThenRelease | larson.c:258-304 | a press of n passes toggles once iff n ≥ 51, and its release advances the speed iff n ≥ 1 |
| Larson14.ApplyPress | larson.c:264-299 | a toggle flips BrightMode only; an advance applies `NextSpeed`; otherwise the settings are kept |
| Larson14.RobotStep | larson.c:307-321 | the prescaler stays in 0..10 and the chase position in 0..18 |
| Larson14.RobotSteps | larson.c:307-321 | repeated steps keep both in range |
| Larson14.RobotWaits | larson.c:309-316 | within one period the chase stands still while the prescaler climbs by 1 (or 2 at speed 3) |
| Larson14.RobotAdvances | larson.c:309-321 | after 11 passes (6 at speed 3) the chase has moved one position on, 18 wrapping to 0 |
| Larson14.RobotFrame | larson.c:325-333 | the chase frame has nine LEDs |
| Larson14.RobotOneLed | larson.c:325-333 | at most one LED is lit: LED 8 − position/2 at 30, and none at position 18 |
| Larson14.ShowRobot | larson.c:325-333 | the nine assignments write exactly the chase frame |
| Larson14.ScanStep | larson.c:339-354 | the position stays below the wrap; the direction flips exactly when the step reaches the wrap |
| Larson14.ScanSteps | larson.c:339-354 | repeated steps stay valid |
| Larson14.ScanSweeping | larson.c:339-354 | within a sweep the eye moves by 1 (2 at speed 3) per pass in one direction |
| Larson14.ScanTurns | larson.c:344-354 | a full sweep brings the eye back to 0 facing the other way |
| Larson14.ScanFrame | larson.c:356-401 | the eye frame at a scan state has nine LEDs |
| Larson14.ScanFrameBounds | larson.c:356-401 | each LED in 0..75 and the total 15 × (sum of the weights) ≤ 120, so nothing wraps; r + m = 15 and the centre is in 0..8 |
| Larson14.BootWeights | larson.c:173-201 | skinny weights iff jumper 1 and the button at power-on differ |
| Larson14.ControlStep | larson.c:239-304 | one control half: settings change only with a write pending, and the stored byte changes only to the encoding of the settings in force |
| Larson14.ControlStepPersists | larson.c:244-291 | each pass keeps the stored byte decoding to the settings in force, or leaves a write pending |
| Larson14.MoveStep | larson.c:307-354 | a chase step leaves the direction alone; an eye step leaves the prescaler alone |
| Larson14.MotionFrame | larson.c:307-410 | the LEDs a pass leaves are all in 0..75 |
| Larson14.CopyLeds | larson.c:402-410 | LED0..LED8 become the computed buffer |
| Larson14.Scanner.constructor | larson.c:159-225 | boot: settings decoded from the stored byte, idle button, pacer at 0, eye at 0 moving right, loop counter 254 |
| Larson14.Scanner.PaceConfig | larson.c:239-255 | one pacing step; when it writes, the byte written is the encoding of the settings |
| Larson14.Scanner.UpdateButton | larson.c:258-304 | the button fields take one press step, the settings take `ApplyPress`, and the write flag rises on a toggle or advance |
| Larson14.Scanner.RunControls | larson.c:239-304 | the control fields take one `ControlStep` |
| Larson14.Scanner.StepRobot | larson.c:307-335 | one chase step, and the LEDs show the chase frame |
| Larson14.Scanner.StepEye | larson.c:339-410 | one eye step, and the LEDs show the eye frame |
| Larson14.Scanner.Move | larson.c:307-412 | the chase or the eye as chosen at boot |
| Larson14.Scanner.Active | larson.c:237-412 | control half, then motion at the speed the button left |
| Larson14.Scanner.Pass | larson.c:231-415 | an idle pass changes only the loop counter; an active pass keeps the invariants, including "stored byte decodes to the settings or a write is pending" |
| Runoff.ButtonStep | larsonrunoff.c:151-183 | a release re-arms with the counter at 1; a pressed pass changes the speed iff armed; the toggle fires iff the counter reaches 101; never both |
| Runoff.Holding | larsonrunoff.c:151-179 | holding keeps the button state valid |
| Runoff.HoldFromReady | larsonrunoff.c:151-179 | after n pressed passes from ready: counter (n+1) mod 101, (n+1)/101 toggles, one speed change iff n ≥ 1 |
| Runoff.TogglePasses | larsonrunoff.c:153-163 | the k-th pressed pass toggles BrightMode iff k + 1 is a multiple of 101, repeating while held |
| Runoff.PressThenRelease | larsonrunoff.c:165-183 | any press changes the speed exactly once, and the release re-arms the button |
| Runoff.ApplyButton | larsonrunoff.c:155-177 | a toggle flips BrightMode; a speed change applies the 1 → 2 → 3 → 1 cycle |
| Runoff.BootSpeedOrder | larsonrunoff.c:165-175 | from the boot speed 2, presses give 3, 1, then 2 again |
| Runoff.Int8 | larsonrunoff.c:223-225 | a value stored in an `int8_t` is reduced into −128..127 and unchanged when already there |
| Runoff.RunoffCentre | larsonrunoff.c:200-211 | the centre lies in −5..13; moving left past 127 it is floor((127 − p)/16) and negative |
| Runoff.ByteBlend | larsonrunoff.c:200-211 | the byte ILED is the centre mod 256, RLED and MLED are the blend, and RLED + MLED = 15 |
| Runoff.SlotByte | larsonrunoff.c:219-236 | a byte-computed slot is -1 or on the strip |
| Runoff.SlotByteAgrees | larsonrunoff.c:219-236 | the uint8 wrap of ILED and the int8 wrap of m cancel: byte slots equal the run-off slots of the true centre |
| Runoff.RunoffEye | larsonrunoff.c:200-247 | the run-off frame has nine LEDs |
| Runoff.RunoffEyeBounds | larsonrunoff.c:238-247 | the nine LEDs hold at most 15 × (0+4+1+0) = 75 in total, so no byte wraps |
| Runoff.FillSlots | larsonrunoff.c:219-236 | the slot loop fills exactly the run-off slots of the true centre |
| Runoff.BuildEye | larsonrunoff.c:200-247 | the eye code builds exactly the run-off frame |
| Runoff.Scanner.constructor | larsonrunoff.c:133-141 | boot: speed 2, BrightMode off, button ready, eye at 0 moving right, loop counter 254 |
| Runoff.Scanner.UpdateButton | larsonrunoff.c:151-183 | the button fields take one button step and the settings take `ApplyButton` |
| Runoff.Scanner.UpdatePosition | larsonrunoff.c:185-198 | the position takes one step with wrap 208, flipping the direction exactly when it reaches 208 |
| Runoff.Scanner.Active | larsonrunoff.c:151-257 | button, position at the speed the button left, then the run-off eye |
| Runoff.Scanner.Pass | larsonrunoff.c:145-258 | an idle pass changes only the loop counter; an active pass does the above and keeps every LED ≤ 75 |

## Left out

- Register setup (`timer0_init`, `init_board`, watchdog, DDR and PORT writes at boot): only the initial values of the LED ports are kept (`Board.InitialPortD`, `Board.InitialPortB`).
- EEPROM access: `eeprom_read_word` and `eeprom_write_word` are library calls on the chip. The EEPROM is a single byte field, read at boot and assigned on a write.
- Timing: `loop_delay` (larson_jm.c:656-669), the `nop` macros and the output multiplexing and full-power loops (larson.c:417-520, larsonrunoff.c:260-360) shape port timing only. The soft-PWM comparison is modelled by the interrupt tick.
- Concurrency: the interrupt can preempt the main loop. Here the tick and the main-loop pass are separate sequential methods over shared state, and interleaving inside a pass is not modelled.
- Infinite loops: each `for(;;)`/`while(1)` is modelled as one pass, with the invariants proved to hold from pass to pass.
- tags/larson_extend/larsonextend.c and tags/larson_13/larson.c are not part of this model: the first adds a pin handshake between boards, and the second is larson.c without robot mode.
- larson.c's BrightMode has no effect beyond being stored, because it only selects between the output loops that are left out.
- Runoff.RunoffCentre, Runoff.ByteBlend: the byte arithmetic is modelled for the positions the firmware reaches (0..207), not for every byte.
- LarsonJm.Scanner.Iterate: the `default:` branch of the dispatch (mode 6 and above) is unreachable, because the mode is kept in 0..5; the model draws mode 0 there as the code does.
