/**
  The restructured firmware (larson_jm.c) as one object: its global settings and
  runtime data, the port registers it drives, and the function-local statics of
  its routines become the fields of a Scanner.  The constructor is power-on
  (board init, settings_init and the start of main), Iterate is one pass of the
  main loop and Tick is one Timer0 overflow interrupt.
*/
module LarsonJm {
  import opened Eye
  import Board
  import Pwm
  import Controls
  import Patterns

  /** Passes of the delay loop per main-loop pass at boot. */
  const DefaultSlowness := 5

  /** One port's half of the interrupt: each LED bit in turn set when its level exceeds the phase, cleared otherwise. */
  method DrivePort(port: bv8, bits: seq<bv8>, levels: seq<int>, phase: int) returns (p: bv8)
    requires |bits| == |levels|
    ensures p == Pwm.DriveAll(port, bits, levels, phase, |bits|)
  {
    p := port;
    var i := 0;
    while i < |bits|
      invariant 0 <= i <= |bits|
      invariant p == Pwm.DriveAll(port, bits, levels, phase, i)
    {
      ghost var before := p;
      if levels[i] > phase {
        p := p | bits[i];
      } else {
        p := p & !bits[i];
      }
      assert p == Pwm.Drive(before, bits[i], Pwm.Lit(levels[i], phase));
      i := i + 1;
    }
  }

  /**
    The ports after an interrupt show the levels: each LED's bit is set exactly when
    its level exceeds the phase, and every bit that carries no LED is unchanged.
  */
  predicate PortsShow(d0: bv8, b0: bv8, d: bv8, b: bv8, levels: seq<int>, phase: int)
    requires |levels| == NumLeds
  {
    Pwm.Shows(d, Board.LowerLedBits, levels[..Board.NumLowerLeds], phase) &&
    Pwm.Shows(b, Board.UpperLedBits, levels[Board.NumLowerLeds..], phase) &&
    d & !Board.LowerLedMask == d0 & !Board.LowerLedMask &&
    b & !Board.UpperLedMask == b0 & !Board.UpperLedMask
  }

  /** The two port loops of the interrupt: LEDs 0..4 on port D, then LEDs 5..8 on port B. */
  method DrivePorts(d0: bv8, b0: bv8, levels: seq<int>, phase: int) returns (d: bv8, b: bv8)
    requires |levels| == NumLeds
    ensures PortsShow(d0, b0, d, b, levels, phase)
  {
    d := DrivePort(d0, Board.LowerLedBits, levels[..Board.NumLowerLeds], phase);
    b := DrivePort(b0, Board.UpperLedBits, levels[Board.NumLowerLeds..], phase);
    Pwm.LowerPort(d0, levels[..Board.NumLowerLeds], phase);
    Pwm.UpperPort(b0, levels[Board.NumLowerLeds..], phase);
  }

  /** The original cursor's stride: 25, then 10 more at speed 3 or 5 more at any speed but 1; past 127 it restarts at 1, reversed. */
  method OrigStep(p: int, d: int, speed: int) returns (p': int, d': int)
    requires 1 <= p <= Patterns.PositionLimitOld && Controls.IsDirection(d)
    ensures Controls.Cursor(p', d') == Patterns.OrigAdvance(Controls.Cursor(p, d), speed)
  {
    p', d' := p + 25, d;
    if speed == Controls.MaxSpeed {
      p' := p' + 10;
    } else if speed == Controls.MinSpeed {
    } else {
      p' := p' + 5;
    }
    if p' > Patterns.PositionLimitOld {
      p' := 1;
      d' := -d';
    }
  }

  /** One glow step on the LED buffer: brighten the current LED, hand over at 50, then darken everything right of the current LED. */
  method GlowInto(leds: array<int>, current: int) returns (next: int)
    requires leds.Length == NumLeds && Patterns.Bytes(leds[..]) && 0 <= current <= MaxLedIndex
    modifies leds
    ensures Patterns.Glow(leds[..], next) == Patterns.GlowStep(old(leds[..]), current)
  {
    ghost var g := Patterns.GlowStep(leds[..], current);
    leds[current] := Controls.Inc8(leds[current]);
    next := current;
    if leds[next] >= Patterns.MediumBrightness {
      next := next + 1;
      if next > MaxLedIndex {
        next := 0;
        leds[0] := 0;
      }
    }
    ghost var kept := leds[..];
    var i := next + 1;
    while i < NumLeds
      invariant next + 1 <= i <= NumLeds
      invariant forall t :: 0 <= t < NumLeds ==> leds[t] == (if next < t < i then 0 else kept[t])
    {
      leds[i] := 0;
      i := i + 1;
    }
    assert leds[..] == g.leds;
  }

  /** The three-LED eye at cursor position p, built in a fresh buffer: the centre and each neighbour that exists. */
  method Larson2Eye(p: int) returns (frame: array<int>)
    requires Controls.PositionInitial <= p <= Controls.PositionLimit
    ensures fresh(frame)
    ensures frame[..] == Patterns.Larson2Frame(p)
  {
    var center := p - 1;
    frame := new int[NumLeds];
    ClearLeds(frame);
    frame[center] := Patterns.MediumHighBrightness;
    if center > 0 {
      frame[center - 1] := Patterns.LowBrightness;
    }
    if center < MaxLedIndex {
      frame[center + 1] := Patterns.LowBrightness;
    }
  }

  /** The KITT eye at cursor c, built in a fresh buffer: the centre, then the side behind, then the side ahead. */
  method KnightRiderEye(c: Controls.Cursor) returns (frame: array<int>)
    requires Controls.ValidCursor(c)
    ensures fresh(frame)
    ensures frame[..] == Patterns.KnightRiderFrame(c)
  {
    var center := c.position - 1;
    frame := new int[NumLeds];
    ClearLeds(frame);
    frame[center] := Patterns.MediumHighBrightness;
    TrailLow(frame, c);
    TrailHigh(frame, c);
  }

  /** The first loop of the KITT eye: the LEDs below the centre, one of them when moving left, all of them when moving right. */
  method TrailLow(frame: array<int>, c: Controls.Cursor)
    requires Controls.ValidCursor(c) && frame.Length == NumLeds
    requires forall t :: 0 <= t < NumLeds ==> frame[t] == (if t == c.position - 1 then Patterns.MediumHighBrightness else 0)
    modifies frame
    ensures forall t :: 0 <= t < NumLeds ==>
      frame[t] == (if t <= c.position - 1 then Patterns.KnightRiderFrame(c)[t] else 0)
  {
    ghost var f := Patterns.KnightRiderFrame(c);
    var center := c.position - 1;
    var lowIndex := center - 1;
    var lowBrightness := Patterns.LowBrightness;
    while lowIndex >= 0
      invariant -1 <= lowIndex < center
      invariant c.direction == Controls.MovingLeft ==> lowIndex == center - 1
      invariant lowBrightness == Patterns.Trail(center - lowIndex)
      invariant forall t :: 0 <= t <= lowIndex ==> frame[t] == 0
      invariant forall t :: lowIndex < t < NumLeds ==> frame[t] == (if t <= center then f[t] else 0)
    {
      if lowBrightness > 0 {
        frame[lowIndex] := lowBrightness;
        lowBrightness := lowBrightness - Patterns.KnightRiderDelta;
      } else {
        frame[lowIndex] := 0;
      }
      lowIndex := lowIndex - 1;
      if c.direction == Controls.MovingLeft {
        break;
      }
    }
  }

  /** The second loop of the KITT eye: the LEDs above the centre, one of them when moving right, all of them when moving left. */
  method TrailHigh(frame: array<int>, c: Controls.Cursor)
    requires Controls.ValidCursor(c) && frame.Length == NumLeds
    requires forall t :: 0 <= t < NumLeds ==>
      frame[t] == (if t <= c.position - 1 then Patterns.KnightRiderFrame(c)[t] else 0)
    modifies frame
    ensures frame[..] == Patterns.KnightRiderFrame(c)
  {
    ghost var f := Patterns.KnightRiderFrame(c);
    var center := c.position - 1;
    var highIndex := center + 1;
    var highBrightness := Patterns.LowBrightness;
    while highIndex <= MaxLedIndex
      invariant center < highIndex <= NumLeds
      invariant c.direction == Controls.MovingRight ==> highIndex == center + 1
      invariant highBrightness == Patterns.Trail(highIndex - center)
      invariant forall t :: 0 <= t < highIndex ==> frame[t] == f[t]
      invariant forall t :: highIndex <= t < NumLeds ==> frame[t] == 0
    {
      frame[highIndex] := highBrightness;
      if highBrightness > 0 {
        frame[highIndex] := highBrightness;
        highBrightness := highBrightness - Patterns.KnightRiderDelta;
      } else {
        frame[highIndex] := 0;
      }
      highIndex := highIndex + 1;
      if c.direction == Controls.MovingRight {
        break;
      }
    }
    assert frame[..] == f;
  }

  class Scanner {
    // runtime data
    var direction: int
    var position: int
    var leds: array<int>
    // settings
    var speedLevel: int
    var weights: seq<int>
    var slowness: int
    var displayMode: int
    var skinnyEyeEnabled: bool
    var eepromNeedsUpdate: bool
    /** The settings byte held in EEPROM. */
    var eeprom: bv8
    // output ports
    var portD: bv8
    var portB: bv8
    // statics of the interrupt, the original mode, the glow mode, the button and the EEPROM pacer
    var cnts: int
    var positionO: int
    var dirO: int
    var currLed: int
    var debounce: bool
    var debounce2: int
    var modeSwitched: bool
    var cycleCount: int

    function Cursor(): Controls.Cursor
      reads this`position, this`direction
    {
      Controls.Cursor(position, direction)
    }

    function OrigCursor(): Controls.Cursor
      reads this`positionO, this`dirO
    {
      Controls.Cursor(positionO, dirO)
    }

    function ButtonState(): Controls.Button
      reads this`debounce, this`debounce2, this`modeSwitched
    {
      Controls.Button(debounce, debounce2, modeSwitched)
    }

    function PacerState(): Controls.Pacer
      reads this`cycleCount, this`eepromNeedsUpdate
    {
      Controls.Pacer(cycleCount, eepromNeedsUpdate)
    }

    /**
      The invariant of the running firmware: every byte in range, every LED at most
      the PWM maximum, and the LEDs from the glow cursor on strictly below it (so the
      glow's increment cannot overshoot).
    */
    predicate Valid()
      reads this, leds
    {
      LedsValid() && CursorValid() && SettingsValid() &&
      PhaseValid() && OrigValid() && ButtonValid() && PacerValid()
    }

    predicate LedsValid()
      reads this`leds, this`currLed, leds
    {
      leds.Length == NumLeds &&
      (forall i :: 0 <= i < NumLeds ==> 0 <= leds[i] <= Pwm.MaxBrightness) &&
      0 <= currLed <= MaxLedIndex &&
      (forall i :: 0 <= i < NumLeds && currLed <= i ==> leds[i] < Pwm.MaxBrightness)
    }

    predicate CursorValid()
      reads this`position, this`direction
    {
      Controls.ValidCursor(Cursor())
    }

    predicate SettingsValid()
      reads this`speedLevel, this`slowness, this`displayMode, this`weights, this`skinnyEyeEnabled
    {
      0 <= speedLevel < 256 && 0 <= slowness < 256 &&
      0 <= displayMode < Controls.NumDisplayModes &&
      weights == (if skinnyEyeEnabled then SkinnyWeights else DefaultWeights)
    }

    predicate PhaseValid()
      reads this`cnts
    {
      0 <= cnts <= Pwm.MaxBrightness
    }

    predicate OrigValid()
      reads this`positionO, this`dirO
    {
      1 <= positionO <= Patterns.PositionLimitOld && Controls.IsDirection(dirO)
    }

    predicate ButtonValid()
      reads this`debounce, this`debounce2, this`modeSwitched
    {
      Controls.ValidButton(ButtonState())
    }

    predicate PacerValid()
      reads this`cycleCount, this`eepromNeedsUpdate
    {
      Controls.ValidPacer(PacerState())
    }

    /**
      Power-on: zeroed globals and statics, the board's port values, the settings
      loaded from the jumper, the button and the stored byte, and the cursor at LED 1
      moving right.
    */
    constructor (jumper2Shorted: bool, buttonPressed: bool, stored: bv8)
      ensures Valid() && fresh(leds)
      ensures leds[..] == Dark
      ensures Cursor() == Controls.Cursor(Controls.PositionInitial, Controls.MovingRight)
      ensures speedLevel == Controls.BootSpeed(stored)
      ensures skinnyEyeEnabled == Controls.BootSkinny(jumper2Shorted, buttonPressed)
      ensures weights == (if skinnyEyeEnabled then SkinnyWeights else DefaultWeights)
      ensures displayMode == 0 && slowness == DefaultSlowness
      ensures eeprom == stored && !eepromNeedsUpdate
      ensures portD == Board.InitialPortD && portB == Board.InitialPortB
      ensures cnts == 0 && OrigCursor() == Controls.Cursor(1, Controls.MovingRight) && currLed == 0
      ensures ButtonState() == Controls.Released && cycleCount == 0
    {
      leds := new int[NumLeds](i => 0);
      eeprom := stored;
      eepromNeedsUpdate := false;
      cnts := 0;
      positionO := 1;
      dirO := Controls.MovingRight;
      currLed := 0;
      debounce := false;
      debounce2 := 0;
      modeSwitched := false;
      cycleCount := 0;
      // init_board
      portD := Board.InitialPortD;
      portB := Board.InitialPortB;
      // settings_init
      slowness := DefaultSlowness;
      displayMode := 0;
      var skinny := false;
      if jumper2Shorted {
        skinny := true;
      }
      if buttonPressed {
        skinny := !skinny;
      }
      var level := (stored >> 4) as int;
      if level > Controls.MaxSpeed {
        level := Controls.MinSpeed;
      }
      skinnyEyeEnabled := skinny;
      speedLevel := level;
      weights := if skinny then SkinnyWeights else DefaultWeights;
      // main, before the loop
      direction := Controls.MovingRight;
      position := Controls.PositionInitial;
    }

    /**
      The Timer0 overflow interrupt: each LED's port bit is set exactly when its
      brightness exceeds the phase, the other port bits keep their values, and the
      phase advances.
    */
    method Tick()
      requires Valid()
      modifies this`portD, this`portB, this`cnts
      ensures Valid()
      ensures cnts == Pwm.NextPhase(old(cnts))
      ensures PortsShow(old(portD), old(portB), portD, portB, leds[..], old(cnts))
    {
      var phase := cnts;
      portD, portB := DrivePorts(portD, portB, leds[..], phase);
      var next := phase + 1;
      if next > Pwm.MaxBrightness {
        next := 0;
      }
      cnts := next;
    }

    /** update_position: one bounce step of the cursor. */
    method UpdatePosition()
      requires Valid()
      modifies this`position, this`direction
      ensures Valid()
      ensures Cursor() == Controls.Bounce(old(Cursor()))
    {
      position := position + direction;
      if position > Controls.PositionLimit {
        direction := -direction;
        position := Controls.PositionLimit - 1;
      } else if position < Controls.PositionInitial {
        direction := -direction;
        position := Controls.PositionInitial + 1;
      }
    }

    /** toggle_display_mode */
    method ToggleDisplayMode()
      requires 0 <= displayMode < 256
      modifies this`displayMode
      ensures displayMode == Controls.NextMode(old(displayMode))
    {
      displayMode := displayMode + 1;
      if displayMode >= Controls.NumDisplayModes {
        displayMode := 0;
      }
    }

    /**
      update_button: one debounce pass.  A long press only marks the settings
      dirty; a release after a seen press marks them dirty, increments the speed
      level (a byte, not clamped) and advances the display mode.
    */
    method UpdateButton(pressed: bool)
      requires SettingsValid() && ButtonValid() && PacerValid()
      modifies this`debounce, this`debounce2, this`modeSwitched, this`eepromNeedsUpdate,
        this`speedLevel, this`displayMode
      ensures SettingsValid() && ButtonValid() && PacerValid()
      ensures var o := Controls.ButtonStep(old(ButtonState()), pressed);
        ButtonState() == o.next &&
        (eepromNeedsUpdate <==> old(eepromNeedsUpdate) || o.longPress || o.release) &&
        speedLevel == (if o.release then Controls.Inc8(old(speedLevel)) else old(speedLevel)) &&
        displayMode == (if o.release then Controls.NextMode(old(displayMode)) else old(displayMode))
    {
      if pressed {
        debounce2 := Controls.Inc8(debounce2);
        if debounce2 > Controls.LongPressPasses {
          if !modeSwitched {
            debounce2 := 0;
            eepromNeedsUpdate := true;
            modeSwitched := true;
          }
        } else {
          debounce := true;
        }
      } else {
        debounce2 := 0;
        modeSwitched := false;
        if debounce {
          debounce := false;
          eepromNeedsUpdate := true;
          speedLevel := Controls.Inc8(speedLevel);
          ToggleDisplayMode();
        }
      }
    }

    /**
      update_eeprom: one pacing pass; when the pacer writes, the stored byte becomes
      the speed level in the high nibble.
    */
    method UpdateEeprom()
      requires Valid()
      modifies this`cycleCount, this`eepromNeedsUpdate, this`eeprom
      ensures Valid()
      ensures var o := Controls.PaceStep(old(PacerState()));
        PacerState() == o.next &&
        eeprom == (if o.write then Controls.StoredSpeed(speedLevel) else old(eeprom))
    {
      cycleCount := cycleCount + 1;
      if cycleCount > Controls.CycleCeiling {
        cycleCount := 0;
      }
      if eepromNeedsUpdate {
        if cycleCount > Controls.Cooldown {
          eepromNeedsUpdate := false;
          eeprom := Controls.StoredSpeed(speedLevel);
        }
      }
    }

    /** Copies a finished frame into the LED buffer. */
    method Show(frame: array<int>)
      requires leds.Length == NumLeds && frame.Length == NumLeds && frame != leds
      modifies leds
      ensures leds[..] == frame[..]
    {
      var j := 0;
      while j < NumLeds
        invariant 0 <= j <= NumLeds
        invariant forall t :: 0 <= t < j ==> leds[t] == frame[t]
      {
        leds[j] := frame[j];
        j := j + 1;
      }
    }

    /**
      Mode 0 (update_led_brightness_larson_orig): the folded five-LED eye at the
      original cursor, which then strides on by the speed; the delay is switched off.
    */
    method UpdateLarsonOrig()
      requires Valid()
      modifies leds, this`positionO, this`dirO, this`slowness
      ensures Valid()
      ensures leds[..] == Patterns.OrigFrame(old(positionO), old(dirO) == Controls.MovingRight, weights)
      ensures OrigCursor() == Patterns.OrigAdvance(old(OrigCursor()), speedLevel)
      ensures slowness == 0
    {
      var frame := Patterns.OrigEye(positionO, dirO == Controls.MovingRight, weights);
      Show(frame);
      positionO, dirO := OrigStep(positionO, dirO, speedLevel);
      slowness := 0;
    }

    /** Mode 1 (update_led_brightness_larson2): the three-LED eye at the cursor. */
    method UpdateLarson2()
      requires Valid()
      modifies leds
      ensures Valid()
      ensures leds[..] == Patterns.Larson2Frame(position)
    {
      var frame := Larson2Eye(position);
      Show(frame);
    }

    /** Mode 2 (update_led_brightness_knight_rider): the KITT eye at the cursor. */
    method UpdateKnightRider()
      requires Valid()
      modifies leds
      ensures Valid()
      ensures leds[..] == Patterns.KnightRiderFrame(Cursor())
    {
      var frame := KnightRiderEye(Cursor());
      Show(frame);
    }

    /** Mode 3 (update_led_brightness_intensity_middle): a bar growing out from LED 4. */
    method UpdateIntensityMiddle(intensity: int)
      requires Valid() && 0 <= intensity < 256
      modifies leds
      ensures Valid()
      ensures leds[..] == Patterns.MiddleFrame(intensity)
    {
      ghost var f := Patterns.MiddleFrame(intensity);
      var rest := intensity;
      var i := 0;
      while i < NumLeds - Patterns.MiddleLed
        invariant 0 <= i <= NumLeds - Patterns.MiddleLed
        invariant intensity > Patterns.IntensityDelta * i ==> rest == intensity - Patterns.IntensityDelta * i
        invariant intensity <= Patterns.IntensityDelta * i ==> 0 <= rest <= Patterns.IntensityDelta
        invariant forall t :: 0 <= t < NumLeds && Patterns.Abs(t - Patterns.MiddleLed) < i ==> leds[t] == f[t]
        invariant forall t :: 0 <= t < NumLeds && Patterns.Abs(t - Patterns.MiddleLed) >= i ==> leds[t] == old(leds[t])
      {
        if rest > Patterns.IntensityDelta {
          rest := rest - Patterns.IntensityDelta;
          leds[Patterns.MiddleLed + i] := Patterns.MediumBrightness;
          leds[Patterns.MiddleLed - i] := Patterns.MediumBrightness;
        } else {
          leds[Patterns.MiddleLed + i] := 0;
          leds[Patterns.MiddleLed - i] := 0;
        }
        i := i + 1;
      }
      assert leds[..] == f;
    }

    /** Mode 4 (update_led_brightness_intensity_left): a bar growing from LED 0. */
    method UpdateIntensityLeft(intensity: int)
      requires Valid() && 0 <= intensity < 256
      modifies leds
      ensures Valid()
      ensures leds[..] == Patterns.BarFrame(intensity)
    {
      ghost var f := Patterns.BarFrame(intensity);
      var rest := intensity;
      var i := 0;
      while i < NumLeds
        invariant 0 <= i <= NumLeds
        invariant intensity > Patterns.IntensityDelta * i ==> rest == intensity - Patterns.IntensityDelta * i
        invariant intensity <= Patterns.IntensityDelta * i ==> 0 <= rest <= Patterns.IntensityDelta
        invariant forall t :: 0 <= t < i ==> leds[t] == f[t]
        invariant forall t :: i <= t < NumLeds ==> leds[t] == old(leds[t])
      {
        if rest > Patterns.IntensityDelta {
          rest := rest - Patterns.IntensityDelta;
          leds[i] := Patterns.MediumBrightness;
        } else {
          leds[i] := 0;
        }
        i := i + 1;
      }
      assert leds[..] == f;
    }

    /** Mode 5 (update_led_brightness_glow_left): one glow step while the cursor is below LED 6, nothing otherwise. */
    method UpdateGlowLeft()
      requires Valid()
      modifies leds, this`currLed
      ensures Valid()
      ensures old(position) < Patterns.GlowSlowLimit ==>
        Patterns.Glow(leds[..], currLed) == Patterns.GlowStep(old(leds[..]), old(currLed))
      ensures old(position) >= Patterns.GlowSlowLimit ==> leds[..] == old(leds[..]) && currLed == old(currLed)
    {
      if position < Patterns.GlowSlowLimit {
        currLed := GlowInto(leds, currLed);
      }
    }

    /**
      The frame of the current display mode (the switch in main), drawn after the
      cursor has moved.
    */
    method Render()
      requires Valid()
      modifies leds, this`positionO, this`dirO, this`slowness, this`currLed
      ensures Valid()
      ensures displayMode == 0 ==>
        leds[..] == Patterns.OrigFrame(old(positionO), old(dirO) == Controls.MovingRight, weights) &&
        OrigCursor() == Patterns.OrigAdvance(old(OrigCursor()), speedLevel)
      ensures displayMode == 1 ==> leds[..] == Patterns.Larson2Frame(position)
      ensures displayMode == 2 ==> leds[..] == Patterns.KnightRiderFrame(Cursor())
      ensures displayMode == 3 ==> leds[..] == Patterns.MiddleFrame(Patterns.IntensityOf(position))
      ensures displayMode == 4 ==> leds[..] == Patterns.BarFrame(Patterns.IntensityOf(position))
      ensures displayMode == 5 && position < Patterns.GlowSlowLimit ==>
        Patterns.Glow(leds[..], currLed) == Patterns.GlowStep(old(leds[..]), old(currLed))
      ensures displayMode == 5 && position >= Patterns.GlowSlowLimit ==> leds[..] == old(leds[..])
      ensures slowness == (if displayMode == 0 then 0 else old(slowness))
      ensures displayMode != 0 ==> OrigCursor() == old(OrigCursor())
      ensures displayMode != 5 || position >= Patterns.GlowSlowLimit ==> currLed == old(currLed)
    {
      if displayMode == 1 {
        UpdateLarson2();
      } else if displayMode == 2 {
        UpdateKnightRider();
      } else if displayMode == 3 {
        Patterns.BarLengths(position);
        UpdateIntensityMiddle(position * 11 - 5);
      } else if displayMode == 4 {
        Patterns.BarLengths(position);
        UpdateIntensityLeft(position * 11 - 5);
      } else if displayMode == 5 {
        UpdateGlowLeft();
      } else {
        UpdateLarsonOrig();
      }
    }

    /**
      One pass of the main loop: the button, the cursor, then the frame of the
      current display mode.  The EEPROM pacer is not called from the loop.
    */
    method Iterate(pressed: bool)
      requires Valid()
      modifies leds, this`debounce, this`debounce2, this`modeSwitched, this`eepromNeedsUpdate,
        this`speedLevel, this`displayMode, this`position, this`direction,
        this`positionO, this`dirO, this`slowness, this`currLed
      ensures Valid()
      ensures var o := Controls.ButtonStep(old(ButtonState()), pressed);
        ButtonState() == o.next &&
        displayMode == (if o.release then Controls.NextMode(old(displayMode)) else old(displayMode)) &&
        speedLevel == (if o.release then Controls.Inc8(old(speedLevel)) else old(speedLevel)) &&
        (eepromNeedsUpdate <==> old(eepromNeedsUpdate) || o.longPress || o.release)
      ensures Cursor() == Controls.Bounce(old(Cursor()))
      ensures displayMode == 0 ==>
        leds[..] == Patterns.OrigFrame(old(positionO), old(dirO) == Controls.MovingRight, weights) &&
        OrigCursor() == Patterns.OrigAdvance(old(OrigCursor()), speedLevel)
      ensures displayMode == 1 ==> leds[..] == Patterns.Larson2Frame(position)
      ensures displayMode == 2 ==> leds[..] == Patterns.KnightRiderFrame(Cursor())
      ensures displayMode == 3 ==> leds[..] == Patterns.MiddleFrame(Patterns.IntensityOf(position))
      ensures displayMode == 4 ==> leds[..] == Patterns.BarFrame(Patterns.IntensityOf(position))
      ensures displayMode == 5 && position < Patterns.GlowSlowLimit ==>
        Patterns.Glow(leds[..], currLed) == Patterns.GlowStep(old(leds[..]), old(currLed))
      ensures displayMode == 5 && position >= Patterns.GlowSlowLimit ==> leds[..] == old(leds[..])
      ensures slowness == (if displayMode == 0 then 0 else old(slowness))
      ensures displayMode != 0 ==> OrigCursor() == old(OrigCursor())
      ensures displayMode != 5 || position >= Patterns.GlowSlowLimit ==> currLed == old(currLed)
    {
      UpdateButton(pressed);
      UpdatePosition();
      Render();
    }
  }
}
