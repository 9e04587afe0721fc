/**
  The v1.4 firmware (larson.c): everything happens in one pass of main's loop,
  gated by a loop counter.  An active pass paces the settings write, runs the
  button, then either the robot chase (jumper 2) or the classic folded eye.
  The transition functions here are the reference; the Scanner class runs the
  pass in place on its fields and is proved against them.
*/
module Larson14 {
  import opened Eye
  import Controls
  import Patterns

  const MinSpeed := 1
  const MaxSpeed := 3
  /** The speed level whose passes the loop counter does not skip. */
  const FastSpeed := 3
  /** A pressed pass whose count exceeds this fires the BrightMode toggle. */
  const LongPressCount := 100
  /** The pressed pass on which the toggle fires: the count rises by two per pass up to 100. */
  const TogglePass := 51
  /** The robot chase advances when its prescaler reaches this. */
  const RobotPrescale := 11
  const RobotLastPosition := 18
  const RobotLevel := 30
  /** The eye position wraps to 0 (and the direction flips) on reaching this. */
  const EyeWrap := 128
  const MovingRight := 0
  const MovingLeft := 1

  // ---------------------------------------------------------------------------
  // Settings: speed level, loop delay and BrightMode

  datatype Settings = Settings(speedLevel: int, delayTime: int, brightMode: bool)

  /** The speed is 1, 2 or 3, and only speed 1 delays the loop by one pass. */
  predicate ValidSettings(s: Settings)
  {
    MinSpeed <= s.speedLevel <= MaxSpeed &&
    s.delayTime == (if s.speedLevel == MinSpeed then 1 else 0)
  }

  /** The speed normalisation shared by boot and release: 2 and 3 run undelayed, anything else becomes speed 1 with one pass of delay. */
  function SpeedSetting(level: int, brightMode: bool): (s: Settings)
    ensures ValidSettings(s) && s.brightMode == brightMode
    ensures level == 2 || level == 3 ==> s.speedLevel == level
    ensures level != 2 && level != 3 ==> s.speedLevel == MinSpeed
  {
    if level == 2 || level == 3 then Settings(level, 0, brightMode)
    else Settings(MinSpeed, 1, brightMode)
  }

  /**
    Boot decode of the stored byte: the speed is its high nibble, BrightMode its low
    bit, except that the unprogrammed byte 0xFF leaves BrightMode off; a speed above
    3 (or 0) falls back to 1.
  */
  function BootSettings(pt: bv8): (s: Settings)
    ensures ValidSettings(s)
    ensures s.brightMode <==> pt & 1 == 1 && pt != Controls.Unprogrammed
    ensures var level := (pt >> 4) as int;
      s.speedLevel == if level == 2 || level == 3 then level else MinSpeed
  {
    var level := (pt >> 4) as int;
    var bright := pt & 1 == 1;
    var bright' := if pt == Controls.Unprogrammed then false else bright;
    var level' := if level > MaxSpeed then MinSpeed else level;
    SpeedSetting(level', bright')
  }

  /** The byte written back: the speed in the high nibble, BrightMode in bit 0. */
  function ConfigByte(s: Settings): (pt: bv8)
    requires ValidSettings(s)
    ensures (pt >> 4) as int == s.speedLevel
    ensures pt & 1 == 1 <==> s.brightMode
    ensures pt & 0x0E == 0
    ensures pt != Controls.Unprogrammed
  {
    var high: bv8 := if s.speedLevel == 1 then 0x10 else if s.speedLevel == 2 then 0x20 else 0x30;
    assert high == (s.speedLevel as bv8) << 4;
    high | (if s.brightMode then 1 else 0)
  }

  /** Every valid setting survives a write and a reboot unchanged. */
  lemma ConfigRoundTrip(s: Settings)
    requires ValidSettings(s)
    ensures BootSettings(ConfigByte(s)) == s
  {
    var pt := ConfigByte(s);
    assert pt != Controls.Unprogrammed;
  }

  /** Release: speedLevel++, then the same normalisation as at boot. */
  function NextSpeed(s: Settings): (n: Settings)
    requires ValidSettings(s)
    ensures ValidSettings(n) && n.brightMode == s.brightMode
    ensures n.speedLevel == s.speedLevel % MaxSpeed + 1
  {
    SpeedSetting(s.speedLevel + 1, s.brightMode)
  }

  /** The speed cycles 1 -> 2 -> 3 -> 1: three releases give back the same settings and fewer do not. */
  lemma SpeedCycle(s: Settings)
    requires ValidSettings(s)
    ensures NextSpeed(NextSpeed(NextSpeed(s))) == s
    ensures NextSpeed(s) != s && NextSpeed(NextSpeed(s)) != s
  {
  }

  // ---------------------------------------------------------------------------
  // The loop gate

  /** loopcount++ (a byte); the pass does its work only if the count exceeds the delay, and then restarts the count. */
  function Gate(loopcount: int, delay: int): (g: (int, bool))
    requires 0 <= loopcount < 256
    ensures 0 <= g.0 < 256
    ensures g.1 <==> Controls.Inc8(loopcount) > delay
    ensures g.1 ==> g.0 == 0
  {
    var l := Controls.Inc8(loopcount);
    if l > delay then (0, true) else (l, false)
  }

  /**
    The first pass after boot is active; after an active pass, speeds 2 and 3 run
    every pass and speed 1 every second pass.
  */
  lemma GateRate(s: Settings)
    requires ValidSettings(s)
    ensures Gate(254, s.delayTime) == (0, true)
    ensures s.speedLevel != MinSpeed ==> Gate(0, s.delayTime) == (0, true)
    ensures s.speedLevel == MinSpeed ==> Gate(0, s.delayTime) == (1, false) && Gate(1, s.delayTime) == (0, true)
  {
  }

  // ---------------------------------------------------------------------------
  // The button

  /**
    The button state: `debounce` records a press seen, `held` the byte counter
    (debounce2), `switched` that this press already toggled BrightMode.
  */
  datatype Press = Press(debounce: bool, held: int, switched: bool)

  const Idle := Press(false, 0, false)

  predicate ValidPress(b: Press)
  {
    0 <= b.held < 256
  }

  /** What one active pass did: the new state, whether BrightMode toggled, whether the speed advanced. */
  datatype PressOutcome = PressOutcome(next: Press, toggle: bool, advance: bool)

  /**
    One active pass of the button.  Pressed: the counter goes up by one, and if it
    now exceeds 100 the first such pass of the press toggles BrightMode and restarts
    the count; otherwise the press is marked seen and the counter goes up once more.
    Released: everything clears, and the speed advances if a press was seen.
  */
  function PressStep(b: Press, pressed: bool): (o: PressOutcome)
    requires ValidPress(b)
    ensures ValidPress(o.next)
    ensures !pressed ==> o.next == Idle && !o.toggle && (o.advance <==> b.debounce)
    ensures pressed ==> !o.advance
    ensures o.toggle <==> pressed && !b.switched && Controls.Inc8(b.held) > LongPressCount
    ensures pressed ==> (o.next.switched <==> b.switched || o.toggle)
    ensures pressed && b.debounce ==> o.next.debounce
  {
    if pressed then
      var h := Controls.Inc8(b.held);
      if h > LongPressCount then
        if !b.switched then PressOutcome(Press(b.debounce, 0, true), true, false)
        else PressOutcome(Press(b.debounce, h, true), false, false)
      else PressOutcome(Press(true, Controls.Inc8(h), b.switched), false, false)
    else
      PressOutcome(Idle, false, b.debounce)
  }

  /** The state after n pressed active passes, with the number of toggles they made. */
  function Holding(b: Press, n: nat): (r: (Press, nat))
    requires ValidPress(b)
    ensures ValidPress(r.0)
  {
    if n == 0 then (b, 0)
    else
      var prev := Holding(b, n - 1);
      var o := PressStep(prev.0, true);
      (o.next, prev.1 + if o.toggle then 1 else 0)
  }

  /** Double counting: after n <= 50 pressed passes the counter reads 2n and nothing has toggled. */
  lemma {:induction false} HoldCounting(n: nat)
    requires n < TogglePass
    ensures Holding(Idle, n) == (Press(n >= 1, 2 * n, false), 0)
  {
    if n > 0 {
      HoldCounting(n - 1);
      var o := PressStep(Press(n - 1 >= 1, 2 * (n - 1), false), true);
      assert o == PressOutcome(Press(true, 2 * n, false), false, false);
    }
  }

  /** Once a press has toggled, holding it longer toggles nothing more and keeps it marked seen. */
  lemma {:induction false} HoldAfterToggle(b: Press, n: nat)
    requires ValidPress(b) && b.switched && b.debounce
    ensures Holding(b, n).1 == 0 && Holding(b, n).0.switched && Holding(b, n).0.debounce
  {
    if n > 0 {
      HoldAfterToggle(b, n - 1);
    }
  }

  /** Holding n passes from the released state toggles once from the 51st pass on. */
  lemma {:induction false} HoldLong(n: nat)
    requires n >= TogglePass
    ensures Holding(Idle, n).1 == 1 && Holding(Idle, n).0.switched && Holding(Idle, n).0.debounce
  {
    if n == TogglePass {
      HoldCounting(n - 1);
      assert PressStep(Press(true, 2 * (n - 1), false), true) == PressOutcome(Press(true, 0, true), true, false);
    } else {
      HoldLong(n - 1);
      var prev := Holding(Idle, n - 1);
      assert !PressStep(prev.0, true).toggle;
    }
  }

  /**
    A press of n active passes, then a release: BrightMode toggled once exactly when
    the press lasted 51 passes or more, and the release advances the speed after
    any press at all, long ones included.
  */
  lemma PressThenRelease(n: nat)
    ensures Holding(Idle, n).1 == if n >= TogglePass then 1 else 0
    ensures PressStep(Holding(Idle, n).0, false).advance <==> n >= 1
    ensures PressStep(Holding(Idle, n).0, false).next == Idle
  {
    if n < TogglePass {
      HoldCounting(n);
    } else {
      HoldLong(n);
    }
  }

  /** The settings after one active pass of the button. */
  function ApplyPress(s: Settings, o: PressOutcome): (n: Settings)
    requires ValidSettings(s)
    ensures ValidSettings(n)
    ensures o.toggle ==> n == s.(brightMode := !s.brightMode)
    ensures !o.toggle && o.advance ==> n == NextSpeed(s)
    ensures !o.toggle && !o.advance ==> n == s
  {
    if o.toggle then s.(brightMode := !s.brightMode)
    else if o.advance then NextSpeed(s)
    else s
  }

  // ---------------------------------------------------------------------------
  // Robot chase

  datatype Robot = Robot(prescale: int, position: int)

  predicate ValidRobot(r: Robot)
  {
    0 <= r.prescale < RobotPrescale && 0 <= r.position <= RobotLastPosition
  }

  /** The prescaler advances by 1 (2 at the fast speed); reaching 11 moves the chase on, wrapping after 18. */
  function RobotStep(r: Robot, fast: bool): (n: Robot)
    requires ValidRobot(r)
    ensures ValidRobot(n)
  {
    var p := r.prescale + (if fast then 2 else 1);
    var moved := if p >= RobotPrescale then Robot(0, r.position + 1) else Robot(p, r.position);
    if moved.position > RobotLastPosition then Robot(moved.prescale, 0) else moved
  }

  function RobotSteps(r: Robot, fast: bool, n: nat): (q: Robot)
    requires ValidRobot(r)
    ensures ValidRobot(q)
  {
    if n == 0 then r else RobotStep(RobotSteps(r, fast, n - 1), fast)
  }

  /** Active passes per chase step: 11, or 6 at the fast speed. */
  function RobotPeriod(fast: bool): nat
  {
    if fast then 6 else 11
  }

  /** Within one period the chase stands still while the prescaler climbs. */
  lemma {:induction false} RobotWaits(p: int, fast: bool, n: nat)
    requires 0 <= p <= RobotLastPosition && n < RobotPeriod(fast)
    ensures RobotSteps(Robot(0, p), fast, n) == Robot(if fast then 2 * n else n, p)
  {
    if n > 0 {
      RobotWaits(p, fast, n - 1);
    }
  }

  /** After one full period the chase has moved one position on (18 wraps to 0) and the prescaler is back at 0. */
  lemma RobotAdvances(p: int, fast: bool)
    requires 0 <= p <= RobotLastPosition
    ensures RobotSteps(Robot(0, p), fast, RobotPeriod(fast)) == Robot(0, (p + 1) % (RobotLastPosition + 1))
  {
    RobotWaits(p, fast, RobotPeriod(fast) - 1);
  }

  /** LED k shows 30 when the position's half equals 8 - k, 0 otherwise. */
  function RobotFrame(position: int): (f: seq<int>)
    ensures |f| == NumLeds
  {
    seq(NumLeds, k => if position / 2 == MaxLedIndex - k then RobotLevel else 0)
  }

  /**
    At most one LED is lit, at 30: LED 8 - position/2, so the chase runs from LED 8
    down to LED 0, two positions per LED; position 18 shows nothing.
  */
  lemma RobotOneLed(position: int)
    requires 0 <= position <= RobotLastPosition
    ensures forall k :: 0 <= k < NumLeds ==> RobotFrame(position)[k] in {0, RobotLevel}
    ensures forall k :: 0 <= k < NumLeds && RobotFrame(position)[k] != 0 ==> k == MaxLedIndex - position / 2
    ensures position < RobotLastPosition ==> RobotFrame(position)[MaxLedIndex - position / 2] == RobotLevel
    ensures position == RobotLastPosition ==> RobotFrame(position) == Dark
  {
  }

  // ---------------------------------------------------------------------------
  // Classic eye

  /** Fine position and direction (0 moving right, 1 moving left); the position stays below the wrap limit. */
  datatype Scan = Scan(position: int, direction: int)

  predicate ValidScan(s: Scan, wrap: int)
  {
    0 <= s.position < wrap && (s.direction == MovingRight || s.direction == MovingLeft)
  }

  /**
    The position advances by 1 (2 at the fast speed); reaching the wrap limit (128
    here, 208 in the run-off firmware) restarts it at 0 and flips the direction.
  */
  function ScanStep(s: Scan, fast: bool, wrap: int): (n: Scan)
    requires ValidScan(s, wrap)
    ensures ValidScan(n, wrap)
    ensures n.direction != s.direction <==> s.position + (if fast then 2 else 1) >= wrap
  {
    var p := s.position + (if fast then 2 else 1);
    if p >= wrap then Scan(0, if s.direction == MovingRight then MovingLeft else MovingRight)
    else Scan(p, s.direction)
  }

  function ScanSteps(s: Scan, fast: bool, wrap: int, n: nat): (q: Scan)
    requires ValidScan(s, wrap)
    ensures ValidScan(q, wrap)
  {
    if n == 0 then s else ScanStep(ScanSteps(s, fast, wrap, n - 1), fast, wrap)
  }

  /** Passes per sweep: the wrap limit, or half of it at the fast speed. */
  function SweepLength(fast: bool, wrap: int): int
  {
    if fast then wrap / 2 else wrap
  }

  /** Within a sweep the eye moves steadily in one direction. */
  lemma {:induction false} ScanSweeping(d: int, fast: bool, wrap: int, n: nat)
    requires wrap >= 2 && wrap % 2 == 0
    requires (d == MovingRight || d == MovingLeft) && n < SweepLength(fast, wrap)
    ensures ScanSteps(Scan(0, d), fast, wrap, n) == Scan(if fast then 2 * n else n, d)
  {
    if n > 0 {
      ScanSweeping(d, fast, wrap, n - 1);
    }
  }

  /** A full sweep brings the eye back to position 0 facing the other way. */
  lemma ScanTurns(d: int, fast: bool, wrap: int)
    requires wrap >= 2 && wrap % 2 == 0
    requires d == MovingRight || d == MovingLeft
    ensures ScanSteps(Scan(0, d), fast, wrap, SweepLength(fast, wrap)) == Scan(0, 1 - d)
  {
    ScanSweeping(d, fast, wrap, SweepLength(fast, wrap) - 1);
  }

  /** The nine LEDs of the eye at a scan state. */
  function ScanFrame(s: Scan, w: seq<int>): (f: seq<int>)
    requires ValidScan(s, EyeWrap) && (w == DefaultWeights || w == SkinnyWeights)
    ensures |f| == NumLeds
  {
    Patterns.OrigFrame(s.position, s.direction == MovingRight, w)
  }

  /**
    No LED byte overflows: every LED is at most 75 and the nine together hold 15
    times the weight total, at most 120; the blend halves add up to 15 and the
    centre lies on the strip.
  */
  lemma ScanFrameBounds(s: Scan, w: seq<int>)
    requires ValidScan(s, EyeWrap) && (w == DefaultWeights || w == SkinnyWeights)
    ensures forall i :: 0 <= i < NumLeds ==> 0 <= ScanFrame(s, w)[i] <= 75
    ensures Sum(ScanFrame(s, w)) == 15 * (w[0] + w[1] + w[2] + w[3]) <= 120
    ensures var b := Split(s.position, s.direction == MovingRight);
      b.r + b.m == 15 && 0 <= b.center <= MaxLedIndex
  {
  }

  /** Skinny eye at boot: jumper 1 sets it, the button held at power-on inverts it. */
  function BootWeights(opt1Shorted: bool, buttonPressed: bool): (w: seq<int>)
    ensures w == DefaultWeights || w == SkinnyWeights
    ensures w == SkinnyWeights <==> opt1Shorted != buttonPressed
  {
    if opt1Shorted != buttonPressed then SkinnyWeights else DefaultWeights
  }

  // ---------------------------------------------------------------------------
  // One active pass

  /** Everything the control half of a pass touches: the settings, the button, the write pacer and the stored byte. */
  datatype Control = Control(settings: Settings, press: Press, pacer: Controls.Pacer, eeprom: bv8)

  predicate ValidControl(c: Control)
  {
    ValidSettings(c.settings) && ValidPress(c.press) && Controls.ValidPacer(c.pacer)
  }

  /** Nothing is lost: unless a write is pending, the stored byte decodes to the settings in force. */
  predicate Persisted(c: Control)
  {
    c.pacer.dirty || BootSettings(c.eeprom) == c.settings
  }

  /**
    The control half of an active pass: the paced write (of the settings as they
    were before the button ran), then the button, whose every settings change marks
    a write pending.
  */
  function ControlStep(c: Control, pressed: bool): (n: Control)
    requires ValidControl(c)
    ensures ValidControl(n)
    ensures n.press == PressStep(c.press, pressed).next
    ensures n.settings != c.settings ==> n.pacer.dirty
    ensures n.eeprom != c.eeprom ==> n.eeprom == ConfigByte(c.settings)
  {
    var paced := Controls.PaceStep(c.pacer);
    var o := PressStep(c.press, pressed);
    Control(ApplyPress(c.settings, o), o.next,
      Controls.Pacer(paced.next.cycle, paced.next.dirty || o.toggle || o.advance),
      if paced.write then ConfigByte(c.settings) else c.eeprom)
  }

  /** Every pass keeps the stored byte in step with the settings, or leaves a write pending. */
  lemma ControlStepPersists(c: Control, pressed: bool)
    requires ValidControl(c) && Persisted(c)
    ensures Persisted(ControlStep(c, pressed))
  {
    var paced := Controls.PaceStep(c.pacer);
    if paced.write {
      ConfigRoundTrip(c.settings);
    }
  }

  /** The moving part of the state: the robot prescaler, the position and the eye's direction. */
  datatype Motion = Motion(prescale: int, position: int, direction: int)

  predicate ValidMotion(robot: bool, m: Motion)
  {
    if robot then ValidRobot(Robot(m.prescale, m.position)) else ValidScan(Scan(m.position, m.direction), EyeWrap)
  }

  /** One step of the chase (the direction untouched) or of the eye (the prescaler untouched). */
  function MoveStep(robot: bool, m: Motion, fast: bool): (n: Motion)
    requires ValidMotion(robot, m)
    ensures ValidMotion(robot, n)
    ensures robot ==> Robot(n.prescale, n.position) == RobotStep(Robot(m.prescale, m.position), fast) && n.direction == m.direction
    ensures !robot ==> Scan(n.position, n.direction) == ScanStep(Scan(m.position, m.direction), fast, EyeWrap) && n.prescale == m.prescale
  {
    if robot then
      var r := RobotStep(Robot(m.prescale, m.position), fast);
      Motion(r.prescale, r.position, m.direction)
    else
      var e := ScanStep(Scan(m.position, m.direction), fast, EyeWrap);
      Motion(m.prescale, e.position, e.direction)
  }

  /** The nine LEDs the pass leaves: the chase's one LED or the eye; none above 75. */
  function MotionFrame(robot: bool, m: Motion, w: seq<int>): (f: seq<int>)
    requires ValidMotion(robot, m) && (w == DefaultWeights || w == SkinnyWeights)
    ensures |f| == NumLeds
    ensures forall i :: 0 <= i < NumLeds ==> 0 <= f[i] <= 75
  {
    if robot then
      RobotOneLed(m.position);
      RobotFrame(m.position)
    else
      ScanFrameBounds(Scan(m.position, m.direction), w);
      ScanFrame(Scan(m.position, m.direction), w)
  }

  // ---------------------------------------------------------------------------
  // In-place versions

  /** The nine robot-mode LED assignments, LED 8 first. */
  method ShowRobot(leds: array<int>, position: int)
    requires leds.Length == NumLeds
    modifies leds
    ensures leds[..] == RobotFrame(position)
  {
    var half := position / 2;
    leds[8] := if half == 0 then RobotLevel else 0;
    leds[7] := if half == 1 then RobotLevel else 0;
    leds[6] := if half == 2 then RobotLevel else 0;
    leds[5] := if half == 3 then RobotLevel else 0;
    leds[4] := if half == 4 then RobotLevel else 0;
    leds[3] := if half == 5 then RobotLevel else 0;
    leds[2] := if half == 6 then RobotLevel else 0;
    leds[1] := if half == 7 then RobotLevel else 0;
    leds[0] := if half == 8 then RobotLevel else 0;
    assert leds[..] == RobotFrame(position);
  }

  /** Copies the computed LEDs[] into LED0..LED8. */
  method CopyLeds(leds: array<int>, frame: array<int>)
    requires leds.Length == NumLeds && frame.Length == NumLeds && leds != frame
    modifies leds
    ensures leds[..] == frame[..]
  {
    var j := 0;
    while j < NumLeds
      invariant 0 <= j <= NumLeds
      invariant forall t :: 0 <= t < j ==> leds[t] == frame[t]
    {
      leds[j] := frame[j];
      j := j + 1;
    }
  }

  class Scanner {
    /** Chosen at power-on: the robot chase (jumper 2) and the eye weights. */
    const robotMode: bool
    const weights: seq<int>
    /** LED0..LED8, the values the output loops show. */
    const leds: array<int>
    var position: int
    var direction: int
    var prescale: int
    var loopcount: int
    var speedLevel: int
    var delaytime: int
    var brightMode: bool
    var updateConfig: bool
    var cycleCountLow: int
    var debounce: bool
    var debounce2: int
    var modeSwitched: bool
    /** The settings byte held in EEPROM. */
    var eeprom: bv8

    function SettingsState(): Settings
      reads this`speedLevel, this`delaytime, this`brightMode
    {
      Settings(speedLevel, delaytime, brightMode)
    }

    function PressState(): Press
      reads this`debounce, this`debounce2, this`modeSwitched
    {
      Press(debounce, debounce2, modeSwitched)
    }

    function PacerState(): Controls.Pacer
      reads this`cycleCountLow, this`updateConfig
    {
      Controls.Pacer(cycleCountLow, updateConfig)
    }

    function ControlState(): Control
      reads this`speedLevel, this`delaytime, this`brightMode, this`debounce, this`debounce2,
        this`modeSwitched, this`cycleCountLow, this`updateConfig, this`eeprom
    {
      Control(SettingsState(), PressState(), PacerState(), eeprom)
    }

    function RobotState(): Robot
      reads this`prescale, this`position
    {
      Robot(prescale, position)
    }

    function ScanState(): Scan
      reads this`position, this`direction
    {
      Scan(position, direction)
    }

    function MotionState(): Motion
      reads this`prescale, this`position, this`direction
    {
      Motion(prescale, position, direction)
    }

    /**
      Every counter in range, the LEDs at most 75, the position valid for the mode
      chosen at boot, and the stored byte in step with the settings unless a write
      is pending.
    */
    predicate Valid()
      reads this, leds
    {
      LedsValid() && ControlValid() && MotionValid() && 0 <= loopcount < 256 &&
      (weights == DefaultWeights || weights == SkinnyWeights)
    }

    predicate LedsValid()
      reads leds
    {
      leds.Length == NumLeds && forall i :: 0 <= i < NumLeds ==> 0 <= leds[i] <= 75
    }

    predicate ControlValid()
      reads this`speedLevel, this`delaytime, this`brightMode, this`debounce, this`debounce2,
        this`modeSwitched, this`cycleCountLow, this`updateConfig, this`eeprom
    {
      ValidControl(ControlState()) && Persisted(ControlState())
    }

    predicate MotionValid()
      reads this`prescale, this`position, this`direction
    {
      ValidMotion(robotMode, MotionState())
    }

    /**
      Power-on: the counters zeroed (the loop counter at 254, so the first pass is
      active), the weights and robot mode from the jumpers and the button, and the
      settings decoded from the stored byte.
    */
    constructor (opt1Shorted: bool, opt2Shorted: bool, buttonPressed: bool, stored: bv8)
      ensures Valid() && fresh(leds)
      ensures leds[..] == Dark
      ensures robotMode == opt2Shorted && weights == BootWeights(opt1Shorted, buttonPressed)
      ensures ControlState() == Control(BootSettings(stored), Idle, Controls.Pacer(0, false), stored)
      ensures MotionState() == Motion(0, 0, MovingRight) && loopcount == 254
    {
      var skinny := false;
      if opt1Shorted {
        skinny := true;
      }
      if buttonPressed {
        skinny := !skinny;
      }
      robotMode := opt2Shorted;
      weights := if skinny then SkinnyWeights else DefaultWeights;
      leds := new int[NumLeds](i => 0);
      debounce := false;
      debounce2 := 0;
      loopcount := 254;
      direction := MovingRight;
      position := 0;
      prescale := 0;
      cycleCountLow := 0;
      updateConfig := false;
      modeSwitched := false;
      eeprom := stored;
      // decode the settings byte
      var level := (stored >> 4) as int;
      var bright := stored & 1 == 1;
      if stored == Controls.Unprogrammed {
        bright := false;
      }
      if level > MaxSpeed {
        level := MinSpeed;
      }
      if level == 2 || level == 3 {
        delaytime := 0;
      } else {
        level := MinSpeed;
        delaytime := 1;
      }
      speedLevel := level;
      brightMode := bright;
    }

    /** The paced settings write at the head of an active pass. */
    method PaceConfig()
      requires ValidSettings(SettingsState()) && Controls.ValidPacer(PacerState())
      modifies this`cycleCountLow, this`updateConfig, this`eeprom
      ensures PacerState() == Controls.PaceStep(old(PacerState())).next
      ensures eeprom == if Controls.PaceStep(old(PacerState())).write then ConfigByte(SettingsState()) else old(eeprom)
    {
      cycleCountLow := cycleCountLow + 1;
      if cycleCountLow > Controls.CycleCeiling {
        cycleCountLow := 0;
      }
      if updateConfig {
        if cycleCountLow > Controls.Cooldown {
          updateConfig := false;
          var high: bv8 := (speedLevel as bv8) << 4;
          eeprom := high | (if brightMode then 1 else 0);
          assert eeprom == ConfigByte(SettingsState());
        }
      }
    }

    /** The button part of an active pass. */
    method UpdateButton(pressed: bool)
      requires ValidSettings(SettingsState()) && ValidPress(PressState())
      modifies this`debounce, this`debounce2, this`modeSwitched, this`updateConfig,
        this`speedLevel, this`delaytime, this`brightMode
      ensures var o := PressStep(old(PressState()), pressed);
        PressState() == o.next &&
        SettingsState() == ApplyPress(old(SettingsState()), o) &&
        updateConfig == (old(updateConfig) || o.toggle || o.advance)
    {
      if pressed {
        debounce2 := Controls.Inc8(debounce2);
        if debounce2 > LongPressCount {
          if !modeSwitched {
            debounce2 := 0;
            updateConfig := true;
            brightMode := !brightMode;
            modeSwitched := true;
          }
        } else {
          debounce := true;
          debounce2 := Controls.Inc8(debounce2);
        }
      } else {
        debounce2 := 0;
        modeSwitched := false;
        if debounce {
          debounce := false;
          speedLevel := speedLevel + 1;
          updateConfig := true;
          if speedLevel == 2 || speedLevel == 3 {
            delaytime := 0;
          } else {
            speedLevel := MinSpeed;
            delaytime := 1;
          }
        }
      }
    }

    /** The control half of an active pass: the paced write, then the button. */
    method RunControls(pressed: bool)
      requires ControlValid()
      modifies this`cycleCountLow, this`updateConfig, this`eeprom, this`debounce, this`debounce2,
        this`modeSwitched, this`speedLevel, this`delaytime, this`brightMode
      ensures ControlValid()
      ensures ControlState() == ControlStep(old(ControlState()), pressed)
    {
      ControlStepPersists(ControlState(), pressed);
      PaceConfig();
      UpdateButton(pressed);
    }

    /** The robot chase part of an active pass. */
    method StepRobot()
      requires robotMode && ValidRobot(RobotState()) && leds.Length == NumLeds
      modifies this`prescale, this`position, leds
      ensures RobotState() == RobotStep(old(RobotState()), speedLevel == FastSpeed)
      ensures leds[..] == RobotFrame(position)
    {
      prescale := prescale + 1;
      if speedLevel == FastSpeed {
        prescale := prescale + 1;
      }
      if prescale >= RobotPrescale {
        position := position + 1;
        prescale := 0;
      }
      if position > RobotLastPosition {
        position := 0;
      }
      ShowRobot(leds, position);
    }

    /** The eye part of an active pass: move, then rebuild LEDs[] and copy it out. */
    method StepEye()
      requires !robotMode && ValidScan(ScanState(), EyeWrap) && leds.Length == NumLeds
      requires weights == DefaultWeights || weights == SkinnyWeights
      modifies this`position, this`direction, leds
      ensures ScanState() == ScanStep(old(ScanState()), speedLevel == FastSpeed, EyeWrap)
      ensures leds[..] == ScanFrame(ScanState(), weights)
    {
      position := position + 1;
      if speedLevel == FastSpeed {
        position := position + 1;
      }
      if position >= EyeWrap {
        position := 0;
        direction := if direction == MovingRight then MovingLeft else MovingRight;
      }
      var frame := Patterns.OrigEye(position, direction == MovingRight, weights);
      CopyLeds(leds, frame);
    }

    /** The chase or the eye, whichever was chosen at power-on. */
    method Move()
      requires MotionValid() && leds.Length == NumLeds
      requires weights == DefaultWeights || weights == SkinnyWeights
      modifies this`prescale, this`position, this`direction, leds
      ensures MotionValid() && LedsValid()
      ensures MotionState() == MoveStep(robotMode, old(MotionState()), speedLevel == FastSpeed)
      ensures leds[..] == MotionFrame(robotMode, MotionState(), weights)
    {
      if robotMode {
        StepRobot();
      } else {
        StepEye();
      }
    }

    /** The work of an active pass: the control half, then the chase or the eye at the speed the button left. */
    method Active(pressed: bool)
      requires LedsValid() && ControlValid() && MotionValid()
      requires weights == DefaultWeights || weights == SkinnyWeights
      modifies this`cycleCountLow, this`updateConfig, this`eeprom, this`debounce, this`debounce2,
        this`modeSwitched, this`speedLevel, this`delaytime, this`brightMode,
        this`prescale, this`position, this`direction, leds
      ensures LedsValid() && ControlValid() && MotionValid()
      ensures ControlState() == ControlStep(old(ControlState()), pressed)
      ensures MotionState() == MoveStep(robotMode, old(MotionState()), speedLevel == FastSpeed)
      ensures leds[..] == MotionFrame(robotMode, MotionState(), weights)
    {
      ghost var motion := MotionState();
      RunControls(pressed);
      assert MotionState() == motion;
      ghost var c := ControlState();
      Move();
      assert ControlState() == c;
    }

    /**
      One pass of the main loop: the loop gate, and on an active pass the control
      half and then the chase or the eye, at the speed the button left.  An idle pass
      changes nothing but the loop counter.
    */
    method Pass(pressed: bool)
      requires Valid()
      modifies this`loopcount, this`cycleCountLow, this`updateConfig, this`eeprom, this`debounce,
        this`debounce2, this`modeSwitched, this`speedLevel, this`delaytime, this`brightMode,
        this`prescale, this`position, this`direction, leds
      ensures Valid()
      ensures loopcount == Gate(old(loopcount), old(delaytime)).0
      ensures ControlState() ==
        if Gate(old(loopcount), old(delaytime)).1 then ControlStep(old(ControlState()), pressed)
        else old(ControlState())
      ensures MotionState() ==
        if Gate(old(loopcount), old(delaytime)).1 then MoveStep(robotMode, old(MotionState()), speedLevel == FastSpeed)
        else old(MotionState())
      ensures leds[..] ==
        if Gate(old(loopcount), old(delaytime)).1 then MotionFrame(robotMode, MotionState(), weights)
        else old(leds[..])
    {
      loopcount := Controls.Inc8(loopcount);
      if loopcount > delaytime {
        loopcount := 0;
        Active(pressed);
      }
    }
  }
}
