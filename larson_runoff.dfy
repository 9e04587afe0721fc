/**
  The run-off firmware (larsonrunoff.c): a skinny eye that runs off both ends of
  the strip instead of folding back.  The position runs over 0..207, so near the
  ends the eye's centre lies beyond the strip (below 0 when moving left past
  position 127), and every slot off the strip is marked -1 and skipped.  The
  button advances the speed on the first pressed pass and toggles BrightMode
  every 101 passes while held.  The loop gate and the speed normalisation are
  those of the v1.4 firmware.
*/
module Runoff {
  import opened Eye
  import Controls
  import Larson14

  /** The position wraps to 0 (and the direction flips) on reaching this. */
  const RunoffWrap := 208
  /** A pressed pass whose count exceeds this toggles BrightMode. */
  const LongPressCount := 100
  /** Pressed passes between two toggles while the button stays down. */
  const TogglePeriod := 101
  /** The speed level at power-on. */
  const BootSpeedLevel := 2

  // ---------------------------------------------------------------------------
  // The button

  /** `debounce` arms the speed change, `held` is the pressed-pass counter (debounce2). */
  datatype Button = Button(debounce: bool, held: int)

  /** At power-on and after every release: armed, the counter at 1. */
  const Ready := Button(true, 1)

  /** The counter stays in 0..100, and an armed button always reads 1 (it was just released or just booted). */
  predicate ValidButton(b: Button)
  {
    0 <= b.held <= LongPressCount && (b.debounce ==> b.held == 1)
  }

  datatype ButtonOutcome = ButtonOutcome(next: Button, toggle: bool, advance: bool)

  /**
    One active pass.  Pressed: the counter goes up, and past 100 it restarts at 0
    and toggles BrightMode; an armed button advances the speed and disarms.
    Released: back to the ready state.
  */
  function ButtonStep(b: Button, pressed: bool): (o: ButtonOutcome)
    requires ValidButton(b)
    ensures ValidButton(o.next)
    ensures !pressed ==> o == ButtonOutcome(Ready, false, false)
    ensures pressed ==> (o.advance <==> b.debounce) && !o.next.debounce
    ensures o.toggle <==> pressed && b.held == LongPressCount
    ensures !(o.toggle && o.advance)
  {
    if pressed then
      var h := b.held + 1;
      if h > LongPressCount then ButtonOutcome(Button(false, 0), true, b.debounce)
      else ButtonOutcome(Button(false, h), false, b.debounce)
    else
      ButtonOutcome(Ready, false, false)
  }

  /** The state after n pressed passes, with the toggles and the speed changes they made. */
  function Holding(b: Button, n: nat): (r: (Button, nat, nat))
    requires ValidButton(b)
    ensures ValidButton(r.0)
  {
    if n == 0 then (b, 0, 0)
    else
      var prev := Holding(b, n - 1);
      var o := ButtonStep(prev.0, true);
      (o.next, prev.1 + (if o.toggle then 1 else 0), prev.2 + (if o.advance then 1 else 0))
  }

  /**
    Holding the button from the ready state: after n passes the counter reads
    (n + 1) mod 101, BrightMode has toggled (n + 1) div 101 times (on passes 100,
    201, 302, ...), and the speed has changed exactly once, on the first pass.
  */
  lemma {:induction false} HoldFromReady(n: nat)
    ensures Holding(Ready, n) ==
      (Button(n == 0, (n + 1) % TogglePeriod), (n + 1) / TogglePeriod, if n >= 1 then 1 else 0)
  {
    if n > 0 {
      HoldFromReady(n - 1);
      var q, r := n / TogglePeriod, n % TogglePeriod;
      assert n == TogglePeriod * q + r && 0 <= r < TogglePeriod;
      if r == LongPressCount {
        assert n + 1 == TogglePeriod * (q + 1);
        assert (n + 1) % TogglePeriod == 0 && (n + 1) / TogglePeriod == q + 1;
      } else {
        assert n + 1 == TogglePeriod * q + (r + 1);
        assert (n + 1) % TogglePeriod == r + 1 && (n + 1) / TogglePeriod == q;
      }
    }
  }

  /** The pressed pass number k (counting from 1 after the ready state) toggles exactly when k + 1 is a multiple of 101. */
  lemma TogglePasses(k: nat)
    requires k >= 1
    ensures ButtonStep(Holding(Ready, k - 1).0, true).toggle <==> (k + 1) % TogglePeriod == 0
  {
    HoldFromReady(k - 1);
  }

  /** A press of any length followed by a release: one speed change if the press lasted a pass, and the button ready again. */
  lemma PressThenRelease(n: nat)
    ensures Holding(Ready, n).2 == if n >= 1 then 1 else 0
    ensures ButtonStep(Holding(Ready, n).0, false).next == Ready
  {
    HoldFromReady(n);
  }

  /** The settings after one active pass of the button. */
  function ApplyButton(s: Larson14.Settings, o: ButtonOutcome): (n: Larson14.Settings)
    requires Larson14.ValidSettings(s)
    ensures Larson14.ValidSettings(n)
    ensures o.toggle ==> n == s.(brightMode := !s.brightMode)
    ensures !o.toggle && o.advance ==> n == Larson14.NextSpeed(s)
    ensures !o.toggle && !o.advance ==> n == s
  {
    if o.toggle then s.(brightMode := !s.brightMode)
    else if o.advance then Larson14.NextSpeed(s)
    else s
  }

  /** From the power-on speed 2, presses give 3, then 1, then 2 again. */
  lemma BootSpeedOrder(b: bool)
    ensures var s := Larson14.SpeedSetting(BootSpeedLevel, b);
      Larson14.NextSpeed(s).speedLevel == 3 &&
      Larson14.NextSpeed(Larson14.NextSpeed(s)).speedLevel == 1 &&
      Larson14.NextSpeed(Larson14.NextSpeed(Larson14.NextSpeed(s))) == s
  {
    Larson14.SpeedCycle(Larson14.SpeedSetting(BootSpeedLevel, b));
  }

  // ---------------------------------------------------------------------------
  // Blend and slots in bytes

  /** A value stored into a signed byte: reduced into -128..127. */
  function Int8(x: int): (y: int)
    ensures -128 <= y < 128 && (x - y) % 256 == 0
    ensures -128 <= x < 128 ==> y == x
  {
    (x + 128) % 256 - 128
  }

  /** Near the ends the centre lies off the strip: moving left past 127 it is floor((127 - position) / 16), below 0. */
  lemma RunoffCentre(p: int, right: bool)
    requires 0 <= p < RunoffWrap
    ensures -5 <= Split(p, right).center <= 13
    ensures right ==> 0 <= Split(p, right).center
    ensures !right && p > 127 ==> Split(p, right).center == (127 - p) / 16 < 0
  {
  }

  /** ILED, RLED and MLED as the unsigned bytes the firmware keeps. */
  datatype Bytes = Bytes(iled: int, rled: int, mled: int)

  /**
    The firmware's byte arithmetic: the centre is stored in an unsigned byte
    (so a negative centre wraps to 251..255) and MLED is computed from that wrapped
    byte.  The wrap cancels: the bytes hold the centre modulo 256 and exactly the
    blend of the mathematical split, whose halves add up to 15.
  */
  function ByteBlend(p: int, right: bool): (b: Bytes)
    requires 0 <= p < RunoffWrap
    ensures var s := Split(p, right);
      b.iled == s.center % 256 && b.rled == s.r && b.mled == s.m && b.rled + b.mled == 15
  {
    RunoffCentre(p, right);
    if right then
      var i := ((15 + p) / 16) % 256;
      var r := ((15 + p) - i * 16) % 256;
      Bytes(i, r, (15 - r) % 256)
    else
      var c := (127 - p) / 16;
      var i := c % 256;
      assert i == if c < 0 then c + 256 else c;
      var m := ((127 - p) - i * 16) % 256;
      assert m == (127 - p) - c * 16;
      Bytes(i, (15 - m) % 256, m)
  }

  /** Slot j from the byte centre: offset into a signed byte, then -1 if off the strip. */
  function SlotByte(iled: int, right: bool, j: int): (m: int)
    ensures m == OffStrip || OnStrip(m)
  {
    var k := Int8(if right then iled - (j + 1) else iled + (j + 1));
    if k > MaxLedIndex then OffStrip else if k < 0 then OffStrip else k
  }

  /** The signed-byte wrap cancels the unsigned one: the byte slots are the run-off slots of the true centre. */
  lemma SlotByteAgrees(c: int, right: bool, j: int)
    requires -5 <= c <= 13 && 0 <= j < NumSlots
    ensures SlotByte(c % 256, right, j) == RunoffSlot(c, right, j)
  {
    var iled := c % 256;
    assert iled == if c < 0 then c + 256 else c;
    var x := if right then iled - (j + 1) else iled + (j + 1);
    var k := if right then c - (j + 1) else c + (j + 1);
    assert x == k || x == k + 256;
    assert Int8(x) == k;
  }

  /** The LEDs of the run-off eye at a scan state: the skinny weights deposited on the slots that are on the strip. */
  function RunoffEye(s: Larson14.Scan): (f: seq<int>)
    requires Larson14.ValidScan(s, RunoffWrap)
    ensures |f| == NumLeds
  {
    var b := Split(s.position, s.direction == Larson14.MovingRight);
    RunoffFrame(b.center, s.direction == Larson14.MovingRight, SkinnyWeights, b.r, b.m)
  }

  /** Nothing overflows: the nine LEDs together hold at most 15 * (0 + 4 + 1 + 0) = 75, so each is at most 75. */
  lemma RunoffEyeBounds(s: Larson14.Scan)
    requires Larson14.ValidScan(s, RunoffWrap)
    ensures 0 <= Sum(RunoffEye(s)) <= 75
    ensures forall i :: 0 <= i < NumLeds ==> 0 <= RunoffEye(s)[i] <= 75
  {
    var right := s.direction == Larson14.MovingRight;
    var b := Split(s.position, right);
    var f := RunoffEye(s);
    RunoffFrameTotal(b.center, right, SkinnyWeights, b.r);
    forall i | 0 <= i < NumLeds
      ensures 0 <= f[i] <= 75
    {
      ElementAtMostSum(f, i);
    }
  }

  // ---------------------------------------------------------------------------
  // In-place versions

  /** Fills eyeLoc[] from the byte centre as the firmware does; the result is the run-off slot list of the true centre c. */
  method FillSlots(loc: array<int>, iled: int, ghost c: int, right: bool)
    requires loc.Length == NumSlots && -5 <= c <= 13 && iled == c % 256
    modifies loc
    ensures loc[..] == RunoffSlots(c, right)
  {
    var j := 0;
    while j < NumSlots
      invariant 0 <= j <= NumSlots
      invariant forall t :: 0 <= t < j ==> loc[t] == RunoffSlot(c, right, t)
    {
      var m := if right then Int8(iled - (j + 1)) else Int8(iled + (j + 1));
      if m > MaxLedIndex {
        m := OffStrip;
      }
      if m < 0 {
        m := OffStrip;
      }
      SlotByteAgrees(c, right, j);
      loc[j] := m;
      j := j + 1;
    }
  }

  /** The eye of one pass, built in a fresh LEDs[] buffer: the byte blend, the slots, and the guarded deposits. */
  method BuildEye(position: int, right: bool) returns (frame: array<int>)
    requires 0 <= position < RunoffWrap
    ensures fresh(frame)
    ensures frame[..] == RunoffEye(Larson14.Scan(position, if right then Larson14.MovingRight else Larson14.MovingLeft))
  {
    var iled, rled, mled;
    if right {
      iled := ((15 + position) / 16) % 256;
      rled := ((15 + position) - iled * 16) % 256;
      mled := (15 - rled) % 256;
    } else {
      iled := ((127 - position) / 16) % 256;
      mled := ((127 - position) - iled * 16) % 256;
      rled := (15 - mled) % 256;
    }
    ghost var b := Split(position, right);
    assert Bytes(iled, rled, mled) == ByteBlend(position, right);
    RunoffCentre(position, right);
    frame := new int[NumLeds];
    ClearLeds(frame);
    var loc := new int[NumSlots];
    FillSlots(loc, iled, b.center, right);
    AddEye(frame, loc, SkinnyWeights, rled, true);
  }

  class Scanner {
    /** LED0..LED8, the values the output loops show. */
    const leds: array<int>
    var position: int
    var direction: int
    var loopcount: int
    var speedLevel: int
    var delaytime: int
    var brightMode: bool
    var debounce: bool
    var debounce2: int

    function SettingsState(): Larson14.Settings
      reads this`speedLevel, this`delaytime, this`brightMode
    {
      Larson14.Settings(speedLevel, delaytime, brightMode)
    }

    function ButtonState(): Button
      reads this`debounce, this`debounce2
    {
      Button(debounce, debounce2)
    }

    function ScanState(): Larson14.Scan
      reads this`position, this`direction
    {
      Larson14.Scan(position, direction)
    }

    /** Every counter in range and no LED above 75. */
    predicate Valid()
      reads this, leds
    {
      LedsValid() && Larson14.ValidSettings(SettingsState()) && ValidButton(ButtonState()) &&
      Larson14.ValidScan(ScanState(), RunoffWrap) && 0 <= loopcount < 256
    }

    predicate LedsValid()
      reads leds
    {
      leds.Length == NumLeds && forall i :: 0 <= i < NumLeds ==> 0 <= leds[i] <= 75
    }

    /** Power-on: speed 2, BrightMode off, the button armed, the eye at 0 moving right, the loop counter at 254. */
    constructor ()
      ensures Valid() && fresh(leds)
      ensures leds[..] == Dark
      ensures SettingsState() == Larson14.SpeedSetting(BootSpeedLevel, false)
      ensures ButtonState() == Ready
      ensures ScanState() == Larson14.Scan(0, Larson14.MovingRight) && loopcount == 254
    {
      leds := new int[NumLeds](i => 0);
      debounce := true;
      debounce2 := 1;
      loopcount := 254;
      delaytime := 0;
      direction := Larson14.MovingRight;
      position := 0;
      speedLevel := BootSpeedLevel;
      brightMode := false;
    }

    /** The button part of an active pass. */
    method UpdateButton(pressed: bool)
      requires Larson14.ValidSettings(SettingsState()) && ValidButton(ButtonState())
      modifies this`debounce, this`debounce2, this`speedLevel, this`delaytime, this`brightMode
      ensures var o := ButtonStep(old(ButtonState()), pressed);
        ButtonState() == o.next && SettingsState() == ApplyButton(old(SettingsState()), o)
    {
      if pressed {
        debounce2 := debounce2 + 1;
        if debounce2 > LongPressCount {
          debounce2 := 0;
          brightMode := !brightMode;
        }
        if debounce {
          speedLevel := speedLevel + 1;
          if speedLevel == 2 || speedLevel == 3 {
            delaytime := 0;
          } else {
            speedLevel := Larson14.MinSpeed;
            delaytime := 1;
          }
          debounce := false;
        }
      } else {
        debounce := true;
        debounce2 := 1;
      }
    }

    /** The position step of an active pass. */
    method UpdatePosition()
      requires Larson14.ValidScan(ScanState(), RunoffWrap)
      modifies this`position, this`direction
      ensures ScanState() == Larson14.ScanStep(old(ScanState()), speedLevel == Larson14.FastSpeed, RunoffWrap)
    {
      position := position + 1;
      if speedLevel == Larson14.FastSpeed {
        position := position + 1;
      }
      if position >= RunoffWrap {
        position := 0;
        direction := if direction == Larson14.MovingRight then Larson14.MovingLeft else Larson14.MovingRight;
      }
    }

    /** The work of an active pass: the button, the position at the speed it left, and the eye. */
    method Active(pressed: bool)
      requires LedsValid() && Larson14.ValidSettings(SettingsState()) && ValidButton(ButtonState())
      requires Larson14.ValidScan(ScanState(), RunoffWrap)
      modifies this`debounce, this`debounce2, this`speedLevel, this`delaytime, this`brightMode,
        this`position, this`direction, leds
      ensures LedsValid() && Larson14.ValidSettings(SettingsState()) && ValidButton(ButtonState())
      ensures Larson14.ValidScan(ScanState(), RunoffWrap)
      ensures var o := ButtonStep(old(ButtonState()), pressed);
        ButtonState() == o.next && SettingsState() == ApplyButton(old(SettingsState()), o)
      ensures ScanState() == Larson14.ScanStep(old(ScanState()), speedLevel == Larson14.FastSpeed, RunoffWrap)
      ensures leds[..] == RunoffEye(ScanState())
    {
      UpdateButton(pressed);
      ghost var settled := SettingsState();
      ghost var button := ButtonState();
      UpdatePosition();
      var frame := BuildEye(position, direction == Larson14.MovingRight);
      Larson14.CopyLeds(leds, frame);
      RunoffEyeBounds(ScanState());
      assert SettingsState() == settled && ButtonState() == button;
    }

    /** One pass of the main loop: the loop gate, then on an active pass the button, the position and the eye. */
    method Pass(pressed: bool)
      requires Valid()
      modifies this`loopcount, this`debounce, this`debounce2, this`speedLevel, this`delaytime,
        this`brightMode, this`position, this`direction, leds
      ensures Valid()
      ensures loopcount == Larson14.Gate(old(loopcount), old(delaytime)).0
      ensures !Larson14.Gate(old(loopcount), old(delaytime)).1 ==>
        SettingsState() == old(SettingsState()) && ButtonState() == old(ButtonState()) &&
        ScanState() == old(ScanState()) && leds[..] == old(leds[..])
      ensures Larson14.Gate(old(loopcount), old(delaytime)).1 ==>
        var o := ButtonStep(old(ButtonState()), pressed);
        ButtonState() == o.next && SettingsState() == ApplyButton(old(SettingsState()), o) &&
        ScanState() == Larson14.ScanStep(old(ScanState()), speedLevel == Larson14.FastSpeed, RunoffWrap) &&
        leds[..] == RunoffEye(ScanState())
    {
      loopcount := Controls.Inc8(loopcount);
      if loopcount > delaytime {
        loopcount := 0;
        Active(pressed);
      }
    }
  }
}
