/**
  The display modes of the restructured firmware (larson_jm.c) as frame functions:
  each gives the nine LED brightness values a mode writes for one pass.  The Scanner
  class in larson_jm.dfy fills its buffer with loops proved against these.
*/
module Patterns {
  import opened Eye
  import Controls

  const MediumHighBrightness := 70
  const MediumBrightness := 50
  const LowBrightness := 15
  const IntensityDelta := 10
  const KnightRiderDelta := 5
  /** Top of the original eye's fine position: its own cursor runs over 1..127, the v1.4 eye over 0..127. */
  const PositionLimitOld := 127
  const MiddleLed := 4
  /** The glow mode only advances while the shared cursor is below this. */
  const GlowSlowLimit := 6

  function Abs(x: int): int
  {
    if x < 0 then -x else x
  }

  // ---------------------------------------------------------------------------
  // Mode 0: the original eye (update_led_brightness_larson_orig)

  /** Stride of the original eye per pass: 25, plus 10 at speed 3, plus 5 at any other speed but 1. */
  function OrigStride(speed: int): (d: int)
    ensures 25 <= d <= 35
    ensures d == 25 <==> speed == Controls.MinSpeed
    ensures d == 35 <==> speed == Controls.MaxSpeed
    ensures speed != Controls.MinSpeed && speed != Controls.MaxSpeed ==> d == 30
  {
    25 + (if speed == Controls.MaxSpeed then 10 else if speed == Controls.MinSpeed then 0 else 5)
  }

  /** The original eye's own cursor: it strides through 1..127 and restarts at 1, reversed, once past 127. */
  function OrigAdvance(c: Controls.Cursor, speed: int): (n: Controls.Cursor)
    requires 1 <= c.position <= PositionLimitOld && Controls.IsDirection(c.direction)
    ensures 1 <= n.position <= PositionLimitOld && Controls.IsDirection(n.direction)
    ensures n.direction != c.direction <==> c.position + OrigStride(speed) > PositionLimitOld
    ensures n.direction == c.direction ==> n.position == c.position + OrigStride(speed)
    ensures n.direction != c.direction ==> n.direction == -c.direction && n.position == 1
  {
    var p := c.position + OrigStride(speed);
    if p > PositionLimitOld then Controls.Cursor(1, -c.direction) else Controls.Cursor(p, c.direction)
  }

  /** At the slowest speed a sweep takes six passes: 1, 26, 51, 76, 101, 126, then back to 1 reversed. */
  lemma SlowestSweep(d: int)
    requires Controls.IsDirection(d)
    ensures OrigAdvance(Controls.Cursor(1, d), Controls.MinSpeed) == Controls.Cursor(26, d)
    ensures OrigAdvance(Controls.Cursor(101, d), Controls.MinSpeed) == Controls.Cursor(126, d)
    ensures OrigAdvance(Controls.Cursor(126, d), Controls.MinSpeed) == Controls.Cursor(1, -d)
  {
  }

  /** The eye frame of mode 0 at position p of the original cursor. */
  function OrigFrame(p: int, right: bool, w: seq<int>): (f: seq<int>)
    requires 0 <= p <= PositionLimitOld && (w == DefaultWeights || w == SkinnyWeights)
    ensures |f| == NumLeds
    ensures forall i :: 0 <= i < NumLeds ==> 0 <= f[i] <= 75
    ensures Sum(f) == 15 * (w[0] + w[1] + w[2] + w[3])
  {
    var b := Split(p, right);
    EyeFrameBounds(b.center, right, w, b.r, b.m);
    EyeFrame(b.center, right, w, b.r, b.m)
  }

  /** The centre LED and the nibble blend of the original eye at fine position p, computed as the firmware computes them. */
  method OrigBlend(p: int, right: bool) returns (center: int, r: int, m: int)
    requires 0 <= p <= PositionLimitOld
    ensures Blend(center, r, m) == Split(p, right)
  {
    if right {
      center := (0x0F + p) / 16;
      r := (0x0F + p) - center * 16;
      m := 0xF - r;
    } else {
      center := (PositionLimitOld - p) / 16;
      m := (PositionLimitOld - p) - center * 16;
      r := 0xF - m;
    }
  }

  /** The eye of mode 0 at fine position p, built in a fresh buffer as the firmware builds it. */
  method OrigEye(p: int, right: bool, w: seq<int>) returns (frame: array<int>)
    requires 0 <= p <= PositionLimitOld && (w == DefaultWeights || w == SkinnyWeights)
    ensures fresh(frame)
    ensures frame[..] == OrigFrame(p, right, w)
  {
    var center, r, m := OrigBlend(p, right);
    frame := new int[NumLeds];
    ClearLeds(frame);
    var onLed := new int[NumSlots];
    FillFoldedSlots(onLed, center, right);
    AddEye(frame, onLed, w, r, false);
  }

  /** Bounds of a whole eye frame: every LED in 0..75, the total fixed by the weights. */
  lemma EyeFrameBounds(c: int, right: bool, w: seq<int>, r: int, m: int)
    requires 0 <= c <= MaxLedIndex && 0 <= r <= 15 && m == 15 - r
    requires w == DefaultWeights || w == SkinnyWeights
    ensures forall i :: 0 <= i < NumLeds ==> 0 <= EyeFrame(c, right, w, r, m)[i] <= 75
    ensures Sum(EyeFrame(c, right, w, r, m)) == 15 * (w[0] + w[1] + w[2] + w[3])
  {
    var f := EyeFrame(c, right, w, r, m);
    EyeFrameTotal(c, right, w, r);
    forall i | 0 <= i < NumLeds
      ensures 0 <= f[i] <= 75
    {
      ElementAtMostSum(f, i);
      EyeFrameAtMost75(c, right, w, r, i);
    }
  }

  /**
    With either weight set the folded eye never drives an LED above 75, even where
    folding stacks two slots on one LED: the firmware's brightness bytes stay well
    inside the PWM range of 0..100.
  */
  lemma EyeFrameAtMost75(c: int, right: bool, w: seq<int>, r: int, i: int)
    requires 0 <= c <= MaxLedIndex && 0 <= r <= 15 && OnStrip(i)
    requires w == DefaultWeights || w == SkinnyWeights
    ensures EyeFrame(c, right, w, r, 15 - r)[i] <= 75
  {
    var slots := FoldedSlots(c, right);
    var m := 15 - r;
    DepositIsShare(slots, w, r, m, NumWeights, i);
    ShareExpanded(slots, w, r, m, i);
    SlotsApart(c, right);
    SharesAtMost75(slots, w, r, m, i);
  }

  /** The eight shares that can land on one LED, when the slots are spread as folding spreads them. */
  lemma SharesAtMost75(s: seq<int>, w: seq<int>, r: int, m: int, i: int)
    requires |s| == NumSlots && 0 <= r <= 15 && m == 15 - r
    requires w == DefaultWeights || w == SkinnyWeights
    requires s[0] != s[1] && s[1] != s[2] && s[2] != s[3] && s[3] != s[4] &&
      s[0] != s[3] && s[1] != s[4] && (s[0] != s[2] || s[2] != s[4])
    ensures (if s[0] == i then w[0] * r else 0) + (if s[1] == i then w[0] * m else 0) +
      (if s[1] == i then w[1] * r else 0) + (if s[2] == i then w[1] * m else 0) +
      (if s[2] == i then w[2] * r else 0) + (if s[3] == i then w[2] * m else 0) +
      (if s[3] == i then w[3] * r else 0) + (if s[4] == i then w[3] * m else 0) <= 75
  {
    var w0, w1, w2, w3 := w[0], w[1], w[2], w[3];
    assert w0 <= 1 && w1 == 4 && 1 <= w2 <= 2 && w3 <= 1 && 0 <= w0 && 0 <= w3;
    var a0, a1, a2, a3, a4 := s[0] == i, s[1] == i, s[2] == i, s[3] == i, s[4] == i;
    assert !(a0 && a1) && !(a1 && a2) && !(a2 && a3) && !(a3 && a4) && !(a0 && a3) && !(a1 && a4) && !(a0 && a2 && a4);
  }

  /** Folding never stacks neighbouring slots, nor slots three apart, nor three slots on one LED. */
  lemma SlotsApart(c: int, right: bool)
    requires 0 <= c <= MaxLedIndex
    ensures var s := FoldedSlots(c, right);
      s[0] != s[1] && s[1] != s[2] && s[2] != s[3] && s[3] != s[4] &&
      s[0] != s[3] && s[1] != s[4] && (s[0] != s[2] || s[2] != s[4])
  {
    var s := FoldedSlots(c, right);
    assert s[0] == FoldedSlot(c, right, 0);
    assert s[1] == FoldedSlot(c, right, 1);
    assert s[2] == FoldedSlot(c, right, 2);
    assert s[3] == FoldedSlot(c, right, 3);
    assert s[4] == FoldedSlot(c, right, 4);
  }

  // ---------------------------------------------------------------------------
  // Mode 1: three-LED eye (update_led_brightness_larson2)

  /** Centre LED (position - 1) at 70, its neighbours on the strip at 15, everything else dark. */
  function Larson2Frame(position: int): (f: seq<int>)
    requires Controls.PositionInitial <= position <= Controls.PositionLimit
    ensures |f| == NumLeds
    ensures forall i :: 0 <= i < NumLeds ==> (f[i] != 0 <==> Abs(i - (position - 1)) <= 1)
    ensures forall i :: 0 <= i < NumLeds ==> 0 <= f[i] <= MediumHighBrightness
    ensures forall i :: 0 <= i < NumLeds ==> (f[i] == MediumHighBrightness <==> i == position - 1)
    ensures forall i :: 0 <= i < NumLeds && Abs(i - (position - 1)) == 1 ==> f[i] == LowBrightness
  {
    seq(NumLeds, i =>
      if i == position - 1 then MediumHighBrightness
      else if i == position - 2 || i == position then LowBrightness
      else 0)
  }

  // ---------------------------------------------------------------------------
  // Mode 2: KITT (update_led_brightness_knight_rider)

  /** Brightness k LEDs behind the centre: 15, 10, 5, then dark. */
  function Trail(k: int): int
  {
    if k <= 3 then LowBrightness - KnightRiderDelta * (k - 1) else 0
  }

  /** How many LEDs i lies behind the centre of c, counted against the direction of travel (negative: ahead). */
  function Behind(c: Controls.Cursor, i: int): int
  {
    if c.direction == Controls.MovingRight then c.position - 1 - i else i - (c.position - 1)
  }

  /**
    The KITT frame: the centre at 70, one LED ahead (in the direction of travel) at
    15, a trail of 15, 10, 5 behind, everything else dark.
  */
  function KnightRiderFrame(c: Controls.Cursor): (f: seq<int>)
    requires Controls.ValidCursor(c)
    ensures |f| == NumLeds
    ensures forall i :: 0 <= i < NumLeds ==> f[i] in {0, 5, 10, LowBrightness, MediumHighBrightness}
    ensures forall i :: 0 <= i < NumLeds ==> (f[i] == MediumHighBrightness <==> i == c.position - 1)
    ensures forall i :: 0 <= i < NumLeds ==> (f[i] != 0 <==> -1 <= Behind(c, i) <= 3)
    ensures forall i :: 0 <= i < NumLeds && Behind(c, i) == -1 ==> f[i] == LowBrightness
    ensures forall i :: 0 <= i < NumLeds && 1 <= Behind(c, i) <= 3 ==>
      f[i] == LowBrightness - KnightRiderDelta * (Behind(c, i) - 1)
    ensures forall i, j :: 0 <= i < NumLeds && 0 <= j < NumLeds && 0 <= Behind(c, i) < Behind(c, j) <= 3 ==> f[j] < f[i]
  {
    seq(NumLeds, i =>
      var behind := Behind(c, i);
      if behind == 0 then MediumHighBrightness
      else if behind == -1 then LowBrightness
      else if behind < -1 then 0
      else Trail(behind))
  }

  // ---------------------------------------------------------------------------
  // Modes 3 and 4: intensity bars (update_led_brightness_intensity_middle / _left)

  /** Bar from the left: LED i is lit at 50 exactly when the intensity exceeds 10 * (i + 1). */
  function BarFrame(x: int): (f: seq<int>)
    ensures |f| == NumLeds
    ensures forall i :: 0 <= i < NumLeds ==> (f[i] == MediumBrightness <==> i < (x - 1) / IntensityDelta)
    ensures forall i :: 0 <= i < NumLeds ==> (f[i] == 0 <==> i >= (x - 1) / IntensityDelta)
  {
    seq(NumLeds, i => if x > IntensityDelta * (i + 1) then MediumBrightness else 0)
  }

  /** Bar from the middle: LED j is lit when the intensity exceeds 10 * (distance to LED 4 + 1). */
  function MiddleFrame(x: int): (f: seq<int>)
    ensures |f| == NumLeds
    ensures forall j :: 0 <= j < NumLeds ==> (f[j] == MediumBrightness <==> Abs(j - MiddleLed) < (x - 1) / IntensityDelta)
    ensures forall j :: 0 <= j < NumLeds ==> (f[j] == 0 <==> Abs(j - MiddleLed) >= (x - 1) / IntensityDelta)
    ensures forall j :: 0 <= j < NumLeds ==> f[j] == f[MaxLedIndex - j]
  {
    seq(NumLeds, j => if x > IntensityDelta * (Abs(j - MiddleLed) + 1) then MediumBrightness else 0)
  }

  /** The intensity the main loop passes for cursor p. */
  function IntensityOf(p: int): int
  {
    p * 11 - 5
  }

  /**
    The bar lengths the main loop shows: the left bar has p - 1 LEDs lit up to
    position 5 and p LEDs from position 6 on (a length of 5 never appears), so
    position 1 shows nothing and position 9 the full strip.
  */
  lemma BarLengths(p: int)
    requires Controls.PositionInitial <= p <= Controls.PositionLimit
    ensures 0 <= IntensityOf(p) < 256
    ensures (IntensityOf(p) - 1) / IntensityDelta == if p <= 5 then p - 1 else p
    ensures p == Controls.PositionInitial ==> BarFrame(IntensityOf(p)) == Dark
    ensures p == Controls.PositionLimit ==> forall i :: 0 <= i < NumLeds ==> BarFrame(IntensityOf(p))[i] == MediumBrightness
  {
  }

  // ---------------------------------------------------------------------------
  // Mode 5: glow (update_led_brightness_glow_left)

  /** The LED buffer with everything right of LED c dark. */
  function ZeroAbove(s: seq<int>, c: int): (t: seq<int>)
    requires |s| == NumLeds
    ensures |t| == NumLeds
  {
    seq(NumLeds, i requires 0 <= i < NumLeds => if i > c then 0 else s[i])
  }

  predicate Bytes(s: seq<int>)
  {
    forall i :: 0 <= i < |s| ==> 0 <= s[i] < 256
  }

  datatype Glow = Glow(leds: seq<int>, current: int)

  /**
    One slow glow step: the current LED brightens by one (a byte increment); once it
    reaches 50 the next LED becomes current, and past LED 8 the glow restarts dark
    from LED 0.  Every LED right of the current one is dark afterwards, while the
    newly current LED keeps whatever it held.
  */
  function GlowStep(leds: seq<int>, current: int): (g: Glow)
    requires |leds| == NumLeds && Bytes(leds) && 0 <= current <= MaxLedIndex
    ensures |g.leds| == NumLeds && Bytes(g.leds) && 0 <= g.current <= MaxLedIndex
    ensures Controls.Inc8(leds[current]) < MediumBrightness ==>
      g.current == current && g.leds[current] == Controls.Inc8(leds[current])
    ensures Controls.Inc8(leds[current]) >= MediumBrightness && current < MaxLedIndex ==>
      g.current == current + 1 && g.leds[current] == Controls.Inc8(leds[current]) && g.leds[current + 1] == leds[current + 1]
    ensures Controls.Inc8(leds[current]) >= MediumBrightness && current == MaxLedIndex ==>
      g.current == 0 && g.leds == Dark
    ensures forall i :: g.current < i < NumLeds ==> g.leds[i] == 0
    ensures g.current != 0 ==> forall i :: 0 <= i < current ==> g.leds[i] == leds[i]
  {
    var bumped := leds[current := Controls.Inc8(leds[current])];
    if bumped[current] >= MediumBrightness then
      if current + 1 > MaxLedIndex then Glow(ZeroAbove(bumped[0 := 0], 0), 0)
      else Glow(ZeroAbove(bumped, current + 1), current + 1)
    else Glow(ZeroAbove(bumped, current), current)
  }

  /** The glow after n steps. */
  function Glows(g: Glow, n: nat): (r: Glow)
    requires |g.leds| == NumLeds && Bytes(g.leds) && 0 <= g.current <= MaxLedIndex
    ensures |r.leds| == NumLeds && Bytes(r.leds) && 0 <= r.current <= MaxLedIndex
  {
    if n == 0 then g
    else
      var p := Glows(g, n - 1);
      GlowStep(p.leds, p.current)
  }

  /** While the current LED stays below 50 it brightens one step at a time and nothing else changes. */
  lemma {:induction false} GlowRise(leds: seq<int>, c: int, n: nat)
    requires |leds| == NumLeds && Bytes(leds) && 0 <= c <= MaxLedIndex
    requires forall i :: c < i < NumLeds ==> leds[i] == 0
    requires leds[c] + n < MediumBrightness
    ensures Glows(Glow(leds, c), n) == Glow(leds[c := leds[c] + n], c)
  {
    if n > 0 {
      GlowRise(leds, c, n - 1);
      var p := leds[c := leds[c] + (n - 1)];
      assert GlowStep(p, c).leds == leds[c := leds[c] + n];
    }
  }

  /**
    Each LED takes 50 steps: from a dark LED c with the strip right of it dark, 49
    steps bring it to 49 and the 50th leaves it at 50 and makes LED c + 1 current.
  */
  lemma GlowHandOver(leds: seq<int>, c: int)
    requires |leds| == NumLeds && Bytes(leds) && 0 <= c < MaxLedIndex
    requires leds[c] == 0 && forall i :: c < i < NumLeds ==> leds[i] == 0
    ensures Glows(Glow(leds, c), 49) == Glow(leds[c := 49], c)
    ensures Glows(Glow(leds, c), 50) == Glow(leds[c := 50], c + 1)
  {
    GlowRise(leds, c, 49);
    var bumped := leds[c := 50];
    assert leds[c := 49][c := Controls.Inc8(49)] == bumped;
    assert ZeroAbove(bumped, c + 1) == bumped;
    assert GlowStep(leds[c := 49], c) == Glow(bumped, c + 1);
  }
}
