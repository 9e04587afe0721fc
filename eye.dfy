/**
  The arithmetic of the scanning "eye": a fine position is split into a centre LED
  (top nibble) and a 0..15 blend (bottom nibble); five eye slots are placed around
  the centre; four relative weights are spread over neighbouring slots in proportion
  to the blend, and contributions that land on the same LED add up.

  The same arithmetic appears three times in the firmware: the original pattern of
  the restructured firmware (larson_jm.c), the v1.4 main loop (larson.c), and the
  "run off the edge" loop (larsonrunoff.c), which drops slots that leave the strip
  instead of folding them back.  The functions here are the reference definitions;
  the methods fill the firmware's arrays in place and are proved against them.
*/
module Eye {

  const NumLeds := 9
  const MaxLedIndex := 8
  const NumSlots := 5
  const NumWeights := 4
  /** A slot that has left the strip (run-off variant only). */
  const OffStrip := -1

  /** The LED buffer with every LED off. */
  const Dark: seq<int> := [0, 0, 0, 0, 0, 0, 0, 0, 0]

  /** Default relative brightness of the eye parts, head through tail. */
  const DefaultWeights: seq<int> := [1, 4, 2, 1]
  /** The narrower "skinny eye" profile. */
  const SkinnyWeights: seq<int> := [0, 4, 1, 0]

  function Sum(s: seq<int>): int
  {
    if s == [] then 0 else s[0] + Sum(s[1..])
  }

  /** Weights that are bytes and small enough that a whole eye fits in one byte. */
  predicate FitsByte(w: seq<int>)
  {
    |w| == NumWeights &&
    (forall j :: 0 <= j < NumWeights ==> 0 <= w[j]) &&
    15 * (w[0] + w[1] + w[2] + w[3]) <= 255
  }

  predicate NonNegative(s: seq<int>)
  {
    forall i :: 0 <= i < |s| ==> 0 <= s[i]
  }

  lemma {:induction false} SumAddAt(s: seq<int>, i: int, x: int)
    requires 0 <= i < |s|
    ensures Sum(s[i := s[i] + x]) == Sum(s) + x
  {
    if i > 0 {
      assert s[i := s[i] + x][1..] == s[1..][i - 1 := s[1..][i - 1] + x];
      SumAddAt(s[1..], i - 1, x);
    } else {
      assert s[i := s[i] + x][1..] == s[1..];
    }
  }

  lemma {:induction false} ElementAtMostSum(s: seq<int>, i: int)
    requires NonNegative(s) && 0 <= i < |s|
    ensures 0 <= s[i] <= Sum(s)
  {
    if i > 0 {
      ElementAtMostSum(s[1..], i - 1);
    } else {
      SumNonNegative(s[1..]);
    }
  }

  lemma {:induction false} SumNonNegative(s: seq<int>)
    requires NonNegative(s)
    ensures 0 <= Sum(s)
  {
    if s != [] {
      SumNonNegative(s[1..]);
    }
  }

  // ---------------------------------------------------------------------------
  // Nibble split

  /** Centre LED and the two blend weights: r goes to the slot ahead, m to the slot behind. */
  datatype Blend = Blend(center: int, r: int, m: int)

  /**
    Split of the fine position.  Moving right the centre is the top nibble of
    15 + position and r its bottom nibble; moving left the centre is the top nibble
    of 127 - position and m its bottom nibble.  The shifts of the firmware are
    floor divisions by 16 (arithmetic shift), which Dafny's division is for a
    positive divisor, also when 127 - position is negative.
  */
  function Split(position: int, right: bool): (b: Blend)
    requires 0 <= position < 256
    ensures 0 <= b.r <= 15 && 0 <= b.m <= 15 && b.r + b.m == 15
    ensures right ==> 16 * b.center + b.r == 15 + position
    ensures !right ==> 16 * b.center + b.m == 127 - position
    ensures position <= 127 ==> 0 <= b.center <= MaxLedIndex
    ensures !right && position > 127 ==> b.center < 0
  {
    if right then
      var c := (15 + position) / 16;
      var r := (15 + position) - c * 16;
      Blend(c, r, 15 - r)
    else
      var c := (127 - position) / 16;
      var m := (127 - position) - c * 16;
      Blend(c, 15 - m, m)
  }

  // ---------------------------------------------------------------------------
  // Slot placement

  /** Offset of eye slot j from the centre: the head leads in the direction of travel. */
  function Offset(right: bool, j: int): int
  {
    if right then 2 - j else j - 2
  }

  /** Index of slot j, folded back into the strip at both ends (a triangle wave, not a wrap-around). */
  function FoldedSlot(c: int, right: bool, j: int): (i: int)
    requires 0 <= c <= MaxLedIndex && 0 <= j < NumSlots
    ensures 0 <= i <= MaxLedIndex
    ensures var k := c + Offset(right, j);
      (0 <= k <= MaxLedIndex ==> i == k) &&
      (k > MaxLedIndex ==> i == 2 * MaxLedIndex - k) &&
      (k < 0 ==> i == -k)
  {
    var k := c + Offset(right, j);
    var a := if k > MaxLedIndex then 2 * MaxLedIndex - k else k;
    if a < 0 then -a else a
  }

  function FoldedSlots(c: int, right: bool): (s: seq<int>)
    requires 0 <= c <= MaxLedIndex
    ensures |s| == NumSlots
    ensures forall j :: 0 <= j < NumSlots ==> 0 <= s[j] <= MaxLedIndex
  {
    seq(NumSlots, j requires 0 <= j < NumSlots => FoldedSlot(c, right, j))
  }

  /** Run-off variant: slot j sits j + 1 LEDs behind the centre, against the direction of travel
    (c - (j + 1) moving right, c + (j + 1) moving left). */
  function RunoffSlot(c: int, right: bool, j: int): (i: int)
    ensures var k := if right then c - (j + 1) else c + (j + 1);
      (0 <= k <= MaxLedIndex ==> i == k) && (k < 0 || k > MaxLedIndex ==> i == OffStrip)
  {
    var k := if right then c - (j + 1) else c + (j + 1);
    if k > MaxLedIndex || k < 0 then OffStrip else k
  }

  function RunoffSlots(c: int, right: bool): (s: seq<int>)
    ensures |s| == NumSlots
    ensures forall j :: 0 <= j < NumSlots ==> s[j] == OffStrip || 0 <= s[j] <= MaxLedIndex
  {
    seq(NumSlots, j => RunoffSlot(c, right, j))
  }

  // ---------------------------------------------------------------------------
  // Depositing the weights

  predicate OnStrip(i: int)
  {
    0 <= i < NumLeds
  }

  /** Adds x to LED i; a slot off the strip is skipped. */
  function AddVisible(s: seq<int>, i: int, x: int): (t: seq<int>)
    requires |s| == NumLeds
    ensures |t| == NumLeds
    ensures forall j :: 0 <= j < NumLeds ==> t[j] == s[j] + (if j == i then x else 0)
    ensures !OnStrip(i) ==> t == s
  {
    if OnStrip(i) then s[i := s[i] + x] else s
  }

  /**
    The LED buffer after the first k eye parts have been deposited on a dark strip:
    part j adds w[j] * r to slot j and w[j] * m to slot j + 1.
  */
  function Deposit(slots: seq<int>, w: seq<int>, r: int, m: int, k: nat): (s: seq<int>)
    requires |slots| == NumSlots && |w| == NumWeights && k <= NumWeights
    ensures |s| == NumLeds
  {
    if k == 0 then Dark
    else
      var once := AddVisible(Deposit(slots, w, r, m, k - 1), slots[k - 1], w[k - 1] * r);
      AddVisible(once, slots[k], w[k - 1] * m)
  }

  /** Independent reference: what LED i receives from the first k eye parts, summed over every slot that lands on it. */
  function Share(slots: seq<int>, w: seq<int>, r: int, m: int, k: nat, i: int): int
    requires |slots| == NumSlots && |w| == NumWeights && k <= NumWeights
  {
    if k == 0 then 0
    else
      Share(slots, w, r, m, k - 1, i)
      + (if slots[k - 1] == i then w[k - 1] * r else 0)
      + (if slots[k] == i then w[k - 1] * m else 0)
  }

  /** The full eye frame around centre c, folded at the ends. */
  function EyeFrame(c: int, right: bool, w: seq<int>, r: int, m: int): (s: seq<int>)
    requires 0 <= c <= MaxLedIndex && |w| == NumWeights
    ensures |s| == NumLeds
  {
    Deposit(FoldedSlots(c, right), w, r, m, NumWeights)
  }

  /** The full run-off eye frame around centre c. */
  function RunoffFrame(c: int, right: bool, w: seq<int>, r: int, m: int): (s: seq<int>)
    requires |w| == NumWeights
    ensures |s| == NumLeds
  {
    Deposit(RunoffSlots(c, right), w, r, m, NumWeights)
  }

  /** Contributions add: each LED holds the sum of every weight share whose slot lands on it, never just the last one written. */
  lemma {:induction false} DepositIsShare(slots: seq<int>, w: seq<int>, r: int, m: int, k: nat, i: int)
    requires |slots| == NumSlots && |w| == NumWeights && k <= NumWeights && OnStrip(i)
    ensures Deposit(slots, w, r, m, k)[i] == Share(slots, w, r, m, k, i)
  {
    if k > 0 {
      DepositIsShare(slots, w, r, m, k - 1, i);
    }
  }

  lemma SumAddVisible(s: seq<int>, i: int, x: int)
    requires |s| == NumLeds
    ensures Sum(AddVisible(s, i, x)) == Sum(s) + (if OnStrip(i) then x else 0)
  {
    if OnStrip(i) {
      SumAddAt(s, i, x);
    }
  }

  /** Brightness handed out by the first k eye parts: each gives w[j] * r ahead and w[j] * m behind. */
  function Handed(w: seq<int>, r: int, m: int, k: nat): int
    requires k <= |w|
  {
    if k == 0 then 0 else Handed(w, r, m, k - 1) + w[k - 1] * r + w[k - 1] * m
  }

  /**
    Conservation: with non-negative weights and blend, the buffer stays non-negative
    and holds at most what the first k parts handed out, exactly that much when
    every slot is on the strip.
  */
  lemma {:induction false} DepositTotal(slots: seq<int>, w: seq<int>, r: int, m: int, k: nat)
    requires |slots| == NumSlots && |w| == NumWeights && k <= NumWeights
    requires forall j :: 0 <= j < NumWeights ==> 0 <= w[j]
    requires 0 <= r && 0 <= m
    ensures NonNegative(Deposit(slots, w, r, m, k))
    ensures 0 <= Sum(Deposit(slots, w, r, m, k)) <= Handed(w, r, m, k)
    ensures (forall j :: 0 <= j < NumSlots ==> OnStrip(slots[j])) ==>
      Sum(Deposit(slots, w, r, m, k)) == Handed(w, r, m, k)
  {
    if k > 0 {
      DepositTotal(slots, w, r, m, k - 1);
      var prev := Deposit(slots, w, r, m, k - 1);
      var x, y := w[k - 1] * r, w[k - 1] * m;
      Product(w[k - 1], r);
      Product(w[k - 1], m);
      var once := AddVisible(prev, slots[k - 1], x);
      AddVisibleStep(prev, slots[k - 1], x);
      AddVisibleStep(once, slots[k], y);
      assert Deposit(slots, w, r, m, k) == AddVisible(once, slots[k], y);
      assert Handed(w, r, m, k) == Handed(w, r, m, k - 1) + x + y;
    } else {
      SumDark();
    }
  }

  lemma AddVisibleStep(s: seq<int>, i: int, x: int)
    requires |s| == NumLeds && NonNegative(s) && 0 <= x
    ensures NonNegative(AddVisible(s, i, x))
    ensures Sum(AddVisible(s, i, x)) == Sum(s) + (if OnStrip(i) then x else 0)
  {
    SumAddVisible(s, i, x);
  }

  /** With r + m == 15 the four parts hand out 15 times the sum of the weights. */
  lemma HandedAll(w: seq<int>, r: int)
    requires |w| == NumWeights
    ensures Handed(w, r, 15 - r, NumWeights) == 15 * (w[0] + w[1] + w[2] + w[3])
  {
    assert Handed(w, r, 15 - r, 1) == 15 * w[0];
    assert Handed(w, r, 15 - r, 2) == 15 * (w[0] + w[1]);
    assert Handed(w, r, 15 - r, 3) == 15 * (w[0] + w[1] + w[2]);
  }

  lemma Product(a: int, b: int)
    requires 0 <= a && 0 <= b
    ensures 0 <= a * b
  {
  }

  lemma SumDark()
    ensures Sum(Dark) == 0 && NonNegative(Dark)
  {
  }

  lemma {:induction false} HandedAtMostAll(w: seq<int>, r: int, k: nat)
    requires FitsByte(w) && 0 <= r <= 15 && k <= NumWeights
    ensures 0 <= Handed(w, r, 15 - r, k) <= 15 * (w[0] + w[1] + w[2] + w[3])
    decreases NumWeights - k
  {
    if k < NumWeights {
      HandedAtMostAll(w, r, k + 1);
      Product(w[k], r);
      Product(w[k], 15 - r);
      HandedNonNegative(w, r, k);
    } else {
      HandedAll(w, r);
    }
  }

  lemma {:induction false} HandedNonNegative(w: seq<int>, r: int, k: nat)
    requires FitsByte(w) && 0 <= r <= 15 && k <= NumWeights
    ensures 0 <= Handed(w, r, 15 - r, k)
  {
    if k > 0 {
      HandedNonNegative(w, r, k - 1);
      Product(w[k - 1], r);
      Product(w[k - 1], 15 - r);
    }
  }

  /** The folded eye conserves brightness: its 9 LEDs sum to 15 times the sum of the weights. */
  lemma EyeFrameTotal(c: int, right: bool, w: seq<int>, r: int)
    requires 0 <= c <= MaxLedIndex && 0 <= r <= 15
    requires |w| == NumWeights && forall j :: 0 <= j < NumWeights ==> 0 <= w[j]
    ensures Sum(EyeFrame(c, right, w, r, 15 - r)) == 15 * (w[0] + w[1] + w[2] + w[3])
    ensures NonNegative(EyeFrame(c, right, w, r, 15 - r))
  {
    DepositTotal(FoldedSlots(c, right), w, r, 15 - r, NumWeights);
    HandedAll(w, r);
  }

  /** The run-off eye never holds more than 15 times the sum of the weights. */
  lemma RunoffFrameTotal(c: int, right: bool, w: seq<int>, r: int)
    requires 0 <= r <= 15
    requires |w| == NumWeights && forall j :: 0 <= j < NumWeights ==> 0 <= w[j]
    ensures 0 <= Sum(RunoffFrame(c, right, w, r, 15 - r)) <= 15 * (w[0] + w[1] + w[2] + w[3])
    ensures NonNegative(RunoffFrame(c, right, w, r, 15 - r))
  {
    DepositTotal(RunoffSlots(c, right), w, r, 15 - r, NumWeights);
    HandedAll(w, r);
  }

  /** Every LED of a frame holds a byte when the weights fit: no uint8 overflow. */
  lemma FrameFitsByte(slots: seq<int>, w: seq<int>, r: int, i: int)
    requires |slots| == NumSlots && FitsByte(w) && 0 <= r <= 15 && OnStrip(i)
    ensures 0 <= Deposit(slots, w, r, 15 - r, NumWeights)[i] <= 15 * (w[0] + w[1] + w[2] + w[3]) <= 255
  {
    DepositTotal(slots, w, r, 15 - r, NumWeights);
    HandedAll(w, r);
    ElementAtMostSum(Deposit(slots, w, r, 15 - r, NumWeights), i);
  }

  /**
    The running byte additions of the firmware never wrap: before part k is added,
    the slot ahead and then the slot behind still have room for their share.
  */
  lemma DepositStepFits(slots: seq<int>, w: seq<int>, r: int, m: int, k: nat)
    requires |slots| == NumSlots && FitsByte(w) && k < NumWeights
    requires 0 <= r <= 15 && m == 15 - r
    ensures OnStrip(slots[k]) ==> 0 <= Deposit(slots, w, r, m, k)[slots[k]] + w[k] * r <= 255
    ensures OnStrip(slots[k + 1]) ==>
      0 <= AddVisible(Deposit(slots, w, r, m, k), slots[k], w[k] * r)[slots[k + 1]] + w[k] * m <= 255
  {
    var s := Deposit(slots, w, r, m, k);
    var x, y := w[k] * r, w[k] * m;
    Product(w[k], r);
    Product(w[k], m);
    // room: everything deposited so far plus this part's two shares fits a byte
    assert Sum(s) + x + y <= 255 && NonNegative(s) by {
      DepositTotal(slots, w, r, m, k);
      HandedAtMostAll(w, r, k + 1);
      assert Handed(w, r, m, k + 1) == Handed(w, r, m, k) + x + y;
    }
    var once := AddVisible(s, slots[k], x);
    AddVisibleStep(s, slots[k], x);
    var twice := AddVisible(once, slots[k + 1], y);
    AddVisibleStep(once, slots[k + 1], y);
    if OnStrip(slots[k]) {
      ElementAtMostSum(once, slots[k]);
      assert once[slots[k]] == s[slots[k]] + x;
    }
    if OnStrip(slots[k + 1]) {
      ElementAtMostSum(twice, slots[k + 1]);
      assert twice[slots[k + 1]] == once[slots[k + 1]] + y;
    }
  }

  /** Expands the first four parts of Share into its eight terms. */
  lemma ShareExpanded(slots: seq<int>, w: seq<int>, r: int, m: int, i: int)
    requires |slots| == NumSlots && |w| == NumWeights
    ensures Share(slots, w, r, m, NumWeights, i) ==
      (if slots[0] == i then w[0] * r else 0) + (if slots[1] == i then w[0] * m else 0) +
      (if slots[1] == i then w[1] * r else 0) + (if slots[2] == i then w[1] * m else 0) +
      (if slots[2] == i then w[2] * r else 0) + (if slots[3] == i then w[2] * m else 0) +
      (if slots[3] == i then w[3] * r else 0) + (if slots[4] == i then w[3] * m else 0)
  {
    assert Share(slots, w, r, m, 1, i) ==
      (if slots[0] == i then w[0] * r else 0) + (if slots[1] == i then w[0] * m else 0);
    assert Share(slots, w, r, m, 3, i) == Share(slots, w, r, m, 2, i)
      + (if slots[2] == i then w[2] * r else 0) + (if slots[3] == i then w[2] * m else 0);
  }

  // ---------------------------------------------------------------------------
  // In-place array versions, as the firmware runs them

  /** Clears the LED buffer (the 0..8 loop that zeroes the new brightness values). */
  method ClearLeds(leds: array<int>)
    requires leds.Length == NumLeds
    modifies leds
    ensures leds[..] == Dark
  {
    var j := 0;
    while j < NumLeds
      invariant 0 <= j <= NumLeds
      invariant forall t :: 0 <= t < j ==> leds[t] == 0
    {
      leds[j] := 0;
      j := j + 1;
    }
  }

  /** Fills the five slot indices around centre c, folding them back at both ends. */
  method FillFoldedSlots(loc: array<int>, c: int, right: bool)
    requires loc.Length == NumSlots && 0 <= c <= MaxLedIndex
    modifies loc
    ensures loc[..] == FoldedSlots(c, right)
  {
    var j := 0;
    while j < NumSlots
      invariant 0 <= j <= NumSlots
      invariant forall t :: 0 <= t < j ==> loc[t] == FoldedSlot(c, right, t)
    {
      var k := if right then c + (2 - j) else c + (j - 2);
      if k > MaxLedIndex {
        k := 2 * MaxLedIndex - k;
      }
      if k < 0 {
        k := -k;
      }
      loc[j] := k;
      j := j + 1;
    }
  }

  /** One uint8 `+=` on an LED, in a case where it cannot wrap. */
  method AddByte(leds: array<int>, i: int, x: int)
    requires leds.Length == NumLeds && OnStrip(i) && 0 <= leds[i] + x <= 255
    modifies leds
    ensures leds[..] == old(leds[..])[i := old(leds[i]) + x]
  {
    leds[i] := (leds[i] + x) % 256;
  }

  /** One `+=` of an eye part onto slot i; with guard set a slot below 0 is skipped. */
  method AddSlot(leds: array<int>, i: int, x: int, guard: bool)
    requires leds.Length == NumLeds
    requires guard ==> i == OffStrip || OnStrip(i)
    requires !guard ==> OnStrip(i)
    requires OnStrip(i) ==> 0 <= leds[i] + x <= 255
    modifies leds
    ensures leds[..] == AddVisible(old(leds[..]), i, x)
  {
    if !guard || i >= 0 {
      AddByte(leds, i, x);
    }
  }

  /**
    Eye part j: w[j] * r onto the LED of slot j, then w[j] * (15 - r) onto the LED of
    slot j + 1.  With guard set a slot below 0 is skipped.
  */
  method AddEyePart(leds: array<int>, loc: array<int>, w: seq<int>, r: int, j: int, guard: bool)
    requires leds.Length == NumLeds && loc.Length == NumSlots
    requires FitsByte(w) && 0 <= r <= 15 && 0 <= j < NumWeights
    requires guard ==> forall t :: 0 <= t < NumSlots ==> loc[t] == OffStrip || OnStrip(loc[t])
    requires !guard ==> forall t :: 0 <= t < NumSlots ==> OnStrip(loc[t])
    requires leds[..] == Deposit(loc[..], w, r, 15 - r, j)
    modifies leds
    ensures leds[..] == Deposit(loc[..], w, r, 15 - r, j + 1)
  {
    ghost var slots := loc[..];
    var m := 15 - r;
    var a, b := loc[j], loc[j + 1];
    DepositStepFits(slots, w, r, m, j);
    var x, y := w[j] * r, w[j] * m;
    ghost var once := AddVisible(Deposit(slots, w, r, m, j), a, x);
    AddSlot(leds, a, x, guard);
    assert leds[..] == once;
    AddSlot(leds, b, y, guard);
  }

  /**
    Adds the four weighted eye parts into a cleared byte buffer.  With guard set,
    slots below 0 are skipped (the run-off loop); without it every slot must already
    be on the strip (the folded loop).  Each addition is a uint8 `+=`; the ensures
    shows none of them wraps.
  */
  method AddEye(leds: array<int>, loc: array<int>, w: seq<int>, r: int, guard: bool)
    requires leds.Length == NumLeds && loc.Length == NumSlots
    requires leds[..] == Dark
    requires FitsByte(w) && 0 <= r <= 15
    requires guard ==> forall j :: 0 <= j < NumSlots ==> loc[j] == OffStrip || OnStrip(loc[j])
    requires !guard ==> forall j :: 0 <= j < NumSlots ==> OnStrip(loc[j])
    modifies leds
    ensures leds[..] == Deposit(loc[..], w, r, 15 - r, NumWeights)
    ensures forall i :: 0 <= i < NumLeds ==> 0 <= leds[i] <= 255
  {
    var j := 0;
    while j < NumWeights
      invariant 0 <= j <= NumWeights
      invariant leds[..] == Deposit(loc[..], w, r, 15 - r, j)
    {
      AddEyePart(leds, loc, w, r, j, guard);
      j := j + 1;
    }
    forall i | 0 <= i < NumLeds
      ensures 0 <= leds[i] <= 255
    {
      FrameFitsByte(loc[..], w, r, i);
    }
  }
}
