/**
  The soft-PWM phase counter of the renderer (the Timer0 overflow interrupt of
  larson_jm.c).  A phase runs over 0..100; an LED is driven high in a tick exactly
  when its brightness exceeds the phase, so over one full period of 101 ticks an LED
  of brightness b (at most 100) is on for exactly b ticks.
*/
module Pwm {
  import Board

  const MaxBrightness := 100
  const Period := MaxBrightness + 1

  /** The phase after one tick: counts up and wraps to 0 after exceeding 100. */
  function NextPhase(c: int): (n: int)
    requires 0 <= c <= MaxBrightness
    ensures 0 <= n <= MaxBrightness
    ensures n == (c + 1) % Period
  {
    if c + 1 > MaxBrightness then 0 else c + 1
  }

  /** An LED is driven high in a tick exactly when its brightness exceeds the phase. */
  predicate Lit(b: int, phase: int)
  {
    b > phase
  }

  /** Number of ticks among n consecutive ones, from phase c, in which an LED of brightness b is on. */
  function OnTicks(b: int, c: int, n: nat): int
    requires 0 <= c <= MaxBrightness
    decreases n
  {
    if n == 0 then 0 else (if Lit(b, c) then 1 else 0) + OnTicks(b, NextPhase(c), n - 1)
  }

  /** Number of phases v in lo..hi-1 with b > v. */
  function CountBelow(b: int, lo: int, hi: int): int
    decreases hi - lo
  {
    if lo >= hi then 0 else (if Lit(b, lo) then 1 else 0) + CountBelow(b, lo + 1, hi)
  }

  lemma {:induction false} CountBelowIs(b: int, lo: int, hi: int)
    requires 0 <= lo <= hi && 0 <= b
    ensures CountBelow(b, lo, hi) == if b <= lo then 0 else if b >= hi then hi - lo else b - lo
    decreases hi - lo
  {
    if lo < hi {
      CountBelowIs(b, lo + 1, hi);
    }
  }

  /** Before the phase wraps, the ticks walk through consecutive phases. */
  lemma {:induction false} OnTicksNoWrap(b: int, c: int, n: nat)
    requires 0 <= c <= MaxBrightness && c + n <= Period
    ensures OnTicks(b, c, n) == CountBelow(b, c, c + n)
    decreases n
  {
    if n > 1 {
      OnTicksNoWrap(b, c + 1, n - 1);
    }
  }

  /** Ticks from phase c up to the wrap, then ticks from phase 0. */
  lemma {:induction false} OnTicksWrap(b: int, c: int, k: nat, n: nat)
    requires 0 <= c && c + k == Period && 1 <= k
    ensures OnTicks(b, c, k + n) == CountBelow(b, c, Period) + OnTicks(b, 0, n)
    decreases k
  {
    if k > 1 {
      OnTicksWrap(b, c + 1, k - 1, n);
    }
  }

  /**
    Duty cycle: whatever the phase it starts from, any window of 101 consecutive
    ticks drives an LED of brightness b (a byte) high in exactly min(b, 101) ticks,
    that is in exactly b ticks when b is at most 100.
  */
  lemma DutyCycle(b: int, c: int)
    requires 0 <= b < 256 && 0 <= c <= MaxBrightness
    ensures OnTicks(b, c, Period) == if b > Period then Period else b
    ensures b <= MaxBrightness ==> OnTicks(b, c, Period) == b
  {
    if c == 0 {
      OnTicksNoWrap(b, 0, Period);
      CountBelowIs(b, 0, Period);
    } else {
      OnTicksWrap(b, c, Period - c, c);
      OnTicksNoWrap(b, 0, c);
      CountBelowIs(b, c, Period);
      CountBelowIs(b, 0, c);
    }
  }

  // ---------------------------------------------------------------------------
  // Driving the port bits

  /** A port byte with one LED bit driven: set when the LED is lit, cleared otherwise. */
  function Drive(port: bv8, bit: bv8, on: bool): bv8
  {
    if on then port | bit else port & !bit
  }

  /** The port after driving the first n LEDs of `bits` in order, each lit when its level exceeds the phase. */
  function DriveAll(port: bv8, bits: seq<bv8>, levels: seq<int>, phase: int, n: nat): bv8
    requires |bits| == |levels| && n <= |bits|
  {
    if n == 0 then port
    else Drive(DriveAll(port, bits, levels, phase, n - 1), bits[n - 1], Lit(levels[n - 1], phase))
  }

  /** Distinct single-LED masks: no bit shared between two LEDs, none empty. */
  predicate Disjoint(bits: seq<bv8>)
  {
    (forall i, j :: 0 <= i < j < |bits| ==> bits[i] & bits[j] == 0) &&
    (forall i :: 0 <= i < |bits| ==> bits[i] != 0)
  }

  /** Driving a bit leaves it set when on and cleared when off. */
  lemma DriveOwn(port: bv8, bit: bv8, on: bool)
    ensures Drive(port, bit, on) & bit == if on then bit else 0
  {
  }

  /** Driving a bit leaves every bit outside it as it was. */
  lemma DriveOther(port: bv8, bit: bv8, on: bool, x: bv8)
    requires bit & x == 0
    ensures Drive(port, bit, on) & x == port & x
  {
  }

  /** Driving LED bits leaves every port bit outside them as it was. */
  lemma {:induction false} DriveAllKeeps(port: bv8, bits: seq<bv8>, levels: seq<int>, phase: int, n: nat, x: bv8)
    requires |bits| == |levels| && n <= |bits|
    requires forall k :: 0 <= k < |bits| ==> bits[k] & x == 0
    ensures DriveAll(port, bits, levels, phase, n) & x == port & x
  {
    if n > 0 {
      DriveAllKeeps(port, bits, levels, phase, n - 1, x);
      DriveOther(DriveAll(port, bits, levels, phase, n - 1), bits[n - 1], Lit(levels[n - 1], phase), x);
    }
  }

  /** Driving the n-th LED leaves the bits outside it as the first n - 1 left them. */
  lemma DriveAllStep(port: bv8, bits: seq<bv8>, levels: seq<int>, phase: int, n: nat, x: bv8)
    requires |bits| == |levels| && 0 < n <= |bits| && bits[n - 1] & x == 0
    ensures DriveAll(port, bits, levels, phase, n) & x == DriveAll(port, bits, levels, phase, n - 1) & x
  {
    DriveOther(DriveAll(port, bits, levels, phase, n - 1), bits[n - 1], Lit(levels[n - 1], phase), x);
  }

  /** The n-th LED driven shows its own level. */
  lemma DriveAllLast(port: bv8, bits: seq<bv8>, levels: seq<int>, phase: int, n: nat)
    requires |bits| == |levels| && 0 < n <= |bits|
    ensures DriveAll(port, bits, levels, phase, n) & bits[n - 1] == if Lit(levels[n - 1], phase) then bits[n - 1] else 0
  {
    DriveOwn(DriveAll(port, bits, levels, phase, n - 1), bits[n - 1], Lit(levels[n - 1], phase));
  }

  /**
    After driving, the bit of an LED that shares it with no other LED is set
    exactly when that LED's level exceeds the phase.
  */
  lemma {:induction false} DriveAllShows(port: bv8, bits: seq<bv8>, levels: seq<int>, phase: int, n: nat, i: int)
    requires |bits| == |levels| && n <= |bits| && 0 <= i < n
    requires forall j :: 0 <= j < |bits| && j != i ==> bits[j] & bits[i] == 0
    ensures DriveAll(port, bits, levels, phase, n) & bits[i] == if Lit(levels[i], phase) then bits[i] else 0
  {
    if i < n - 1 {
      DriveAllShows(port, bits, levels, phase, n - 1, i);
      DriveAllStep(port, bits, levels, phase, n, bits[i]);
    } else {
      DriveAllLast(port, bits, levels, phase, n);
    }
  }

  lemma BoardBitsDisjoint()
    ensures Disjoint(Board.LowerLedBits) && Disjoint(Board.UpperLedBits)
  {
    var lo := Board.LowerLedBits;
    var up := Board.UpperLedBits;
    forall i, j | 0 <= i < j < |lo|
      ensures lo[i] & lo[j] == 0
    {
    }
    forall i, j | 0 <= i < j < |up|
      ensures up[i] & up[j] == 0
    {
    }
  }

  /**
    The port shows the levels: the bit of LED i is set when level i exceeds the
    phase and clear otherwise.
  */
  predicate Shows(port: bv8, bits: seq<bv8>, levels: seq<int>, phase: int)
    requires |bits| == |levels|
  {
    forall i :: 0 <= i < |bits| ==> port & bits[i] == if Lit(levels[i], phase) then bits[i] else 0
  }

  /** Driving a set of distinct LED bits shows every one of their levels. */
  lemma PortShows(port: bv8, bits: seq<bv8>, levels: seq<int>, phase: int)
    requires |bits| == |levels| && Disjoint(bits)
    ensures Shows(DriveAll(port, bits, levels, phase, |bits|), bits, levels, phase)
  {
    forall i | 0 <= i < |bits|
      ensures DriveAll(port, bits, levels, phase, |bits|) & bits[i] == if Lit(levels[i], phase) then bits[i] else 0
    {
      Alone(bits, i);
      DriveAllShows(port, bits, levels, phase, |bits|, i);
    }
  }

  /** In a set of distinct LED bits, every other LED's bit misses LED i's. */
  lemma Alone(bits: seq<bv8>, i: int)
    requires Disjoint(bits) && 0 <= i < |bits|
    ensures forall j :: 0 <= j < |bits| && j != i ==> bits[j] & bits[i] == 0
  {
    forall j | 0 <= j < |bits| && j != i
      ensures bits[j] & bits[i] == 0
    {
      if i < j {
        assert bits[i] & bits[j] == 0;
      }
    }
  }

  /** One interrupt's pass over port D: LEDs 0..4 shown against the phase, the other port D bits untouched. */
  lemma LowerPort(port: bv8, levels: seq<int>, phase: int)
    requires |levels| == Board.NumLowerLeds
    ensures Shows(DriveAll(port, Board.LowerLedBits, levels, phase, Board.NumLowerLeds), Board.LowerLedBits, levels, phase)
    ensures DriveAll(port, Board.LowerLedBits, levels, phase, Board.NumLowerLeds) & !Board.LowerLedMask == port & !Board.LowerLedMask
  {
    BoardBitsDisjoint();
    PortShows(port, Board.LowerLedBits, levels, phase);
    DriveAllKeeps(port, Board.LowerLedBits, levels, phase, Board.NumLowerLeds, !Board.LowerLedMask);
  }

  /** The same over port B for LEDs 5..8. */
  lemma UpperPort(port: bv8, levels: seq<int>, phase: int)
    requires |levels| == Board.NumUpperLeds
    ensures Shows(DriveAll(port, Board.UpperLedBits, levels, phase, Board.NumUpperLeds), Board.UpperLedBits, levels, phase)
    ensures DriveAll(port, Board.UpperLedBits, levels, phase, Board.NumUpperLeds) & !Board.UpperLedMask == port & !Board.UpperLedMask
  {
    BoardBitsDisjoint();
    PortShows(port, Board.UpperLedBits, levels, phase);
    DriveAllKeeps(port, Board.UpperLedBits, levels, phase, Board.NumUpperLeds, !Board.UpperLedMask);
  }
}
