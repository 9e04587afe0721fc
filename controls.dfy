/**
  Control logic of the restructured firmware (larson_jm.c) as transition functions:
  the position bounce, the cyclic display mode, the button debounce, the paced
  EEPROM flush and the boot-time settings decode.  The Scanner class in larson_jm.dfy
  runs each of them in place on its fields and is proved against these functions.
*/
module Controls {

  const PositionInitial := 1
  const PositionLimit := 9
  const MovingRight := 1
  const MovingLeft := -1

  const NumDisplayModes := 6
  const MinSpeed := 1
  const MaxSpeed := 3

  /** Pressed passes after which a held button counts as a long press. */
  const LongPressPasses := 100
  /** The pacing counter wraps to 0 after exceeding this. */
  const CycleCeiling := 250
  /** A pending settings write waits until the pacing counter exceeds this. */
  const Cooldown := 100
  /** The value read from a never-written EEPROM cell. */
  const Unprogrammed: bv8 := 0xFF

  predicate IsDirection(d: int)
  {
    d == MovingRight || d == MovingLeft
  }

  // ---------------------------------------------------------------------------
  // Position bounce (update_position)

  datatype Cursor = Cursor(position: int, direction: int)

  predicate ValidCursor(c: Cursor)
  {
    PositionInitial <= c.position <= PositionLimit && IsDirection(c.direction)
  }

  /**
    One step of the cursor.  The step overshoots to 10 or 0 and is corrected in the
    same call, so a caller always sees 1..9: the direction flips exactly when the
    step would leave 1..9, and the position then moves back one LED instead.
  */
  function Bounce(c: Cursor): (n: Cursor)
    requires ValidCursor(c)
    ensures ValidCursor(n)
    ensures n.direction != c.direction <==>
      c.position + c.direction == PositionLimit + 1 || c.position + c.direction == PositionInitial - 1
    ensures n.direction == c.direction ==> n.position == c.position + c.direction
    ensures n.direction != c.direction ==> n.direction == -c.direction && n.position == c.position - c.direction
  {
    var p := c.position + c.direction;
    if p > PositionLimit then Cursor(PositionLimit - 1, -c.direction)
    else if p < PositionInitial then Cursor(PositionInitial + 1, -c.direction)
    else Cursor(p, c.direction)
  }

  /** The cursor after n steps. */
  function Bounces(c: Cursor, n: nat): (r: Cursor)
    requires ValidCursor(c)
    ensures ValidCursor(r)
  {
    if n == 0 then c else Bounce(Bounces(c, n - 1))
  }

  lemma {:induction false} BouncesAdd(c: Cursor, a: nat, b: nat)
    requires ValidCursor(c)
    ensures Bounces(c, a + b) == Bounces(Bounces(c, a), b)
  {
    if b > 0 {
      BouncesAdd(c, a, b - 1);
    }
  }

  /** Moving right, the cursor advances one LED per step until it reaches LED 9. */
  lemma {:induction false} SweepRight(p: int, n: nat)
    requires PositionInitial <= p && p + n <= PositionLimit
    ensures Bounces(Cursor(p, MovingRight), n) == Cursor(p + n, MovingRight)
  {
    if n > 0 {
      SweepRight(p, n - 1);
    }
  }

  /** Moving left, the cursor retreats one LED per step until it reaches LED 1. */
  lemma {:induction false} SweepLeft(p: int, n: nat)
    requires p <= PositionLimit && PositionInitial <= p - n
    ensures Bounces(Cursor(p, MovingLeft), n) == Cursor(p - n, MovingLeft)
  {
    if n > 0 {
      SweepLeft(p, n - 1);
    }
  }

  /** From the boot cursor (LED 1, moving right): 8 steps reach LED 9 still moving right; the 9th turns back to LED 8. */
  lemma FirstSweep()
    ensures Bounces(Cursor(PositionInitial, MovingRight), 8) == Cursor(PositionLimit, MovingRight)
    ensures Bounces(Cursor(PositionInitial, MovingRight), 9) == Cursor(PositionLimit - 1, MovingLeft)
    ensures forall n :: 0 <= n <= 8 ==> Bounces(Cursor(PositionInitial, MovingRight), n).direction == MovingRight
  {
    forall n | 0 <= n <= 8
      ensures Bounces(Cursor(PositionInitial, MovingRight), n).direction == MovingRight
    {
      SweepRight(PositionInitial, n);
    }
  }

  /** From LED 9 moving right, nine steps turn back, sweep down to LED 1 and turn up again to LED 2. */
  lemma TurnAround()
    ensures Bounces(Cursor(PositionLimit, MovingRight), 9) == Cursor(PositionInitial + 1, MovingRight)
  {
    var top := Cursor(PositionLimit, MovingRight);
    BouncesAdd(top, 1, 7);
    SweepLeft(PositionLimit - 1, 7);
    BouncesAdd(top, 8, 1);
  }

  /** The sweep is periodic: every rightward cursor past LED 1 recurs after 16 steps. */
  lemma Period16(p: int)
    requires PositionInitial < p <= PositionLimit
    ensures Bounces(Cursor(p, MovingRight), 16) == Cursor(p, MovingRight)
  {
    var start := Cursor(p, MovingRight);
    var up := PositionLimit - p;
    var top := Bounces(start, up);
    assert top == Cursor(PositionLimit, MovingRight) by {
      SweepRight(p, up);
    }
    var bottom := Bounces(start, up + 9);
    assert bottom == Cursor(PositionInitial + 1, MovingRight) by {
      TurnAround();
      BouncesAdd(start, up, 9);
    }
    assert Bounces(start, up + 9 + (p - 2)) == start by {
      SweepRight(PositionInitial + 1, p - 2);
      BouncesAdd(start, up + 9, p - 2);
    }
  }

  // ---------------------------------------------------------------------------
  // Display mode (toggle_display_mode)

  /** The next display mode: the six modes in a cycle; an out-of-range byte falls back to mode 0. */
  function NextMode(mode: int): (n: int)
    requires 0 <= mode < 256
    ensures 0 <= n < NumDisplayModes
    ensures mode < NumDisplayModes ==> n == (mode + 1) % NumDisplayModes
    ensures mode >= NumDisplayModes ==> n == 0
  {
    if mode + 1 >= NumDisplayModes then 0 else mode + 1
  }

  function NextModes(mode: int, n: nat): (r: int)
    requires 0 <= mode < NumDisplayModes
    ensures 0 <= r < NumDisplayModes
  {
    if n == 0 then mode else NextMode(NextModes(mode, n - 1))
  }

  /** n presses advance the mode by n, modulo 6. */
  lemma {:induction false} ModesCycle(mode: int, n: nat)
    requires 0 <= mode < NumDisplayModes
    ensures NextModes(mode, n) == (mode + n) % NumDisplayModes
  {
    if n > 0 {
      ModesCycle(mode, n - 1);
      var k := (mode + n - 1) % NumDisplayModes;
      assert (k + 1) % NumDisplayModes == (mode + n) % NumDisplayModes;
    }
  }

  // ---------------------------------------------------------------------------
  // Button debounce (update_button)

  /**
    The debounce state: `debounce` records that the current press has been seen,
    `held` counts pressed passes (a byte, wrapping at 256), `modeSwitched` records
    that the current press already fired its long-press event.
  */
  datatype Button = Button(debounce: bool, held: int, modeSwitched: bool)

  /** The state at boot and after every release. */
  const Released := Button(false, 0, false)

  predicate ValidButton(b: Button)
  {
    0 <= b.held < 256
  }

  /** An unsigned byte incremented by one, wrapping from 255 to 0. */
  function Inc8(x: int): (y: int)
    requires 0 <= x < 256
    ensures 0 <= y < 256 && y == (x + 1) % 256
  {
    if x == 255 then 0 else x + 1
  }

  /** What one pass did: the new state, whether the long-press event fired, whether a release event fired. */
  datatype ButtonOutcome = ButtonOutcome(next: Button, longPress: bool, release: bool)

  /**
    One pass of the debouncer.  A long press fires when the wrapped pass count
    exceeds 100 and the press has not fired one yet; a release fires on every
    release after a press that was seen, whether or not it was long.
  */
  function ButtonStep(b: Button, pressed: bool): (o: ButtonOutcome)
    requires ValidButton(b)
    ensures ValidButton(o.next)
    ensures !pressed ==> o.next == Released && !o.longPress && (o.release <==> b.debounce)
    ensures pressed ==> !o.release
    ensures o.longPress <==> pressed && !b.modeSwitched && Inc8(b.held) > LongPressPasses
    ensures pressed ==> (o.next.modeSwitched <==> b.modeSwitched || o.longPress)
    ensures pressed ==> (o.next.debounce <==> b.debounce || Inc8(b.held) <= LongPressPasses)
    ensures pressed && !o.longPress ==> o.next.held == Inc8(b.held)
  {
    if pressed then
      var h := Inc8(b.held);
      if h > LongPressPasses then
        if !b.modeSwitched then ButtonOutcome(Button(b.debounce, 0, true), true, false)
        else ButtonOutcome(Button(b.debounce, h, true), false, false)
      else ButtonOutcome(Button(true, h, b.modeSwitched), false, false)
    else
      ButtonOutcome(Released, false, b.debounce)
  }

  /** The state after n pressed passes, with the number of long-press events they fired. */
  function Hold(b: Button, n: nat): (r: (Button, nat))
    requires ValidButton(b)
    ensures ValidButton(r.0)
  {
    if n == 0 then (b, 0)
    else
      var prev := Hold(b, n - 1);
      var o := ButtonStep(prev.0, true);
      (o.next, prev.1 + if o.longPress then 1 else 0)
  }

  /** However long the button is held, a press fires at most one long-press event, and none once it has fired one. */
  lemma {:induction false} AtMostOneLongPress(b: Button, n: nat)
    requires ValidButton(b)
    ensures Hold(b, n).1 <= 1
    ensures Hold(b, n).1 == 1 ==> Hold(b, n).0.modeSwitched
    ensures b.modeSwitched ==> Hold(b, n).1 == 0 && Hold(b, n).0.modeSwitched
  {
    if n > 0 {
      AtMostOneLongPress(b, n - 1);
    }
  }

  /** The first 100 pressed passes after a release only count. */
  lemma {:induction false} HoldCounting(n: nat)
    requires n <= LongPressPasses
    ensures Hold(Released, n) == (Button(n >= 1, n, false), 0)
  {
    if n > 0 {
      HoldCounting(n - 1);
      var prev := Hold(Released, n - 1);
      assert prev.0 == Button(n - 1 >= 1, n - 1, false) && prev.1 == 0;
      var o := ButtonStep(prev.0, true);
      assert o == ButtonOutcome(Button(true, n, false), false, false);
      assert Hold(Released, n) == (o.next, prev.1 + 0);
    }
  }

  /** From the 101st pressed pass on, exactly one long-press event has fired and the press stays marked as seen. */
  lemma {:induction false} HoldLong(n: nat)
    requires n > LongPressPasses
    ensures Hold(Released, n).1 == 1 && Hold(Released, n).0.modeSwitched && Hold(Released, n).0.debounce
  {
    if n == LongPressPasses + 1 {
      HoldCounting(n - 1);
      assert ButtonStep(Button(true, LongPressPasses, false), true) == ButtonOutcome(Button(true, 0, true), true, false);
    } else {
      HoldLong(n - 1);
    }
  }

  /**
    Holding the button from the released state: the first 100 passes only count,
    the 101st fires the long-press event, and no later pass fires another.  Every
    pass from the first on marks the press as seen.
  */
  lemma HoldFromReleased(n: nat)
    ensures n <= LongPressPasses ==> Hold(Released, n) == (Button(n >= 1, n, false), 0)
    ensures n > LongPressPasses ==> Hold(Released, n).1 == 1 && Hold(Released, n).0.modeSwitched
    ensures n >= 1 ==> Hold(Released, n).0.debounce
  {
    if n <= LongPressPasses {
      HoldCounting(n);
    } else {
      HoldLong(n);
    }
  }

  /** Releasing after n pressed passes fires one release event (speed and mode advance) exactly when n >= 1, and returns to the released state. */
  lemma PressThenRelease(n: nat)
    ensures ButtonStep(Hold(Released, n).0, false).release <==> n >= 1
    ensures ButtonStep(Hold(Released, n).0, false).next == Released
  {
    HoldFromReleased(n);
  }

  // ---------------------------------------------------------------------------
  // Paced EEPROM flush (update_eeprom)

  /** The pacing counter and the pending-write flag. */
  datatype Pacer = Pacer(cycle: int, dirty: bool)

  predicate ValidPacer(p: Pacer)
  {
    0 <= p.cycle <= CycleCeiling
  }

  datatype PaceOutcome = PaceOutcome(next: Pacer, write: bool)

  /**
    One pass: the counter advances modulo 251; a pending write happens only once
    the counter exceeds the cooldown, and the flag clears exactly when it happens.
  */
  function PaceStep(p: Pacer): (o: PaceOutcome)
    requires ValidPacer(p)
    ensures ValidPacer(o.next)
    ensures o.next.cycle == (p.cycle + 1) % (CycleCeiling + 1)
    ensures o.write <==> p.dirty && o.next.cycle > Cooldown
    ensures o.next.dirty <==> p.dirty && !o.write
  {
    var c := if p.cycle + 1 > CycleCeiling then 0 else p.cycle + 1;
    if p.dirty && c > Cooldown then PaceOutcome(Pacer(c, false), true)
    else PaceOutcome(Pacer(c, p.dirty), false)
  }

  /** The pacer after n passes, with the number of writes they made. */
  function Pace(p: Pacer, n: nat): (r: (Pacer, nat))
    requires ValidPacer(p)
    ensures ValidPacer(r.0)
  {
    if n == 0 then (p, 0)
    else
      var prev := Pace(p, n - 1);
      var o := PaceStep(prev.0);
      (o.next, prev.1 + if o.write then 1 else 0)
  }

  /**
    A change made while the counter is at c (at most the cooldown) waits: the next
    100 - c passes write nothing and keep it pending; the pass that takes the counter
    past the cooldown writes exactly once and clears the flag.
  */
  lemma {:induction false} CooldownWindow(c: int, n: nat)
    requires 0 <= c <= Cooldown && n <= Cooldown + 1 - c
    ensures n <= Cooldown - c ==> Pace(Pacer(c, true), n) == (Pacer(c + n, true), 0)
    ensures n == Cooldown + 1 - c ==> Pace(Pacer(c, true), n) == (Pacer(Cooldown + 1, false), 1)
  {
    if n > 0 {
      CooldownWindow(c, n - 1);
    }
  }

  /** With nothing pending, no pass writes. */
  lemma {:induction false} CleanNeverWrites(p: Pacer, n: nat)
    requires ValidPacer(p) && !p.dirty
    ensures Pace(p, n).1 == 0 && !Pace(p, n).0.dirty
  {
    if n > 0 {
      CleanNeverWrites(p, n - 1);
    }
  }

  // ---------------------------------------------------------------------------
  // Settings byte (settings_init, update_speed_setting, update_eeprom)

  /** The byte written for a speed level: the level shifted into the high nibble, truncated to 8 bits. */
  function StoredSpeed(level: int): (pt: bv8)
    requires 0 <= level < 256
    ensures (pt >> 4) as int == level % 16
    ensures pt & 0x0F == 0
  {
    // shifting left by 4 in 8 bits drops all but the level's low nibble
    var nibble := (level % 16) as bv8;
    assert nibble < 16;
    nibble << 4
  }

  /** Speed level loaded at boot: the high nibble of the stored byte, reset to the minimum when above 3. */
  function BootSpeed(pt: bv8): (s: int)
    ensures 0 <= s <= MaxSpeed
    ensures pt == Unprogrammed ==> s == MinSpeed
    ensures (pt >> 4) as int <= MaxSpeed ==> s == (pt >> 4) as int
    ensures (pt >> 4) as int > MaxSpeed ==> s == MinSpeed
  {
    var level := (pt >> 4) as int;
    if level > MaxSpeed then MinSpeed else level
  }

  /**
    Round trip of the settings byte: a level survives a write and a reboot exactly
    when its low nibble is at most 3; levels 0..3 come back unchanged, anything
    else (the unbounded increments of the button) comes back as the minimum.
  */
  lemma SpeedRoundTrip(level: int)
    requires 0 <= level < 256
    ensures BootSpeed(StoredSpeed(level)) == if level % 16 <= MaxSpeed then level % 16 else MinSpeed
    ensures 0 <= level <= MaxSpeed ==> BootSpeed(StoredSpeed(level)) == level
    ensures 0 <= level < 16 ==> (StoredSpeed(level) >> 4) as int == level
  {
  }

  /** Skinny-eye mode at boot: set by jumper 2, inverted while the button is held at power-on. */
  function BootSkinny(jumper2Shorted: bool, buttonPressed: bool): (skinny: bool)
    ensures !buttonPressed ==> skinny == jumper2Shorted
    ensures buttonPressed ==> skinny == !jumper2Shorted
  {
    jumper2Shorted != buttonPressed
  }
}
