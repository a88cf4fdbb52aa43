// CMeleeMotion (MeleeMotion.cpp): a sideways chop with the current weapon,
// ending turned on its side; too strong an x acceleration at any point (above
// 3 g) rules the chop out.
module MeleeMotion {
  import opened Motion
  import opened Gesture

  /** The motion state bits. */
  const BEGIN: bv32 := 0x01
  const HIT_XG: bv32 := 0x02
  const HIT_ZG: bv32 := 0x04
  const NOHIT_BADXG: bv32 := 0x08
  const END_R: bv32 := 0x10

  /** The pass mask: all five bits. */
  const PASSED: bv32 := 0x1F

  const PRIORITY: real := 2.5

  lemma Passed(s: Bits)
    ensures Fired(Word(s), PASSED)
        <==> BEGIN in s && HIT_XG in s && HIT_ZG in s && NOHIT_BADXG in s && END_R in s
  {
  }

  /** On foot or looking through binoculars, and CanMelee holds. */
  predicate Allowed(c: Context)
  {
    OnFoot(c) && c.game.canMelee
  }

  /** x at or below -MeleeSensitivity. */
  function Swipe(t: Tuning): Test
  {
    AtMost(X, -t.melee)
  }

  /** z at or below -PickUpSensitivity (the melee detector reads the pick-up sensitivity here). */
  function Chop(t: Tuning): Test
  {
    AtMost(Z, -t.pickUp)
  }

  /** x at or above 3 g. */
  function Wild(): Test
  {
    AtLeast(X, 3.0)
  }

  /** The end position: rolled between 45 and 135 degrees to the left. */
  predicate OnSide(roll: real)
  {
    Rad(-135.0) <= roll <= Rad(-45.0)
  }

  /** OnBegin: the state is reset, then BEGIN for a level pitch and NOHIT_BADXG for x below 3. */
  function Begin(c: Context, e: Element): Bits
  {
    if !Allowed(c) then {}
    else
      var s1: Bits := if PitchLevel(e.pitch) then {BEGIN} else {};
      if e.accel.x < 3.0 then s1 + {NOHIT_BADXG} else s1
  }

  /** The acceleration checks OnUpdate and OnEnd share. */
  function Forces(c: Context, s: Bits, e: Element): Bits
  {
    var s1 := if Hit(e, Swipe(c.tuning)) then s + {HIT_XG} else s;
    if Hit(e, Chop(c.tuning)) then s1 + {HIT_ZG} else s1
  }

  /** OnUpdate: the acceleration checks, then NOHIT_BADXG cleared by a wild sample. */
  function Update(c: Context, s: Bits, e: Element): Bits
  {
    if !Allowed(c) then s
    else
      var s1 := Forces(c, s, e);
      if Hit(e, Wild()) then s1 - {NOHIT_BADXG} else s1
  }

  /** OnEnd: the acceleration checks, END_R on the side, then NOHIT_BADXG cleared by a wild sample. */
  function End(c: Context, s: Bits, e: Element): Bits
  {
    if !Allowed(c) then s
    else
      var s1 := Forces(c, s, e);
      var s2 := if OnSide(e.roll) then s1 + {END_R} else s1;
      if Hit(e, Wild()) then s2 - {NOHIT_BADXG} else s2
  }

  /** The state after OnUpdate for each of the samples, in order. */
  function Updates(c: Context, s: Bits, us: seq<Element>): Bits
    decreases |us|
  {
    if |us| == 0 then s else Update(c, Updates(c, s, us[..|us| - 1]), us[|us| - 1])
  }

  /** The state after a whole motion: OnBegin, OnUpdate per update sample, then OnEnd. */
  function Run(c: Context, b: Element, us: seq<Element>, e: Element): Bits
  {
    End(c, Updates(c, Begin(c, b), us), e)
  }

  lemma {:induction false} UpdatesIdle(c: Context, s: Bits, us: seq<Element>)
    requires !Allowed(c)
    ensures Updates(c, s, us) == s
    decreases |us|
  {
    if |us| > 0 {
      UpdatesIdle(c, s, us[..|us| - 1]);
    }
  }

  /** Outside the player and binoculars states, or without a weapon, no bit is ever set. */
  lemma Gated(c: Context, b: Element, us: seq<Element>, e: Element)
    requires !Allowed(c)
    ensures Run(c, b, us, e) == {}
    ensures !Fired(Word(Run(c, b, us, e)), PASSED)
  {
    UpdatesIdle(c, {}, us);
  }

  lemma {:induction false} UpdateBits(c: Context, s: Bits, xs: seq<Element>)
    requires Allowed(c) && HIT_XG !in s && HIT_ZG !in s
    ensures var r := Updates(c, s, xs);
      && (HIT_XG in r <==> Any(xs, Swipe(c.tuning)))
      && (HIT_ZG in r <==> Any(xs, Chop(c.tuning)))
      && (NOHIT_BADXG in r <==> NOHIT_BADXG in s && !Any(xs, Wild()))
      && (BEGIN in r <==> BEGIN in s)
      && (END_R in r <==> END_R in s)
    decreases |xs|
  {
    if |xs| > 0 {
      var xs', x := xs[..|xs| - 1], xs[|xs| - 1];
      assert xs == xs' + [x];
      UpdateBits(c, s, xs');
      AnySnoc(xs', x, Swipe(c.tuning));
      AnySnoc(xs', x, Chop(c.tuning));
      AnySnoc(xs', x, Wild());
    }
  }

  /** Each bit after a whole motion, in terms of the samples. */
  lemma StateBits(c: Context, b: Element, us: seq<Element>, e: Element)
    requires Allowed(c)
    ensures var r := Run(c, b, us, e);
      && (BEGIN in r <==> PitchLevel(b.pitch))
      && (HIT_XG in r <==> Any(us + [e], Swipe(c.tuning)))
      && (HIT_ZG in r <==> Any(us + [e], Chop(c.tuning)))
      && (NOHIT_BADXG in r <==> b.accel.x < 3.0 && !Any(us + [e], Wild()))
      && (END_R in r <==> OnSide(e.roll))
  {
    UpdateBits(c, Begin(c, b), us);
    AnySnoc(us, e, Swipe(c.tuning));
    AnySnoc(us, e, Chop(c.tuning));
    AnySnoc(us, e, Wild());
  }

  /**
   * A melee fires iff it began level, x never reached 3 g, x and z each reached their
   * sensitivity, and it ended on the side.
   */
  lemma Fires(c: Context, b: Element, us: seq<Element>, e: Element)
    requires Allowed(c)
    ensures Fired(Word(Run(c, b, us, e)), PASSED)
        <==> (PitchLevel(b.pitch) && b.accel.x < 3.0 && !Any(us + [e], Wild())
              && Any(us + [e], Swipe(c.tuning)) && Any(us + [e], Chop(c.tuning)) && OnSide(e.roll))
  {
    StateBits(c, b, us, e);
    Passed(Run(c, b, us, e));
  }
}
