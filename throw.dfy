// CThrowMotion (ThrowMotion.cpp): an overhand throw of the Wii Remote that
// throws the held object or a grenade. The z acceleration must swing back
// and then forward, and a strong downward y swing at any point (a punch)
// rules the throw out for the rest of the motion.
module ThrowMotion {
  import opened Motion
  import opened Gesture

  /** The motion state bits. */
  const HIT_YG: bv32 := 0x01
  const HIT_ZG_N: bv32 := 0x02
  const HIT_ZG_P: bv32 := 0x04
  const END: bv32 := 0x08
  const NOHIT_NEGY: bv32 := 0x10

  /** The pass mask: all five bits. */
  const PASSED: bv32 := 0x1F

  const PRIORITY: real := 3.0

  lemma Passed(s: Bits)
    ensures Fired(Word(s), PASSED)
        <==> HIT_YG in s && HIT_ZG_N in s && HIT_ZG_P in s && END in s && NOHIT_NEGY in s
  {
  }

  /** On foot or looking through binoculars. */
  predicate Allowed(c: Context)
  {
    OnFoot(c)
  }

  /** y at or above ThrowSensitivity. */
  function Lift(t: Tuning): Test
  {
    AtLeast(Y, t.throw)
  }

  /** y at or below -1.5 g: the sign of a punch. */
  function Dive(): Test
  {
    AtMost(Y, -1.5)
  }

  /** z at or below half the negative ThrowSensitivity: the arm goes back. */
  function Back(t: Tuning): Test
  {
    AtMost(Z, -t.throw * 0.5)
  }

  /** z at or above ThrowSensitivity: the arm comes forward. */
  function Forth(t: Tuning): Test
  {
    AtLeast(Z, t.throw)
  }

  /** The end position: pitch within 45 degrees and roll strictly within 45 degrees of level. */
  predicate EndPose(e: Element)
  {
    Rad(-45.0) <= e.pitch <= Rad(45.0) && RollLevel(e.roll)
  }

  /** OnBegin: the state is reset, then NOHIT_NEGY is set unless y is already at or below -1.5. */
  function Begin(c: Context, e: Element): Bits
  {
    if Allowed(c) && e.accel.y > -1.5 then {NOHIT_NEGY} else {}
  }

  /** The y checks OnUpdate and OnEnd share: HIT_YG, then NOHIT_NEGY cleared by a dive. */
  function Lifts(c: Context, s: Bits, e: Element): Bits
  {
    var s1 := if Hit(e, Lift(c.tuning)) then s + {HIT_YG} else s;
    if Hit(e, Dive()) then s1 - {NOHIT_NEGY} else s1
  }

  /** OnUpdate: the y checks, then HIT_ZG_N until it is set and HIT_ZG_P only after it. */
  function Update(c: Context, s: Bits, e: Element): Bits
  {
    if !Allowed(c) then s
    else
      var s1 := Lifts(c, s, e);
      if HIT_ZG_N !in s1 then (if Hit(e, Back(c.tuning)) then s1 + {HIT_ZG_N} else s1)
      else if Hit(e, Forth(c.tuning)) then s1 + {HIT_ZG_P}
      else s1
  }

  /** OnEnd: the y checks, HIT_ZG_P if HIT_ZG_N is set, and END for the end position. */
  function End(c: Context, s: Bits, e: Element): Bits
  {
    if !Allowed(c) then s
    else
      var s1 := Lifts(c, s, e);
      var s2 := if HIT_ZG_N in s1 && Hit(e, Forth(c.tuning)) then s1 + {HIT_ZG_P} else s1;
      if EndPose(e) then s2 + {END} else s2
  }

  /** The state after OnUpdate for each of the samples, in order. */
  function Updates(c: Context, s: Bits, us: seq<Element>): Bits
    decreases |us|
  {
    if |us| == 0 then s else Update(c, Updates(c, s, us[..|us| - 1]), us[|us| - 1])
  }

  /** The state after a whole motion: OnBegin, OnUpdate per update sample, then OnEnd. */
  function Run(c: Context, b: Element, us: seq<Element>, e: Element): Bits
  {
    End(c, Updates(c, Begin(c, b), us), e)
  }

  lemma {:induction false} UpdatesIdle(c: Context, s: Bits, us: seq<Element>)
    requires !Allowed(c)
    ensures Updates(c, s, us) == s
    decreases |us|
  {
    if |us| > 0 {
      UpdatesIdle(c, s, us[..|us| - 1]);
    }
  }

  /** Outside the player and binoculars states no bit is ever set. */
  lemma Gated(c: Context, b: Element, us: seq<Element>, e: Element)
    requires !Allowed(c)
    ensures Run(c, b, us, e) == {}
    ensures !Fired(Word(Run(c, b, us, e)), PASSED)
  {
    UpdatesIdle(c, {}, us);
  }

  /** The bits after the update samples, from a state holding at most NOHIT_NEGY. */
  lemma {:induction false} UpdateBits(c: Context, s: Bits, xs: seq<Element>)
    requires Allowed(c) && HIT_YG !in s && HIT_ZG_N !in s && HIT_ZG_P !in s && END !in s
    ensures var r := Updates(c, s, xs);
      && (HIT_YG in r <==> Any(xs, Lift(c.tuning)))
      && (NOHIT_NEGY in r <==> NOHIT_NEGY in s && !Any(xs, Dive()))
      && (HIT_ZG_N in r <==> Any(xs, Back(c.tuning)))
      && (HIT_ZG_P in r <==> Then(xs, Back(c.tuning), Forth(c.tuning)))
      && END !in r
    decreases |xs|
  {
    if |xs| > 0 {
      var xs', x := xs[..|xs| - 1], xs[|xs| - 1];
      assert xs == xs' + [x];
      UpdateBits(c, s, xs');
      AnySnoc(xs', x, Lift(c.tuning));
      AnySnoc(xs', x, Dive());
      AnySnoc(xs', x, Back(c.tuning));
      ThenSnoc(xs', x, Back(c.tuning), Forth(c.tuning));
    }
  }

  /** Each bit after a whole motion, in terms of the samples. */
  lemma StateBits(c: Context, b: Element, us: seq<Element>, e: Element)
    requires Allowed(c)
    ensures var r := Run(c, b, us, e);
      && (HIT_YG in r <==> Any(us + [e], Lift(c.tuning)))
      && (NOHIT_NEGY in r <==> !Hit(b, Dive()) && !Any(us + [e], Dive()))
      && (HIT_ZG_N in r <==> Any(us, Back(c.tuning)))
      && (HIT_ZG_P in r <==> Then(us + [e], Back(c.tuning), Forth(c.tuning)))
      && (END in r <==> EndPose(e))
  {
    UpdateBits(c, Begin(c, b), us);
    AnySnoc(us, e, Lift(c.tuning));
    AnySnoc(us, e, Dive());
    ThenSnoc(us, e, Back(c.tuning), Forth(c.tuning));
  }

  /** HIT_ZG_P is never set without HIT_ZG_N: the forward swing only counts after the backward one. */
  lemma ForwardNeedsBack(c: Context, b: Element, us: seq<Element>, e: Element)
    requires Allowed(c)
    ensures HIT_ZG_P in Run(c, b, us, e) ==> HIT_ZG_N in Run(c, b, us, e)
  {
    StateBits(c, b, us, e);
    ThenNeedsEarlier(us, e, Back(c.tuning), Forth(c.tuning));
  }

  /**
   * A throw fires iff no sample of the motion dives to -1.5 g in y, y reaches the
   * sensitivity, z swings back and later forward, and the motion ends level.
   */
  lemma Fires(c: Context, b: Element, us: seq<Element>, e: Element)
    requires Allowed(c)
    ensures Fired(Word(Run(c, b, us, e)), PASSED)
        <==> (!Hit(b, Dive()) && !Any(us + [e], Dive()) && Any(us + [e], Lift(c.tuning))
              && Then(us + [e], Back(c.tuning), Forth(c.tuning)) && EndPose(e))
  {
    StateBits(c, b, us, e);
    ForwardNeedsBack(c, b, us, e);
    Passed(Run(c, b, us, e));
  }

  /** Once a dive has cleared NOHIT_NEGY no later update brings it back. */
  lemma {:induction false} DiveLatches(c: Context, s: Bits, xs: seq<Element>)
    requires NOHIT_NEGY !in s
    ensures NOHIT_NEGY !in Updates(c, s, xs)
    decreases |xs|
  {
    if |xs| > 0 {
      DiveLatches(c, s, xs[..|xs| - 1]);
    }
  }
}
