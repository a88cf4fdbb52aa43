// CPickUpMotion (PickUpMotion.cpp): a scoop of the Wii Remote up and
// toward the player, ending pointed up, that picks up the object in front.
module PickUpMotion {
  import opened Motion
  import opened Gesture

  /** The motion state bits. */
  const BEGIN: bv32 := 0x01
  const HIT_YG: bv32 := 0x02
  const HIT_ZG: bv32 := 0x04
  const END: bv32 := 0x08

  /** The pass mask: all four bits. */
  const PASSED: bv32 := 0x0F

  const PRIORITY: real := 2.0

  lemma Passed(s: Bits)
    ensures Fired(Word(s), PASSED) <==> BEGIN in s && HIT_YG in s && HIT_ZG in s && END in s
  {
  }

  /** On foot or looking through binoculars. */
  predicate Allowed(c: Context)
  {
    OnFoot(c)
  }

  /** y at or above PickUpSensitivity. */
  function Lift(t: Tuning): Test
  {
    AtLeast(Y, t.pickUp)
  }

  /** z at or above PickUpSensitivity. */
  function Raise(t: Tuning): Test
  {
    AtLeast(Z, t.pickUp)
  }

  /** The end position: pitched up by at least 45 degrees. */
  predicate PointedUp(pitch: real)
  {
    pitch >= Rad(45.0)
  }

  /** OnBegin: the state is reset, then BEGIN is set for a level pitch. */
  function Begin(c: Context, e: Element): Bits
  {
    if Allowed(c) && PitchLevel(e.pitch) then {BEGIN} else {}
  }

  /** The acceleration checks OnUpdate and OnEnd share. */
  function Forces(c: Context, s: Bits, e: Element): Bits
  {
    var s1 := if Hit(e, Lift(c.tuning)) then s + {HIT_YG} else s;
    if Hit(e, Raise(c.tuning)) then s1 + {HIT_ZG} else s1
  }

  /** OnUpdate. */
  function Update(c: Context, s: Bits, e: Element): Bits
  {
    if Allowed(c) then Forces(c, s, e) else s
  }

  /** OnEnd: the acceleration checks, then END when pointed up. */
  function End(c: Context, s: Bits, e: Element): Bits
  {
    if !Allowed(c) then s
    else
      var s1 := Forces(c, s, e);
      if PointedUp(e.pitch) then s1 + {END} else s1
  }

  /** The state after OnUpdate for each of the samples, in order. */
  function Updates(c: Context, s: Bits, us: seq<Element>): Bits
    decreases |us|
  {
    if |us| == 0 then s else Update(c, Updates(c, s, us[..|us| - 1]), us[|us| - 1])
  }

  /** The state after a whole motion: OnBegin, OnUpdate per update sample, then OnEnd. */
  function Run(c: Context, b: Element, us: seq<Element>, e: Element): Bits
  {
    End(c, Updates(c, Begin(c, b), us), e)
  }

  lemma {:induction false} UpdatesIdle(c: Context, s: Bits, us: seq<Element>)
    requires !Allowed(c)
    ensures Updates(c, s, us) == s
    decreases |us|
  {
    if |us| > 0 {
      UpdatesIdle(c, s, us[..|us| - 1]);
    }
  }

  /** Outside the player and binoculars states no bit is ever set. */
  lemma Gated(c: Context, b: Element, us: seq<Element>, e: Element)
    requires !Allowed(c)
    ensures Run(c, b, us, e) == {}
    ensures !Fired(Word(Run(c, b, us, e)), PASSED)
  {
    UpdatesIdle(c, {}, us);
  }

  lemma {:induction false} UpdateBits(c: Context, s: Bits, xs: seq<Element>)
    requires Allowed(c) && HIT_YG !in s && HIT_ZG !in s
    ensures var r := Updates(c, s, xs);
      && (HIT_YG in r <==> Any(xs, Lift(c.tuning)))
      && (HIT_ZG in r <==> Any(xs, Raise(c.tuning)))
      && (BEGIN in r <==> BEGIN in s)
      && (END in r <==> END in s)
    decreases |xs|
  {
    if |xs| > 0 {
      var xs', x := xs[..|xs| - 1], xs[|xs| - 1];
      assert xs == xs' + [x];
      UpdateBits(c, s, xs');
      AnySnoc(xs', x, Lift(c.tuning));
      AnySnoc(xs', x, Raise(c.tuning));
    }
  }

  /** Each bit after a whole motion, in terms of the samples. */
  lemma StateBits(c: Context, b: Element, us: seq<Element>, e: Element)
    requires Allowed(c)
    ensures var r := Run(c, b, us, e);
      && (BEGIN in r <==> PitchLevel(b.pitch))
      && (HIT_YG in r <==> Any(us + [e], Lift(c.tuning)))
      && (HIT_ZG in r <==> Any(us + [e], Raise(c.tuning)))
      && (END in r <==> PointedUp(e.pitch))
  {
    UpdateBits(c, Begin(c, b), us);
    AnySnoc(us, e, Lift(c.tuning));
    AnySnoc(us, e, Raise(c.tuning));
  }

  /** A pick-up fires iff it began level, y and z each reached the sensitivity, and it ended pointed up. */
  lemma Fires(c: Context, b: Element, us: seq<Element>, e: Element)
    requires Allowed(c)
    ensures Fired(Word(Run(c, b, us, e)), PASSED)
        <==> (PitchLevel(b.pitch) && Any(us + [e], Lift(c.tuning)) && Any(us + [e], Raise(c.tuning))
              && PointedUp(e.pitch))
  {
    StateBits(c, b, us, e);
    Passed(Run(c, b, us, e));
  }
}
