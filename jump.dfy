// CJumpMotion (JumpMotion.cpp): the one Nunchuk detector, an upward jerk of
// the Nunchuk held within the crouch tilt, that makes the player jump.
module JumpMotion {
  import opened Motion
  import opened Gesture

  /** The motion state bits. */
  const BEGIN: bv32 := 0x01
  const HITG: bv32 := 0x02

  /** The pass mask: both bits. */
  const PASSED: bv32 := 0x03

  const PRIORITY: real := 1.0

  lemma Passed(s: Bits)
    ensures Fired(Word(s), PASSED) <==> BEGIN in s && HITG in s
  {
  }

  /** On foot or looking through binoculars. */
  predicate Allowed(c: Context)
  {
    OnFoot(c)
  }

  /** z at or above JumpSensitivity. */
  function Jerk(t: Tuning): Test
  {
    AtLeast(Z, t.jump)
  }

  /** The begin position: pitch within CrouchTilt degrees of level. */
  predicate Upright(t: Tuning, pitch: real)
  {
    Rad(-t.crouchTilt) <= pitch <= Rad(t.crouchTilt)
  }

  /** OnBegin: the state is reset, then BEGIN is set within the crouch tilt. */
  function Begin(c: Context, e: Element): Bits
  {
    if Allowed(c) && Upright(c.tuning, e.pitch) then {BEGIN} else {}
  }

  /** OnUpdate and OnEnd alike: HITG on a jerk. */
  function Update(c: Context, s: Bits, e: Element): Bits
  {
    if Allowed(c) && Hit(e, Jerk(c.tuning)) then s + {HITG} else s
  }

  function End(c: Context, s: Bits, e: Element): Bits
  {
    if Allowed(c) && Hit(e, Jerk(c.tuning)) then s + {HITG} else s
  }

  /** The state after OnUpdate for each of the samples, in order. */
  function Updates(c: Context, s: Bits, us: seq<Element>): Bits
    decreases |us|
  {
    if |us| == 0 then s else Update(c, Updates(c, s, us[..|us| - 1]), us[|us| - 1])
  }

  /** The state after a whole motion: OnBegin, OnUpdate per update sample, then OnEnd. */
  function Run(c: Context, b: Element, us: seq<Element>, e: Element): Bits
  {
    End(c, Updates(c, Begin(c, b), us), e)
  }

  lemma {:induction false} UpdateBits(c: Context, s: Bits, xs: seq<Element>)
    ensures var r := Updates(c, s, xs);
      && (HITG in r <==> HITG in s || (Allowed(c) && Any(xs, Jerk(c.tuning))))
      && (BEGIN in r <==> BEGIN in s)
    decreases |xs|
  {
    if |xs| > 0 {
      var xs', x := xs[..|xs| - 1], xs[|xs| - 1];
      assert xs == xs' + [x];
      UpdateBits(c, s, xs');
      AnySnoc(xs', x, Jerk(c.tuning));
    }
  }

  /**
   * A jump fires iff the player is on foot or behind binoculars, it began within the
   * crouch tilt, and z reached JumpSensitivity on some sample after the first.
   */
  lemma Fires(c: Context, b: Element, us: seq<Element>, e: Element)
    ensures Fired(Word(Run(c, b, us, e)), PASSED)
        <==> Allowed(c) && Upright(c.tuning, b.pitch) && Any(us + [e], Jerk(c.tuning))
  {
    UpdateBits(c, Begin(c, b), us);
    AnySnoc(us, e, Jerk(c.tuning));
    Passed(Run(c, b, us, e));
  }
}
