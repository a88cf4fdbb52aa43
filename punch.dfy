// CPunchMotion (PunchMotion.cpp): with the fists out, a jab of the Wii
// Remote: y must swing negative first and positive on a later sample.
module PunchMotion {
  import opened Motion
  import opened Gesture

  /** The motion state bits. */
  const BEGIN: bv32 := 0x01
  const HITG: bv32 := 0x02
  const HITNG: bv32 := 0x04
  const END: bv32 := 0x08

  /** The pass mask: all four bits. */
  const PASSED: bv32 := 0x0F

  const PRIORITY: real := 1.0

  lemma Passed(s: Bits)
    ensures Fired(Word(s), PASSED) <==> BEGIN in s && HITG in s && HITNG in s && END in s
  {
  }

  /** On foot (not through binoculars), and CanPunch holds. */
  predicate Allowed(c: Context)
  {
    c.state == Player && c.game.canPunch
  }

  /** y at or below -PunchSensitivity: the wind-up. */
  function Wind(t: Tuning): Test
  {
    AtMost(Y, -t.punch)
  }

  /** y at or above PunchSensitivity: the strike. */
  function Strike(t: Tuning): Test
  {
    AtLeast(Y, t.punch)
  }

  /** OnBegin: the state is reset, then BEGIN is set for a level pitch. */
  function Begin(c: Context, e: Element): Bits
  {
    if Allowed(c) && PitchLevel(e.pitch) then {BEGIN} else {}
  }

  /** OnUpdate: HITNG until it is set; after that, HITG. */
  function Update(c: Context, s: Bits, e: Element): Bits
  {
    if !Allowed(c) then s
    else if HITNG !in s then (if Hit(e, Wind(c.tuning)) then s + {HITNG} else s)
    else if Hit(e, Strike(c.tuning)) then s + {HITG}
    else s
  }

  /** OnEnd: HITG if HITNG is set, then END for a level roll. */
  function End(c: Context, s: Bits, e: Element): Bits
  {
    if !Allowed(c) then s
    else
      var s1 := if HITNG in s && Hit(e, Strike(c.tuning)) then s + {HITG} else s;
      if RollLevel(e.roll) then s1 + {END} else s1
  }

  /** The state after OnUpdate for each of the samples, in order. */
  function Updates(c: Context, s: Bits, us: seq<Element>): Bits
    decreases |us|
  {
    if |us| == 0 then s else Update(c, Updates(c, s, us[..|us| - 1]), us[|us| - 1])
  }

  /** The state after a whole motion: OnBegin, OnUpdate per update sample, then OnEnd. */
  function Run(c: Context, b: Element, us: seq<Element>, e: Element): Bits
  {
    End(c, Updates(c, Begin(c, b), us), e)
  }

  lemma {:induction false} UpdatesIdle(c: Context, s: Bits, us: seq<Element>)
    requires !Allowed(c)
    ensures Updates(c, s, us) == s
    decreases |us|
  {
    if |us| > 0 {
      UpdatesIdle(c, s, us[..|us| - 1]);
    }
  }

  /** Outside the player state, or without the fists, no bit is ever set. */
  lemma Gated(c: Context, b: Element, us: seq<Element>, e: Element)
    requires !Allowed(c)
    ensures Run(c, b, us, e) == {}
    ensures !Fired(Word(Run(c, b, us, e)), PASSED)
  {
    UpdatesIdle(c, {}, us);
  }

  lemma {:induction false} UpdateBits(c: Context, s: Bits, xs: seq<Element>)
    requires Allowed(c) && HITG !in s && HITNG !in s
    ensures var r := Updates(c, s, xs);
      && (HITNG in r <==> Any(xs, Wind(c.tuning)))
      && (HITG in r <==> Then(xs, Wind(c.tuning), Strike(c.tuning)))
      && (BEGIN in r <==> BEGIN in s)
      && (END in r <==> END in s)
    decreases |xs|
  {
    if |xs| > 0 {
      var xs', x := xs[..|xs| - 1], xs[|xs| - 1];
      assert xs == xs' + [x];
      UpdateBits(c, s, xs');
      AnySnoc(xs', x, Wind(c.tuning));
      ThenSnoc(xs', x, Wind(c.tuning), Strike(c.tuning));
    }
  }

  /** Each bit after a whole motion, in terms of the samples. */
  lemma StateBits(c: Context, b: Element, us: seq<Element>, e: Element)
    requires Allowed(c)
    ensures var r := Run(c, b, us, e);
      && (BEGIN in r <==> PitchLevel(b.pitch))
      && (HITNG in r <==> Any(us, Wind(c.tuning)))
      && (HITG in r <==> Then(us + [e], Wind(c.tuning), Strike(c.tuning)))
      && (END in r <==> RollLevel(e.roll))
  {
    UpdateBits(c, Begin(c, b), us);
    ThenSnoc(us, e, Wind(c.tuning), Strike(c.tuning));
  }

  /**
   * A punch fires iff it began level, a wind-up sample is followed by a strictly later
   * strike sample, and it ended without roll; one sample can never do both.
   */
  lemma Fires(c: Context, b: Element, us: seq<Element>, e: Element)
    requires Allowed(c)
    ensures Fired(Word(Run(c, b, us, e)), PASSED)
        <==> PitchLevel(b.pitch) && Then(us + [e], Wind(c.tuning), Strike(c.tuning)) && RollLevel(e.roll)
  {
    StateBits(c, b, us, e);
    ThenNeedsEarlier(us, e, Wind(c.tuning), Strike(c.tuning));
    Passed(Run(c, b, us, e));
  }

  /** Neither the first update nor a motion without updates can set HITG. */
  lemma NoStrikeAlone(c: Context, s: Bits, x: Element)
    requires HITNG !in s && HITG !in s
    ensures HITG !in Update(c, s, x)
    ensures HITG !in End(c, s, x)
  {
  }
}
