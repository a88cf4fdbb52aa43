// CZoomInMotion and CZoomOutMotion (ZoomMotion.cpp): a push forward (zoom
// in) or a pull back (zoom out) of the Wii Remote held level, while the
// current item is binoculars or a weapon or the player is a vehicle gunner.
module ZoomMotion {
  import opened Motion
  import opened Gesture

  /** The motion state bits of both detectors. */
  const BEGIN: bv32 := 0x01
  const GOODG: bv32 := 0x02
  const BADG: bv32 := 0x04
  const END: bv32 := 0x08

  /** The pass mask both detectors are registered with: BEGIN | GOODG | END. */
  const PASSED: bv32 := 0x0B

  const PRIORITY_IN: real := 0.40
  const PRIORITY_OUT: real := 0.41

  /** The pass mask asks for exactly BEGIN, GOODG and END. */
  lemma Passed(s: Bits)
    ensures Fired(Word(s), PASSED) <==> BEGIN in s && GOODG in s && END in s
  {
  }

  /** The two detectors of the file. */
  datatype Way = In | Out

  /** Not in a menu, and CanZoom holds. */
  predicate Allowed(c: Context)
  {
    !InMenu(c) && c.game.canZoom
  }

  /** The swing that zooms: y at or below -ZoomInSensitivity (in), at or above ZoomOutSensitivity (out). */
  function Good(w: Way, t: Tuning): Test
  {
    match w
    case In => AtMost(Y, -t.zoomIn)
    case Out => AtLeast(Y, t.zoomOut)
  }

  /** The swing the other way, which rules the gesture out if it comes first. */
  function Bad(w: Way, t: Tuning): Test
  {
    match w
    case In => AtLeast(Y, t.zoomIn)
    case Out => AtMost(Y, -t.zoomOut)
  }

  /** OnBegin: the state is reset, then BEGIN is set for a level pitch. */
  function Begin(w: Way, c: Context, e: Element): Bits
  {
    if Allowed(c) && PitchLevel(e.pitch) then {BEGIN} else {}
  }

  /** The acceleration checks OnUpdate and OnEnd share: GOODG unless BADG came first, then BADG. */
  function Swing(w: Way, c: Context, s: Bits, e: Element): Bits
  {
    var s1 := if Hit(e, Good(w, c.tuning)) && BADG !in s then s + {GOODG} else s;
    if Hit(e, Bad(w, c.tuning)) then s1 + {BADG} else s1
  }

  /** OnUpdate. */
  function Update(w: Way, c: Context, s: Bits, e: Element): Bits
  {
    if Allowed(c) then Swing(w, c, s, e) else s
  }

  /** OnEnd: the swing checks, then END for a level roll. */
  function End(w: Way, c: Context, s: Bits, e: Element): Bits
  {
    if !Allowed(c) then s
    else
      var s1 := Swing(w, c, s, e);
      if RollLevel(e.roll) then s1 + {END} else s1
  }

  /** The state after OnUpdate for each of the samples, in order. */
  function Updates(w: Way, c: Context, s: Bits, us: seq<Element>): Bits
    decreases |us|
  {
    if |us| == 0 then s else Update(w, c, Updates(w, c, s, us[..|us| - 1]), us[|us| - 1])
  }

  /** The state after a whole motion: OnBegin, OnUpdate per update sample, then OnEnd. */
  function Run(w: Way, c: Context, b: Element, us: seq<Element>, e: Element): Bits
  {
    End(w, c, Updates(w, c, Begin(w, c, b), us), e)
  }

  lemma {:induction false} UpdatesIdle(w: Way, c: Context, s: Bits, us: seq<Element>)
    requires !Allowed(c)
    ensures Updates(w, c, s, us) == s
    decreases |us|
  {
    if |us| > 0 {
      UpdatesIdle(w, c, s, us[..|us| - 1]);
    }
  }

  /** Outside the states zoom applies to, or without something to zoom, no bit is ever set. */
  lemma Gated(w: Way, c: Context, b: Element, us: seq<Element>, e: Element)
    requires !Allowed(c)
    ensures Run(w, c, b, us, e) == {}
    ensures !Fired(Word(Run(w, c, b, us, e)), PASSED)
  {
    UpdatesIdle(w, c, {}, us);
  }

  /** One swing check in terms of the bits before it. */
  lemma SwingStep(w: Way, c: Context, s: Bits, e: Element)
    ensures var r := Swing(w, c, s, e);
      && (GOODG in r <==> GOODG in s || (Hit(e, Good(w, c.tuning)) && BADG !in s))
      && (BADG in r <==> BADG in s || Hit(e, Bad(w, c.tuning)))
      && (BEGIN in r <==> BEGIN in s)
      && (END in r <==> END in s)
  {
  }

  /** After the update samples, GOODG says a good swing came before any bad one, and BADG that a bad one came. */
  lemma {:induction false} UpdateBits(w: Way, c: Context, s: Bits, xs: seq<Element>)
    requires Allowed(c) && GOODG !in s && BADG !in s
    ensures var r := Updates(w, c, s, xs);
      && (GOODG in r <==> Before(xs, Good(w, c.tuning), Bad(w, c.tuning)))
      && (BADG in r <==> Any(xs, Bad(w, c.tuning)))
      && (BEGIN in r <==> BEGIN in s)
      && (END in r <==> END in s)
    decreases |xs|
  {
    if |xs| > 0 {
      var xs', x := xs[..|xs| - 1], xs[|xs| - 1];
      assert xs == xs' + [x];
      UpdateBits(w, c, s, xs');
      SwingStep(w, c, Updates(w, c, s, xs'), x);
      BeforeSnoc(xs', x, Good(w, c.tuning), Bad(w, c.tuning));
      AnySnoc(xs', x, Bad(w, c.tuning));
    }
  }

  /** Each bit after a whole motion, in terms of the samples. */
  lemma StateBits(w: Way, c: Context, b: Element, us: seq<Element>, e: Element)
    requires Allowed(c)
    ensures var r := Run(w, c, b, us, e);
      && (BEGIN in r <==> PitchLevel(b.pitch))
      && (GOODG in r <==> Before(us + [e], Good(w, c.tuning), Bad(w, c.tuning)))
      && (BADG in r <==> Any(us + [e], Bad(w, c.tuning)))
      && (END in r <==> RollLevel(e.roll))
  {
    var s := Begin(w, c, b);
    UpdateBits(w, c, s, us);
    var u := Updates(w, c, s, us);
    SwingStep(w, c, u, e);
    BeforeSnoc(us, e, Good(w, c.tuning), Bad(w, c.tuning));
    AnySnoc(us, e, Bad(w, c.tuning));
  }

  /**
   * A zoom fires iff it began level, a good swing came before any bad one, and it ended
   * without roll; a bad swing after the good one does not cancel it.
   */
  lemma Fires(w: Way, c: Context, b: Element, us: seq<Element>, e: Element)
    requires Allowed(c)
    ensures Fired(Word(Run(w, c, b, us, e)), PASSED)
        <==> PitchLevel(b.pitch) && Before(us + [e], Good(w, c.tuning), Bad(w, c.tuning)) && RollLevel(e.roll)
  {
    StateBits(w, c, b, us, e);
    Passed(Run(w, c, b, us, e));
  }

  /** The sample with its y acceleration negated. */
  function FlipY(e: Element): Element
  {
    e.(accel := Vec3(e.accel.x, -e.accel.y, e.accel.z))
  }

  function FlipAll(us: seq<Element>): (r: seq<Element>)
    ensures |r| == |us|
    ensures forall i :: 0 <= i < |us| ==> r[i] == FlipY(us[i])
    decreases |us|
  {
    if |us| == 0 then [] else FlipAll(us[..|us| - 1]) + [FlipY(us[|us| - 1])]
  }

  /** The context in which zoom in reads ZoomOutSensitivity. */
  function AsIn(c: Context): Context
  {
    c.(tuning := c.tuning.(zoomIn := c.tuning.zoomOut))
  }

  lemma {:induction false} MirrorUpdates(c: Context, s: Bits, us: seq<Element>)
    ensures Updates(Out, c, s, us) == Updates(In, AsIn(c), s, FlipAll(us))
    decreases |us|
  {
    if |us| > 0 {
      MirrorUpdates(c, s, us[..|us| - 1]);
      assert FlipAll(us)[..|us| - 1] == FlipAll(us[..|us| - 1]);
    }
  }

  /** Zoom out is zoom in with the y axis reversed and its own sensitivity. */
  lemma Mirror(c: Context, b: Element, us: seq<Element>, e: Element)
    ensures Run(Out, c, b, us, e) == Run(In, AsIn(c), b, FlipAll(us), FlipY(e))
  {
    MirrorUpdates(c, Begin(Out, c, b), us);
  }
}
