// CSeatNextMotion and CSeatPrevMotion (SeatMotion.cpp): a sideways swing of
// the Wii Remote held level, while in a vehicle, moves the player to the
// next or the previous seat.
module SeatMotion {
  import opened Wrappers
  import opened Motion
  import opened Gesture

  /** The motion state bits of both detectors. */
  const BEGIN: bv32 := 0x01
  const GOODG: bv32 := 0x02
  const BADG: bv32 := 0x04
  const END: bv32 := 0x08

  /** The pass mask both detectors are registered with: BEGIN | GOODG | END. */
  const PASSED: bv32 := 0x0B

  const PRIORITY_NEXT: real := 0.50
  const PRIORITY_PREV: real := 0.51

  lemma Passed(s: Bits)
    ensures Fired(Word(s), PASSED) <==> BEGIN in s && GOODG in s && END in s
  {
  }

  /** The two detectors of the file. */
  datatype Way = Next | Prev

  /** Not in a menu, and in a vehicle (CanChangeSeat). */
  predicate Allowed(c: Context)
  {
    !InMenu(c) && c.game.canChangeSeat
  }

  /** The swing that changes seat: x at or below -Veh_SeatNextSensitivity (next), at or above Veh_SeatPrevSensitivity (previous). */
  function Good(w: Way, t: Tuning): Test
  {
    match w
    case Next => AtMost(X, -t.seatNext)
    case Prev => AtLeast(X, t.seatPrev)
  }

  /** The swing the other way, which rules the gesture out if it comes first. */
  function Bad(w: Way, t: Tuning): Test
  {
    match w
    case Next => AtLeast(X, t.seatNext)
    case Prev => AtMost(X, -t.seatPrev)
  }

  /** OnBegin: the state is reset, then BEGIN is set for a level pitch. */
  function Begin(w: Way, c: Context, e: Element): Bits
  {
    if Allowed(c) && PitchLevel(e.pitch) then {BEGIN} else {}
  }

  /** The acceleration checks OnUpdate and OnEnd share: GOODG unless BADG came first, then BADG. */
  function Swing(w: Way, c: Context, s: Bits, e: Element): Bits
  {
    var s1 := if Hit(e, Good(w, c.tuning)) && BADG !in s then s + {GOODG} else s;
    if Hit(e, Bad(w, c.tuning)) then s1 + {BADG} else s1
  }

  /** OnUpdate. */
  function Update(w: Way, c: Context, s: Bits, e: Element): Bits
  {
    if Allowed(c) then Swing(w, c, s, e) else s
  }

  /** OnEnd: the swing checks, then END for a level roll. */
  function End(w: Way, c: Context, s: Bits, e: Element): Bits
  {
    if !Allowed(c) then s
    else
      var s1 := Swing(w, c, s, e);
      if RollLevel(e.roll) then s1 + {END} else s1
  }

  /** The state after OnUpdate for each of the samples, in order. */
  function Updates(w: Way, c: Context, s: Bits, us: seq<Element>): Bits
    decreases |us|
  {
    if |us| == 0 then s else Update(w, c, Updates(w, c, s, us[..|us| - 1]), us[|us| - 1])
  }

  /** The state after a whole motion: OnBegin, OnUpdate per update sample, then OnEnd. */
  function Run(w: Way, c: Context, b: Element, us: seq<Element>, e: Element): Bits
  {
    End(w, c, Updates(w, c, Begin(w, c, b), us), e)
  }

  lemma {:induction false} UpdatesIdle(w: Way, c: Context, s: Bits, us: seq<Element>)
    requires !Allowed(c)
    ensures Updates(w, c, s, us) == s
    decreases |us|
  {
    if |us| > 0 {
      UpdatesIdle(w, c, s, us[..|us| - 1]);
    }
  }

  /** In a menu, or outside a vehicle, no bit is ever set. */
  lemma Gated(w: Way, c: Context, b: Element, us: seq<Element>, e: Element)
    requires !Allowed(c)
    ensures Run(w, c, b, us, e) == {}
    ensures !Fired(Word(Run(w, c, b, us, e)), PASSED)
  {
    UpdatesIdle(w, c, {}, us);
  }

  /** After the update samples, GOODG says a good swing came before any bad one, and BADG that a bad one came. */
  lemma {:induction false} UpdateBits(w: Way, c: Context, s: Bits, xs: seq<Element>)
    requires Allowed(c) && GOODG !in s && BADG !in s
    ensures var r := Updates(w, c, s, xs);
      && (GOODG in r <==> Before(xs, Good(w, c.tuning), Bad(w, c.tuning)))
      && (BADG in r <==> Any(xs, Bad(w, c.tuning)))
      && (BEGIN in r <==> BEGIN in s)
      && (END in r <==> END in s)
    decreases |xs|
  {
    if |xs| > 0 {
      var xs', x := xs[..|xs| - 1], xs[|xs| - 1];
      assert xs == xs' + [x];
      UpdateBits(w, c, s, xs');
      BeforeSnoc(xs', x, Good(w, c.tuning), Bad(w, c.tuning));
      AnySnoc(xs', x, Bad(w, c.tuning));
    }
  }

  /** Each bit after a whole motion, in terms of the samples. */
  lemma StateBits(w: Way, c: Context, b: Element, us: seq<Element>, e: Element)
    requires Allowed(c)
    ensures var r := Run(w, c, b, us, e);
      && (BEGIN in r <==> PitchLevel(b.pitch))
      && (GOODG in r <==> Before(us + [e], Good(w, c.tuning), Bad(w, c.tuning)))
      && (BADG in r <==> Any(us + [e], Bad(w, c.tuning)))
      && (END in r <==> RollLevel(e.roll))
  {
    var s := Begin(w, c, b);
    UpdateBits(w, c, s, us);
    BeforeSnoc(us, e, Good(w, c.tuning), Bad(w, c.tuning));
    AnySnoc(us, e, Bad(w, c.tuning));
  }

  /** A seat change fires iff it began level, a good swing came before any bad one, and it ended without roll. */
  lemma Fires(w: Way, c: Context, b: Element, us: seq<Element>, e: Element)
    requires Allowed(c)
    ensures Fired(Word(Run(w, c, b, us, e)), PASSED)
        <==> PitchLevel(b.pitch) && Before(us + [e], Good(w, c.tuning), Bad(w, c.tuning)) && RollLevel(e.roll)
  {
    StateBits(w, c, b, us, e);
    Passed(Run(w, c, b, us, e));
  }

  /** A vehicle seat id; the engine's TVehicleSeatId is taken to be an unsigned 16-bit integer. */
  type SeatId = x: int | 0 <= x < 0x1_0000

  /** Execute of CSeatNextMotion: the seat after this one, the last wrapping to the first. */
  function NextSeat(seat: SeatId, last: SeatId): SeatId
  {
    if seat == last then 1 else (seat + 1) % 0x1_0000
  }

  /** Execute of CSeatPrevMotion: the seat before this one, the first wrapping to the last. */
  function PrevSeat(seat: SeatId, last: SeatId): SeatId
  {
    if seat == 1 then last else (seat - 1) % 0x1_0000
  }

  /** The change-seat action sent for a seat: only seats 1 to 5 have one. */
  function SeatAction(seat: SeatId): Option<int>
  {
    if 1 <= seat <= 5 then Some(seat) else None
  }

  /** On a vehicle's seats 1..last, next and previous stay on the seats and undo each other. */
  lemma SeatCycle(seat: SeatId, last: SeatId)
    requires 1 <= seat <= last
    ensures 1 <= NextSeat(seat, last) <= last && 1 <= PrevSeat(seat, last) <= last
    ensures PrevSeat(NextSeat(seat, last), last) == seat
    ensures NextSeat(PrevSeat(seat, last), last) == seat
  {
  }

  /** From the last seat the next is the first, and from the first the previous is the last. */
  lemma SeatWrap(last: SeatId)
    requires 1 <= last
    ensures NextSeat(last, last) == 1 && PrevSeat(1, last) == last
  {
  }
}
