// The vocabulary shared by the gesture detectors of the Motions directory:
// the game state and game queries a detector consults, the profile tunings
// it reads, the fire test of CBaseMotion, and predicates over the samples of
// one motion (the begin sample, the update samples and the end sample).
module Gesture {
  import opened Motion

  /** EStates: the game-side state the input listener hands to every detector callback. */
  datatype GameState = Player | NanosuitMenu | Binoculars | WeaponMenu
                     | LandVehicle | SeaVehicle | HeliVehicle | VtolVehicle

  /** Answers of the game-side queries CanZoom, CanChangeSeat, CanDrop, CanPunch and CanMelee. */
  datatype Game = Game(canZoom: bool, canChangeSeat: bool, canDrop: bool, canPunch: bool, canMelee: bool)

  /** The profile variables the detectors read (ZoomInSensitivity, ..., CrouchTilt). */
  datatype Tuning = Tuning(zoomIn: real, zoomOut: real, seatNext: real, seatPrev: real, throw: real,
                           drop: real, punch: real, melee: real, pickUp: real, jump: real, crouchTilt: real)

  /** Everything a detector callback consults besides the sample and its own state. */
  datatype Context = Context(state: GameState, game: Game, tuning: Tuning)

  predicate InMenu(c: Context)
  {
    c.state == NanosuitMenu || c.state == WeaponMenu
  }

  predicate OnFoot(c: Context)
  {
    c.state == Player || c.state == Binoculars
  }

  /** DEG2RAD, with PI = 3.14159265. */
  function Rad(deg: real): real
  {
    deg * 314159265.0 / 18000000000.0
  }

  /** A pitch within 30 degrees of level: the begin test of most detectors. */
  predicate PitchLevel(pitch: real)
  {
    Rad(-30.0) <= pitch <= Rad(30.0)
  }

  /** A roll strictly within 45 degrees of flat: the end test of several detectors. */
  predicate RollLevel(roll: real)
  {
    Rad(-45.0) < roll < Rad(45.0)
  }

  /** CBaseMotion::IsFired: every bit of the pass mask is set in the motion state. */
  predicate Fired(state: bv32, mask: bv32)
  {
    state & mask == mask
  }

  /** A zero pass mask fires on every state. */
  lemma ZeroMaskFires(state: bv32)
    ensures Fired(state, 0)
  {
  }

  /** One of the single-bit flags the detectors keep in their motion state. */
  predicate Flag(b: bv32)
  {
    b == 0x01 || b == 0x02 || b == 0x04 || b == 0x08 || b == 0x10
  }

  /**
   * A motion state as the set of its flags: `s + {F}` is `state |= F` and
   * `s - {F}` is `state &= ~F`; Word gives the integer itself.
   */
  type Bits = set<bv32>

  function Word(s: Bits): bv32
  {
    (if 0x01 in s then 0x01 else 0) | (if 0x02 in s then 0x02 else 0) | (if 0x04 in s then 0x04 else 0)
    | (if 0x08 in s then 0x08 else 0) | (if 0x10 in s then 0x10 else 0)
  }

  /** A flag's bit is set in the word iff the flag is in the state. */
  lemma WordHas(s: Bits, f: bv32)
    requires Flag(f)
    ensures Word(s) & f == f <==> f in s
  {
  }

  /** An axis of an acceleration. */
  datatype Axis = X | Y | Z

  function Along(v: Vec3, a: Axis): real
  {
    match a
    case X => v.x
    case Y => v.y
    case Z => v.z
  }

  /** A threshold test on one axis of a sample's acceleration. */
  datatype Test = AtLeast(axis: Axis, bound: real) | AtMost(axis: Axis, bound: real)

  predicate Hit(e: Element, t: Test)
  {
    match t
    case AtLeast(a, b) => Along(e.accel, a) >= b
    case AtMost(a, b) => Along(e.accel, a) <= b
  }

  /** Some sample passes the test. */
  predicate Any(xs: seq<Element>, t: Test)
  {
    exists j :: 0 <= j < |xs| && Hit(xs[j], t)
  }

  /** Some sample passes `good` while no earlier sample has passed `bad`. */
  predicate Before(xs: seq<Element>, good: Test, bad: Test)
  {
    exists j :: 0 <= j < |xs| && Hit(xs[j], good) && forall i :: 0 <= i < j ==> !Hit(xs[i], bad)
  }

  /** A sample passes `first` and a strictly later one passes `second`. */
  predicate Then(xs: seq<Element>, first: Test, second: Test)
  {
    exists i, j :: 0 <= i < j < |xs| && Hit(xs[i], first) && Hit(xs[j], second)
  }

  lemma AnySnoc(xs: seq<Element>, x: Element, t: Test)
    ensures Any(xs + [x], t) <==> Any(xs, t) || Hit(x, t)
  {
    var ys := xs + [x];
    assert ys[|xs|] == x;
    if Any(xs, t) {
      var j :| 0 <= j < |xs| && Hit(xs[j], t);
      assert ys[j] == xs[j];
    }
    if Any(ys, t) && !Hit(x, t) {
      var j :| 0 <= j < |ys| && Hit(ys[j], t);
      assert j < |xs| && ys[j] == xs[j];
    }
  }

  lemma BeforeSnoc(xs: seq<Element>, x: Element, good: Test, bad: Test)
    ensures Before(xs + [x], good, bad) <==> Before(xs, good, bad) || (Hit(x, good) && !Any(xs, bad))
  {
    var ys := xs + [x];
    assert ys[|xs|] == x;
    assert forall i :: 0 <= i < |xs| ==> ys[i] == xs[i];
    if Before(xs, good, bad) {
      var j :| 0 <= j < |xs| && Hit(xs[j], good) && forall i :: 0 <= i < j ==> !Hit(xs[i], bad);
      assert Hit(ys[j], good) && forall i :: 0 <= i < j ==> !Hit(ys[i], bad);
    }
    if Hit(x, good) && !Any(xs, bad) {
      assert forall i :: 0 <= i < |xs| ==> !Hit(ys[i], bad);
      assert Hit(ys[|xs|], good);
    }
    if Before(ys, good, bad) && !Before(xs, good, bad) {
      var j :| 0 <= j < |ys| && Hit(ys[j], good) && forall i :: 0 <= i < j ==> !Hit(ys[i], bad);
      assert j == |xs| && Hit(x, good);
      assert !Any(xs, bad);
    }
  }

  lemma ThenSnoc(xs: seq<Element>, x: Element, first: Test, second: Test)
    ensures Then(xs + [x], first, second) <==> Then(xs, first, second) || (Any(xs, first) && Hit(x, second))
  {
    var ys := xs + [x];
    assert ys[|xs|] == x;
    assert forall i :: 0 <= i < |xs| ==> ys[i] == xs[i];
    if Then(xs, first, second) {
      var i, j :| 0 <= i < j < |xs| && Hit(xs[i], first) && Hit(xs[j], second);
      assert Hit(ys[i], first) && Hit(ys[j], second);
    }
    if Any(xs, first) && Hit(x, second) {
      var i :| 0 <= i < |xs| && Hit(xs[i], first);
      assert Hit(ys[i], first) && Hit(ys[|xs|], second);
    }
    if Then(ys, first, second) && !Then(xs, first, second) {
      var i, j :| 0 <= i < j < |ys| && Hit(ys[i], first) && Hit(ys[j], second);
      assert j == |xs| && Hit(xs[i], first);
    }
  }

  /** What a run of samples has established is never undone by further samples. */
  lemma {:induction false} EvidenceStays(xs: seq<Element>, ys: seq<Element>, a: Test, b: Test)
    ensures Any(xs, a) ==> Any(xs + ys, a)
    ensures Before(xs, a, b) ==> Before(xs + ys, a, b)
    ensures Then(xs, a, b) ==> Then(xs + ys, a, b)
  {
    var zs := xs + ys;
    assert forall i :: 0 <= i < |xs| ==> zs[i] == xs[i];
    if Any(xs, a) {
      var j :| 0 <= j < |xs| && Hit(xs[j], a);
      assert Hit(zs[j], a);
    }
    if Before(xs, a, b) {
      var j :| 0 <= j < |xs| && Hit(xs[j], a) && forall i :: 0 <= i < j ==> !Hit(xs[i], b);
      assert Hit(zs[j], a) && forall i :: 0 <= i < j ==> !Hit(zs[i], b);
    }
    if Then(xs, a, b) {
      var i, j :| 0 <= i < j < |xs| && Hit(xs[i], a) && Hit(xs[j], b);
      assert Hit(zs[i], a) && Hit(zs[j], b);
    }
  }

  /** The first sample of a strict succession is always a sample before the last one. */
  lemma ThenNeedsEarlier(xs: seq<Element>, x: Element, first: Test, second: Test)
    ensures Then(xs + [x], first, second) ==> Any(xs, first)
  {
    ThenSnoc(xs, x, first, second);
    if Then(xs, first, second) {
      var i, j :| 0 <= i < j < |xs| && Hit(xs[i], first) && Hit(xs[j], second);
    }
  }
}
