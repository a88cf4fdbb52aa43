// CBaseMotion and the motion auto-registration list (BaseMotion.h,
// BaseMotion.cpp): the detector object every gesture class derives from,
// with its state word, pass mask and priority, and the static singly linked
// list each REGISTER_MOTION line appends itself to.
module BaseMotion {
  import Motion
  import opened Gesture
  import ZoomMotion
  import SeatMotion
  import ThrowMotion
  import DropMotion
  import PunchMotion
  import MeleeMotion
  import PickUpMotion
  import JumpMotion

  type Element = Motion.Element

  /** The controller a registration belongs to. */
  const WIIMOTE: int := 0
  const NUNCHUK: int := 1

  /** The registered detector classes, one per REGISTER_MOTION line. */
  datatype Kind = ZoomIn | ZoomOut | SeatNext | SeatPrev | Throw | Drop | Punch | Melee | PickUp | Jump

  /** The derived class's OnBegin (after the base reset). */
  function Begin(k: Kind, c: Context, e: Element): Bits
  {
    match k
    case ZoomIn => ZoomMotion.Begin(ZoomMotion.In, c, e)
    case ZoomOut => ZoomMotion.Begin(ZoomMotion.Out, c, e)
    case SeatNext => SeatMotion.Begin(SeatMotion.Next, c, e)
    case SeatPrev => SeatMotion.Begin(SeatMotion.Prev, c, e)
    case Throw => ThrowMotion.Begin(c, e)
    case Drop => DropMotion.Begin(c, e)
    case Punch => PunchMotion.Begin(c, e)
    case Melee => MeleeMotion.Begin(c, e)
    case PickUp => PickUpMotion.Begin(c, e)
    case Jump => JumpMotion.Begin(c, e)
  }

  /** The derived class's OnUpdate. */
  function Update(k: Kind, c: Context, s: Bits, e: Element): Bits
  {
    match k
    case ZoomIn => ZoomMotion.Update(ZoomMotion.In, c, s, e)
    case ZoomOut => ZoomMotion.Update(ZoomMotion.Out, c, s, e)
    case SeatNext => SeatMotion.Update(SeatMotion.Next, c, s, e)
    case SeatPrev => SeatMotion.Update(SeatMotion.Prev, c, s, e)
    case Throw => ThrowMotion.Update(c, s, e)
    case Drop => DropMotion.Update(c, s, e)
    case Punch => PunchMotion.Update(c, s, e)
    case Melee => MeleeMotion.Update(c, s, e)
    case PickUp => PickUpMotion.Update(c, s, e)
    case Jump => JumpMotion.Update(c, s, e)
  }

  /** The derived class's OnEnd. */
  function End(k: Kind, c: Context, s: Bits, e: Element): Bits
  {
    match k
    case ZoomIn => ZoomMotion.End(ZoomMotion.In, c, s, e)
    case ZoomOut => ZoomMotion.End(ZoomMotion.Out, c, s, e)
    case SeatNext => SeatMotion.End(SeatMotion.Next, c, s, e)
    case SeatPrev => SeatMotion.End(SeatMotion.Prev, c, s, e)
    case Throw => ThrowMotion.End(c, s, e)
    case Drop => DropMotion.End(c, s, e)
    case Punch => PunchMotion.End(c, s, e)
    case Melee => MeleeMotion.End(c, s, e)
    case PickUp => PickUpMotion.End(c, s, e)
    case Jump => JumpMotion.End(c, s, e)
  }

  /** The state after OnUpdate for each of the samples, in order. */
  function Updates(k: Kind, c: Context, s: Bits, us: seq<Element>): Bits
    decreases |us|
  {
    if |us| == 0 then s else Update(k, c, Updates(k, c, s, us[..|us| - 1]), us[|us| - 1])
  }

  /** The state after a whole motion. */
  function Run(k: Kind, c: Context, b: Element, us: seq<Element>, e: Element): Bits
  {
    End(k, c, Updates(k, c, Begin(k, c, b), us), e)
  }

  /** The pass mask each class registers with. */
  function Mask(k: Kind): bv32
  {
    match k
    case ZoomIn => ZoomMotion.PASSED
    case ZoomOut => ZoomMotion.PASSED
    case SeatNext => SeatMotion.PASSED
    case SeatPrev => SeatMotion.PASSED
    case Throw => ThrowMotion.PASSED
    case Drop => DropMotion.PASSED
    case Punch => PunchMotion.PASSED
    case Melee => MeleeMotion.PASSED
    case PickUp => PickUpMotion.PASSED
    case Jump => JumpMotion.PASSED
  }

  /** The priority each class registers with. */
  function Priority(k: Kind): real
  {
    match k
    case ZoomIn => ZoomMotion.PRIORITY_IN
    case ZoomOut => ZoomMotion.PRIORITY_OUT
    case SeatNext => SeatMotion.PRIORITY_NEXT
    case SeatPrev => SeatMotion.PRIORITY_PREV
    case Throw => ThrowMotion.PRIORITY
    case Drop => DropMotion.PRIORITY
    case Punch => PunchMotion.PRIORITY
    case Melee => MeleeMotion.PRIORITY
    case PickUp => PickUpMotion.PRIORITY
    case Jump => JumpMotion.PRIORITY
  }

  /** The controller each class registers for: only the jump reads the Nunchuk. */
  function Controller(k: Kind): int
  {
    if k == Jump then NUNCHUK else WIIMOTE
  }

  /** The game states and queries under which each class sets any bit at all. */
  predicate Allowed(k: Kind, c: Context)
  {
    match k
    case ZoomIn => ZoomMotion.Allowed(c)
    case ZoomOut => ZoomMotion.Allowed(c)
    case SeatNext => SeatMotion.Allowed(c)
    case SeatPrev => SeatMotion.Allowed(c)
    case Throw => ThrowMotion.Allowed(c)
    case Drop => DropMotion.Allowed(c)
    case Punch => PunchMotion.Allowed(c)
    case Melee => MeleeMotion.Allowed(c)
    case PickUp => PickUpMotion.Allowed(c)
    case Jump => JumpMotion.Allowed(c)
  }

  /** A registered detector has fired at the end of a motion. */
  predicate Fires(k: Kind, c: Context, b: Element, us: seq<Element>, e: Element)
  {
    Fired(Word(Run(k, c, b, us, e)), Mask(k))
  }

  /** The state flags each class's pass mask names. */
  function Flags(k: Kind): Bits
  {
    match k
    case ZoomIn => {ZoomMotion.BEGIN, ZoomMotion.GOODG, ZoomMotion.END}
    case ZoomOut => {ZoomMotion.BEGIN, ZoomMotion.GOODG, ZoomMotion.END}
    case SeatNext => {SeatMotion.BEGIN, SeatMotion.GOODG, SeatMotion.END}
    case SeatPrev => {SeatMotion.BEGIN, SeatMotion.GOODG, SeatMotion.END}
    case Throw => {ThrowMotion.HIT_YG, ThrowMotion.HIT_ZG_N, ThrowMotion.HIT_ZG_P, ThrowMotion.END, ThrowMotion.NOHIT_NEGY}
    case Drop => {DropMotion.BEGIN, DropMotion.HIT_XG, DropMotion.HIT_ZG, DropMotion.END}
    case Punch => {PunchMotion.BEGIN, PunchMotion.HITG, PunchMotion.HITNG, PunchMotion.END}
    case Melee => {MeleeMotion.BEGIN, MeleeMotion.HIT_XG, MeleeMotion.HIT_ZG, MeleeMotion.NOHIT_BADXG, MeleeMotion.END_R}
    case PickUp => {PickUpMotion.BEGIN, PickUpMotion.HIT_YG, PickUpMotion.HIT_ZG, PickUpMotion.END}
    case Jump => {JumpMotion.BEGIN, JumpMotion.HITG}
  }

  /** A state passes a class's mask iff it holds every flag the mask names (the BADG flag of zoom and seat is not among them). */
  lemma MaskMeans(k: Kind, s: Bits)
    ensures Fired(Word(s), Mask(k)) <==> Flags(k) <= s
  {
    match k
    case ZoomIn => ZoomMotion.Passed(s);
    case ZoomOut => ZoomMotion.Passed(s);
    case SeatNext => SeatMotion.Passed(s);
    case SeatPrev => SeatMotion.Passed(s);
    case Throw => ThrowMotion.Passed(s);
    case Drop => DropMotion.Passed(s);
    case Punch => PunchMotion.Passed(s);
    case Melee => MeleeMotion.Passed(s);
    case PickUp => PickUpMotion.Passed(s);
    case Jump => JumpMotion.Passed(s);
  }

  /** Appending one sample to the updates is one more OnUpdate. */
  lemma UpdatesSnoc(k: Kind, c: Context, s: Bits, us: seq<Element>, u: Element)
    ensures Updates(k, c, s, us + [u]) == Update(k, c, Updates(k, c, s, us), u)
  {
    assert (us + [u])[..|us|] == us;
  }

  /** Updates of the dispatcher are those of the class itself. */
  lemma {:induction false} UpdatesAgree(k: Kind, c: Context, s: Bits, us: seq<Element>)
    ensures Updates(k, c, s, us) == match k
      case ZoomIn => ZoomMotion.Updates(ZoomMotion.In, c, s, us)
      case ZoomOut => ZoomMotion.Updates(ZoomMotion.Out, c, s, us)
      case SeatNext => SeatMotion.Updates(SeatMotion.Next, c, s, us)
      case SeatPrev => SeatMotion.Updates(SeatMotion.Prev, c, s, us)
      case Throw => ThrowMotion.Updates(c, s, us)
      case Drop => DropMotion.Updates(c, s, us)
      case Punch => PunchMotion.Updates(c, s, us)
      case Melee => MeleeMotion.Updates(c, s, us)
      case PickUp => PickUpMotion.Updates(c, s, us)
      case Jump => JumpMotion.Updates(c, s, us)
    decreases |us|
  {
    if |us| > 0 {
      UpdatesAgree(k, c, s, us[..|us| - 1]);
    }
  }

  /** A whole motion through the dispatcher is the class's own run. */
  lemma RunAgrees(k: Kind, c: Context, b: Element, us: seq<Element>, e: Element)
    ensures Run(k, c, b, us, e) == match k
      case ZoomIn => ZoomMotion.Run(ZoomMotion.In, c, b, us, e)
      case ZoomOut => ZoomMotion.Run(ZoomMotion.Out, c, b, us, e)
      case SeatNext => SeatMotion.Run(SeatMotion.Next, c, b, us, e)
      case SeatPrev => SeatMotion.Run(SeatMotion.Prev, c, b, us, e)
      case Throw => ThrowMotion.Run(c, b, us, e)
      case Drop => DropMotion.Run(c, b, us, e)
      case Punch => PunchMotion.Run(c, b, us, e)
      case Melee => MeleeMotion.Run(c, b, us, e)
      case PickUp => PickUpMotion.Run(c, b, us, e)
      case Jump => JumpMotion.Run(c, b, us, e)
  {
    UpdatesAgree(k, c, Begin(k, c, b), us);
  }

  /** No registered detector fires under game states or queries that switch it off. */
  lemma FiresOnlyWhenAllowed(k: Kind, c: Context, b: Element, us: seq<Element>, e: Element)
    ensures Fires(k, c, b, us, e) ==> Allowed(k, c)
  {
    RunAgrees(k, c, b, us, e);
    if !Allowed(k, c) {
      match k
      case ZoomIn => ZoomMotion.Gated(ZoomMotion.In, c, b, us, e);
      case ZoomOut => ZoomMotion.Gated(ZoomMotion.Out, c, b, us, e);
      case SeatNext => SeatMotion.Gated(SeatMotion.Next, c, b, us, e);
      case SeatPrev => SeatMotion.Gated(SeatMotion.Prev, c, b, us, e);
      case Throw => ThrowMotion.Gated(c, b, us, e);
      case Drop => DropMotion.Gated(c, b, us, e);
      case Punch => PunchMotion.Gated(c, b, us, e);
      case Melee => MeleeMotion.Gated(c, b, us, e);
      case PickUp => PickUpMotion.Gated(c, b, us, e);
      case Jump => JumpMotion.Fires(c, b, us, e);
    }
  }

  /** In the nanosuit and weapon menus no gesture fires. */
  lemma MenusSilence(k: Kind, c: Context, b: Element, us: seq<Element>, e: Element)
    requires InMenu(c)
    ensures !Fires(k, c, b, us, e)
  {
    FiresOnlyWhenAllowed(k, c, b, us, e);
  }

  /** In a vehicle only the zoom and seat gestures can fire. */
  lemma VehiclesZoomAndSeatOnly(k: Kind, c: Context, b: Element, us: seq<Element>, e: Element)
    requires c.state in {LandVehicle, SeaVehicle, HeliVehicle, VtolVehicle}
    requires Fires(k, c, b, us, e)
    ensures k in {ZoomIn, ZoomOut, SeatNext, SeatPrev}
  {
    FiresOnlyWhenAllowed(k, c, b, us, e);
  }

  /** No two Wiimote classes share a priority, so arbitration never rests on list order. */
  lemma WiimotePrioritiesDistinct(k1: Kind, k2: Kind)
    requires Controller(k1) == WIIMOTE && Controller(k2) == WIIMOTE && k1 != k2
    ensures Priority(k1) != Priority(k2)
  {
  }

  /** The throw outranks every other Wiimote gesture; the drop yields to all of them. */
  lemma PriorityExtremes(k: Kind)
    requires Controller(k) == WIIMOTE
    ensures k != Throw ==> Priority(k) < Priority(Throw)
    ensures k != Drop ==> Priority(Drop) < Priority(k)
  {
  }

  /** A registration's constants: the arguments of REGISTER_MOTION. */
  datatype Shape = Shape(kind: Kind, mask: bv32, priority: real)
  datatype Entry = Entry(controller: int, shape: Shape)

  /** The registration REGISTER_MOTION makes for one class. */
  function Reg(k: Kind): Entry
  {
    Entry(Controller(k), Shape(k, Mask(k), Priority(k)))
  }

  /** The ten REGISTER_MOTION lines, taken in the order of the files of the Motions directory. */
  function Builtins(): seq<Entry>
  {
    [Reg(Drop), Reg(Jump), Reg(Melee), Reg(PickUp), Reg(Punch),
     Reg(SeatNext), Reg(SeatPrev), Reg(Throw), Reg(ZoomIn), Reg(ZoomOut)]
  }

  /** The shapes registered for one controller, in registration order. */
  function Select(es: seq<Entry>, controller: int): (r: seq<Shape>)
    ensures |r| <= |es|
    decreases |es|
  {
    if |es| == 0 then []
    else
      var rest := Select(es[..|es| - 1], controller);
      if es[|es| - 1].controller == controller then rest + [es[|es| - 1].shape] else rest
  }

  /**
   * Every registration for the Wiimote or the Nunchuk lands in exactly one of the two
   * lists; any other controller value is dropped.
   */
  lemma {:induction false} SelectPartition(es: seq<Entry>)
    ensures |Select(es, WIIMOTE)| + |Select(es, NUNCHUK)|
         == |es| - |set i | 0 <= i < |es| && es[i].controller != WIIMOTE && es[i].controller != NUNCHUK|
    ensures forall s :: s in Select(es, WIIMOTE) <==> exists i :: 0 <= i < |es| && es[i] == Entry(WIIMOTE, s)
    decreases |es|
  {
    if |es| > 0 {
      var es', x := es[..|es| - 1], es[|es| - 1];
      SelectPartition(es');
      var odd := set i | 0 <= i < |es| && es[i].controller != WIIMOTE && es[i].controller != NUNCHUK;
      var odd' := set i | 0 <= i < |es'| && es'[i].controller != WIIMOTE && es'[i].controller != NUNCHUK;
      if x.controller != WIIMOTE && x.controller != NUNCHUK {
        assert odd == odd' + {|es'|};
      } else {
        assert odd == odd';
      }
      forall s | exists i :: 0 <= i < |es| && es[i] == Entry(WIIMOTE, s)
        ensures s in Select(es, WIIMOTE)
      {
        var i :| 0 <= i < |es| && es[i] == Entry(WIIMOTE, s);
        if i < |es'| {
          assert es'[i] == es[i];
        }
      }
      forall s | s in Select(es, WIIMOTE)
        ensures exists i :: 0 <= i < |es| && es[i] == Entry(WIIMOTE, s)
      {
        if s in Select(es', WIIMOTE) {
          var i :| 0 <= i < |es'| && es'[i] == Entry(WIIMOTE, s);
          assert es[i] == es'[i];
        } else {
          assert es[|es'|] == Entry(WIIMOTE, s);
        }
      }
    }
  }

  /** The built-in registry puts only the jump on the Nunchuk. */
  lemma BuiltinsNunchuk()
    ensures Select(Builtins(), NUNCHUK) == [Shape(Jump, JumpMotion.PASSED, JumpMotion.PRIORITY)]
  {
    var es := Builtins();
    var n := [Shape(Jump, JumpMotion.PASSED, JumpMotion.PRIORITY)];
    assert Select(es[..1], NUNCHUK) == [] by { assert es[..1][..0] == []; }
    assert Select(es[..2], NUNCHUK) == n by { assert es[..2][..1] == es[..1]; }
    assert Select(es[..3], NUNCHUK) == n by { assert es[..3][..2] == es[..2]; }
    assert Select(es[..4], NUNCHUK) == n by { assert es[..4][..3] == es[..3]; }
    assert Select(es[..5], NUNCHUK) == n by { assert es[..5][..4] == es[..4]; }
    assert Select(es[..6], NUNCHUK) == n by { assert es[..6][..5] == es[..5]; }
    assert Select(es[..7], NUNCHUK) == n by { assert es[..7][..6] == es[..6]; }
    assert Select(es[..8], NUNCHUK) == n by { assert es[..8][..7] == es[..7]; }
    assert Select(es[..9], NUNCHUK) == n by { assert es[..9][..8] == es[..8]; }
    assert es[..9] == es[..|es| - 1];
  }

  /** The built-in registry yields nine Wiimote gestures besides the Nunchuk jump. */
  lemma BuiltinsWiimote()
    ensures |Select(Builtins(), WIIMOTE)| == 9
  {
    var es := Builtins();
    BuiltinsNunchuk();
    SelectPartition(es);
    var odd := set i | 0 <= i < |es| && es[i].controller != WIIMOTE && es[i].controller != NUNCHUK;
    assert odd == {} by {
      forall i | 0 <= i < |es|
        ensures es[i].controller == WIIMOTE || es[i].controller == NUNCHUK
      {
      }
    }
  }

  /** CBaseMotion with the derived class's overrides: one detector instance. */
  class Detector {
    const kind: Kind
    var priority: real
    var state: Bits
    var mask: bv32

    /** The constructor: priority, motion state and pass mask all zero. */
    constructor (k: Kind)
      ensures kind == k && priority == 0.0 && state == {} && mask == 0
    {
      kind := k;
      priority := 0.0;
      state := {};
      mask := 0;
    }

    /** IsFired: every bit of the pass mask is set in the motion state. */
    function IsFired(): (r: bool)
      reads this
      ensures mask == 0 ==> r
    {
      Fired(Word(state), mask)
    }

    /** With its class's own pass mask, a detector has fired iff its state holds every flag the mask names. */
    lemma FiredMeans()
      requires mask == Mask(kind)
      ensures IsFired() <==> Flags(kind) <= state
    {
      MaskMeans(kind, state);
    }

    method SetPassMask(m: bv32)
      modifies this`mask
      ensures mask == m
    {
      mask := m;
    }

    function GetPriority(): real
      reads this
    {
      priority
    }

    method SetPriority(p: real)
      modifies this`priority
      ensures priority == p && GetPriority() == p
    {
      priority := p;
    }

    /** OnBegin: the base class zeroes the state, the derived class then sets its begin bits. */
    method OnBegin(e: Element, c: Context)
      modifies this`state
      ensures state == Begin(kind, c, e)
    {
      state := {};
      state := Begin(kind, c, e);
    }

    method OnUpdate(e: Element, c: Context)
      modifies this`state
      ensures state == Update(kind, c, old(state), e)
    {
      state := Update(kind, c, state, e);
    }

    method OnEnd(e: Element, c: Context)
      modifies this`state
      ensures state == End(kind, c, old(state), e)
    {
      state := End(kind, c, state, e);
    }
  }

  /** CMotionAutoRegEntry: one registration in the static list. */
  class Registration {
    const controller: int
    const kind: Kind
    const mask: bv32
    const priority: real
    var next: Registration?

    constructor (controller: int, kind: Kind, mask: bv32, priority: real)
      ensures this.controller == controller && this.kind == kind && this.mask == mask
      ensures this.priority == priority && next == null
    {
      this.controller := controller;
      this.kind := kind;
      this.mask := mask;
      this.priority := priority;
      next := null;
    }

    /** Create: a new detector carrying the registration's pass mask and priority. */
    method Create() returns (d: Detector)
      ensures fresh(d)
      ensures d.kind == kind && d.mask == mask && d.priority == priority && d.state == {}
    {
      d := new Detector(kind);
      d.SetPassMask(mask);
      d.SetPriority(priority);
    }
  }

  function Consts(r: Registration): Entry
  {
    Entry(r.controller, Shape(r.kind, r.mask, r.priority))
  }

  function AllConsts(rs: seq<Registration>): (r: seq<Entry>)
    ensures |r| == |rs| && forall i :: 0 <= i < |rs| ==> r[i] == Consts(rs[i])
  {
    seq(|rs|, i requires 0 <= i < |rs| => Consts(rs[i]))
  }

  /** The static m_pFirst / m_pLast pair with the registrations it links. */
  class Registry {
    var first: Registration?
    var last: Registration?
    ghost var entries: seq<Registration>

    /** The list links entries in order, ends in NULL, and holds no registration twice. */
    ghost predicate Valid()
      reads this, entries
    {
      && (|entries| == 0 ==> first == null && last == null)
      && (|entries| > 0 ==> first == entries[0] && last == entries[|entries| - 1] && last.next == null)
      && (forall i :: 0 <= i < |entries| - 1 ==> entries[i].next == entries[i + 1])
      && (forall i, j :: 0 <= i < j < |entries| ==> entries[i] != entries[j])
    }

    /** Before any REGISTER_MOTION runs both pointers are NULL. */
    constructor ()
      ensures Valid() && entries == []
    {
      first := null;
      last := null;
      entries := [];
    }

    /**
     * The CMotionAutoReg constructor: the new registration becomes the head of an empty
     * list or the successor of the old tail, and is the new tail with no successor.
     */
    method Register(controller: int, kind: Kind, mask: bv32, priority: real) returns (r: Registration)
      requires Valid()
      modifies this, last
      ensures Valid() && fresh(r)
      ensures entries == old(entries) + [r] && Consts(r) == Entry(controller, Shape(kind, mask, priority))
      ensures first == (if old(first) == null then r else old(first)) && last == r
    {
      r := new Registration(controller, kind, mask, priority);
      if last == null {
        first := r;
      } else {
        last.next := r;
      }
      last := r;
      entries := entries + [r];
    }

    /** Following next from the head visits the registrations in the order they were made. */
    method Walk() returns (rs: seq<Registration>)
      requires Valid()
      ensures rs == entries
    {
      rs := [];
      var p := first;
      while p != null
        invariant |rs| <= |entries| && rs == entries[..|rs|]
        invariant p == (if |rs| < |entries| then entries[|rs|] else null)
        decreases |entries| - |rs|
      {
        rs := rs + [p];
        p := p.next;
      }
    }
  }

  /** The ten REGISTER_MOTION lines run in turn on an empty list. */
  method RegisterBuiltins(reg: Registry)
    requires reg.Valid() && reg.entries == []
    modifies reg
    ensures reg.Valid() && AllConsts(reg.entries) == Builtins()
  {
    var es := Builtins();
    for i := 0 to |es|
      invariant reg.Valid() && AllConsts(reg.entries) == es[..i]
      invariant forall r :: r in reg.entries ==> fresh(r)
      invariant reg.last == null || reg.last in reg.entries
    {
      var r := reg.Register(es[i].controller, es[i].shape.kind, es[i].shape.mask, es[i].shape.priority);
      assert AllConsts(reg.entries) == es[..i + 1];
    }
  }
}
