// CWiiRemoteManager (CWiiRemoteManager.cpp) and its input listener: the
// game-side owner of the remote that builds the detector lists from the
// registry, runs every detector over each motion and executes the one of
// highest priority that fired, keeps the HUD error flags and the battery
// level, maps the clip's ammo to the player LEDs and freezes movement for
// half a second after a gesture.
module RemoteManager {
  import opened Wrappers
  import Motion
  import Gesture
  import opened BaseMotion

  /** EWiiRemoteErrorLevel. */
  const ERROR_NOCONNECTION: int := 0
  const ERROR_NOEXTENSION: int := 1
  const ERROR_DISCONNECTED: int := 2
  const ERROR_LOWBATTERY: int := 3
  const ERROR_MAX: int := 4

  /** WRERROR_BATTERY_MARKER: the low-battery warning threshold. */
  const BATTERY_MARKER: real := 0.1

  /** The player LEDs (WR_LED_P1 to WR_LED_P4, WR_LED_ALL, WR_LED_NONE). */
  const LED_P1: bv8 := 0x10
  const LED_P2: bv8 := 0x20
  const LED_P3: bv8 := 0x40
  const LED_P4: bv8 := 0x80
  const LED_ALL: bv8 := 0xF0
  const LED_NONE: bv8 := 0x00

  // ---------------------------------------------------------------- arbitration

  /** What the arbitration loop reads of one detector: IsFired and GetPriority. */
  datatype Cand = Cand(fired: bool, priority: real)

  /**
   * The arbitration loop of OnMotionEnd: walking the list, a fired detector replaces the
   * running choice when there is none yet or its priority is strictly greater.
   */
  function Pick(cs: seq<Cand>): (r: Option<nat>)
    ensures r.Some? ==> r.value < |cs| && cs[r.value].fired
    decreases |cs|
  {
    if |cs| == 0 then None
    else
      var best := Pick(cs[..|cs| - 1]);
      var i := |cs| - 1;
      if cs[i].fired && (best.None? || cs[i].priority > cs[best.value].priority) then Some(i) else best
  }

  /** w fired, no fired detector outranks it, and every fired one listed before it ranks strictly lower. */
  predicate Winner(cs: seq<Cand>, w: int)
  {
    && 0 <= w < |cs| && cs[w].fired
    && (forall j :: 0 <= j < |cs| && cs[j].fired ==> cs[j].priority <= cs[w].priority)
    && (forall j :: 0 <= j < w && cs[j].fired ==> cs[j].priority < cs[w].priority)
  }

  lemma WinnerUnique(cs: seq<Cand>, v: int, w: int)
    requires Winner(cs, v) && Winner(cs, w)
    ensures v == w
  {
  }

  /**
   * The loop picks nothing iff nothing fired, and otherwise exactly the fired detector of
   * highest priority, the earliest listed among equals.
   */
  lemma {:induction false} PickIsWinner(cs: seq<Cand>)
    ensures Pick(cs).None? <==> forall j :: 0 <= j < |cs| ==> !cs[j].fired
    ensures forall w :: Pick(cs) == Some(w) <==> Winner(cs, w)
    decreases |cs|
  {
    if |cs| > 0 {
      var p, i := cs[..|cs| - 1], |cs| - 1;
      PickIsWinner(p);
      var best := Pick(p);
      if best.Some? {
        assert Winner(p, best.value);
      }
      var r := Pick(cs);
      if r.Some? {
        var w := r.value;
        if w == i {
          assert Winner(cs, w) by {
            forall j | 0 <= j < |cs| && cs[j].fired
              ensures cs[j].priority <= cs[w].priority
            {
              if j < i {
                assert p[j] == cs[j];
              }
            }
            forall j | 0 <= j < w && cs[j].fired
              ensures cs[j].priority < cs[w].priority
            {
              assert p[j] == cs[j];
            }
          }
        } else {
          assert r == best;
          assert Winner(p, w);
          assert Winner(cs, w) by {
            forall j | 0 <= j < |cs| && cs[j].fired
              ensures cs[j].priority <= cs[w].priority
            {
              if j < i {
                assert p[j] == cs[j];
              }
            }
            forall j | 0 <= j < w && cs[j].fired
              ensures cs[j].priority < cs[w].priority
            {
              assert p[j] == cs[j];
            }
          }
        }
        forall v | Winner(cs, v)
          ensures v == w
        {
          WinnerUnique(cs, v, w);
        }
      } else {
        forall j | 0 <= j < |cs|
          ensures !cs[j].fired
        {
          if j < i {
            assert p[j] == cs[j];
          }
        }
      }
    }
  }

  /** No two fired candidates share a priority. */
  predicate DistinctPriorities(cs: seq<Cand>)
  {
    forall i, j :: 0 <= i < j < |cs| && cs[i].fired && cs[j].fired ==> cs[i].priority != cs[j].priority
  }

  /** With distinct priorities the choice does not depend on the list order at all. */
  lemma PickHighest(cs: seq<Cand>, w: int)
    requires DistinctPriorities(cs)
    ensures Pick(cs) == Some(w)
        <==> 0 <= w < |cs| && cs[w].fired && forall j :: 0 <= j < |cs| && cs[j].fired ==> cs[j].priority <= cs[w].priority
  {
    PickIsWinner(cs);
    if 0 <= w < |cs| && cs[w].fired && forall j :: 0 <= j < |cs| && cs[j].fired ==> cs[j].priority <= cs[w].priority {
      forall j | 0 <= j < w && cs[j].fired
        ensures cs[j].priority < cs[w].priority
      {
        assert cs[j].priority != cs[w].priority;
      }
      assert Winner(cs, w);
    }
  }

  /** The candidates of a whole motion, one per registered class in the list. */
  function Arbitrate(ks: seq<Kind>, c: Gesture.Context, b: Element, us: seq<Element>, e: Element): (r: seq<Cand>)
    ensures |r| == |ks|
    ensures forall i :: 0 <= i < |ks| ==> r[i] == Cand(Fires(ks[i], c, b, us, e), Priority(ks[i]))
  {
    seq(|ks|, i requires 0 <= i < |ks| => Cand(Fires(ks[i], c, b, us, e), Priority(ks[i])))
  }

  /** Distinct Wiimote classes never tie, whatever fired. */
  lemma WiimoteNeverTies(ks: seq<Kind>, c: Gesture.Context, b: Element, us: seq<Element>, e: Element)
    requires forall i :: 0 <= i < |ks| ==> Controller(ks[i]) == WIIMOTE
    requires forall i, j :: 0 <= i < j < |ks| ==> ks[i] != ks[j]
    ensures DistinctPriorities(Arbitrate(ks, c, b, us, e))
  {
    var cs := Arbitrate(ks, c, b, us, e);
    forall i, j | 0 <= i < j < |cs| && cs[i].fired && cs[j].fired
      ensures cs[i].priority != cs[j].priority
    {
      WiimotePrioritiesDistinct(ks[i], ks[j]);
    }
  }

  /** A throw that fires is always the gesture executed, wherever it sits in the list. */
  lemma ThrowWins(ks: seq<Kind>, t: int, c: Gesture.Context, b: Element, us: seq<Element>, e: Element)
    requires forall i :: 0 <= i < |ks| ==> Controller(ks[i]) == WIIMOTE
    requires forall i, j :: 0 <= i < j < |ks| ==> ks[i] != ks[j]
    requires 0 <= t < |ks| && ks[t] == Throw && Fires(Throw, c, b, us, e)
    ensures Pick(Arbitrate(ks, c, b, us, e)) == Some(t)
  {
    var cs := Arbitrate(ks, c, b, us, e);
    WiimoteNeverTies(ks, c, b, us, e);
    forall j | 0 <= j < |cs| && cs[j].fired
      ensures cs[j].priority <= cs[t].priority
    {
      PriorityExtremes(ks[j]);
    }
    PickHighest(cs, t);
  }

  /** A drop is executed only when it is the one gesture of the list that fired. */
  lemma DropYields(ks: seq<Kind>, d: int, c: Gesture.Context, b: Element, us: seq<Element>, e: Element)
    requires forall i :: 0 <= i < |ks| ==> Controller(ks[i]) == WIIMOTE
    requires forall i, j :: 0 <= i < j < |ks| ==> ks[i] != ks[j]
    requires 0 <= d < |ks| && ks[d] == Drop
    requires Pick(Arbitrate(ks, c, b, us, e)) == Some(d)
    ensures forall j :: 0 <= j < |ks| && j != d ==> !Fires(ks[j], c, b, us, e)
  {
    var cs := Arbitrate(ks, c, b, us, e);
    WiimoteNeverTies(ks, c, b, us, e);
    PickHighest(cs, d);
    forall j | 0 <= j < |ks| && j != d
      ensures !Fires(ks[j], c, b, us, e)
    {
      PriorityExtremes(ks[j]);
      assert ks[j] != Drop;
    }
  }

  /** In a menu the arbitration never picks anything. */
  lemma MenuPicksNothing(ks: seq<Kind>, c: Gesture.Context, b: Element, us: seq<Element>, e: Element)
    requires Gesture.InMenu(c)
    ensures Pick(Arbitrate(ks, c, b, us, e)) == None
  {
    var cs := Arbitrate(ks, c, b, us, e);
    forall j | 0 <= j < |cs|
      ensures !cs[j].fired
    {
      MenusSilence(ks[j], c, b, us, e);
    }
    PickIsWinner(cs);
  }

  // ---------------------------------------------------------------- detector lists

  predicate Distinct(ds: seq<Detector>)
  {
    forall i, j :: 0 <= i < j < |ds| ==> ds[i] != ds[j]
  }

  /** IsFired and GetPriority of each detector, in list order. */
  function Candidates(ds: seq<Detector>): (r: seq<Cand>)
    reads ds
    ensures |r| == |ds|
  {
    seq(|ds|, i reads ds requires 0 <= i < |ds| => Cand(ds[i].IsFired(), ds[i].priority))
  }

  /** The registration constants each detector carries, in list order. */
  function Shapes(ds: seq<Detector>): (r: seq<Shape>)
    reads ds
    ensures |r| == |ds|
    ensures forall i :: 0 <= i < |ds| ==> r[i] == Shape(ds[i].kind, ds[i].mask, ds[i].priority)
  {
    seq(|ds|, i reads ds requires 0 <= i < |ds| => Shape(ds[i].kind, ds[i].mask, ds[i].priority))
  }

  /** One detector more at the end of a list. */
  lemma Placed(ds: seq<Detector>, d: Detector)
    requires Distinct(ds) && d !in ds
    ensures Distinct(ds + [d])
    ensures Shapes(ds + [d]) == Shapes(ds) + [Shape(d.kind, d.mask, d.priority)]
  {
    assert (ds + [d])[..|ds|] == ds;
  }

  /** One registration more at the end of the walk. */
  lemma SelectSnoc(es: seq<Entry>, k: nat, controller: int)
    requires k < |es|
    ensures Select(es[..k + 1], controller)
        == Select(es[..k], controller) + (if es[k].controller == controller then [es[k].shape] else [])
  {
    assert es[..k + 1][..k] == es[..k];
  }

  /**
   * The loop body of CWiiRemoteManager::Initialize for one registration: Create, then
   * append to the list of its controller; any other controller value drops it.
   */
  method Adopt(p: Registration, ws: seq<Detector>, ns: seq<Detector>) returns (ws': seq<Detector>, ns': seq<Detector>)
    requires Distinct(ws) && Distinct(ns)
    ensures Distinct(ws') && Distinct(ns')
    ensures |ws| <= |ws'| && (forall i :: 0 <= i < |ws| ==> ws'[i] == ws[i])
    ensures |ns| <= |ns'| && (forall i :: 0 <= i < |ns| ==> ns'[i] == ns[i])
    ensures Shapes(ws') == old(Shapes(ws)) + (if p.controller == WIIMOTE then [Consts(p).shape] else [])
    ensures Shapes(ns') == old(Shapes(ns)) + (if p.controller == NUNCHUK then [Consts(p).shape] else [])
    ensures forall i :: |ws| <= i < |ws'| ==> fresh(ws'[i]) && ws'[i].state == {}
    ensures forall i :: |ns| <= i < |ns'| ==> fresh(ns'[i]) && ns'[i].state == {}
  {
    ws', ns' := ws, ns;
    if p.controller == WIIMOTE {
      var d := p.Create();
      Placed(ws, d);
      ws' := ws + [d];
    } else if p.controller == NUNCHUK {
      var d := p.Create();
      Placed(ns, d);
      ns' := ns + [d];
    }
  }

  /**
   * The registry walk of CWiiRemoteManager::Initialize: every registration creates one
   * detector, appended to the Wiimote list or the Nunchuk list by its controller, in
   * registry order.
   */
  method Walk(reg: Registry, w0: seq<Detector>, n0: seq<Detector>) returns (ws: seq<Detector>, ns: seq<Detector>)
    requires reg.Valid() && Distinct(w0) && Distinct(n0)
    ensures Distinct(ws) && Distinct(ns)
    ensures |w0| <= |ws| && ws[..|w0|] == w0 && |n0| <= |ns| && ns[..|n0|] == n0
    ensures Shapes(ws) == old(Shapes(w0)) + Select(AllConsts(reg.entries), WIIMOTE)
    ensures Shapes(ns) == old(Shapes(n0)) + Select(AllConsts(reg.entries), NUNCHUK)
    ensures forall i :: |w0| <= i < |ws| ==> fresh(ws[i]) && ws[i].state == {}
    ensures forall i :: |n0| <= i < |ns| ==> fresh(ns[i]) && ns[i].state == {}
  {
    ghost var es := AllConsts(reg.entries);
    ghost var k := 0;
    ws, ns := w0, n0;
    var p := reg.first;
    while p != null
      invariant 0 <= k <= |reg.entries| && p == (if k < |reg.entries| then reg.entries[k] else null)
      invariant Distinct(ws) && Distinct(ns)
      invariant |w0| <= |ws| && (forall i :: 0 <= i < |w0| ==> ws[i] == w0[i])
      invariant |n0| <= |ns| && (forall i :: 0 <= i < |n0| ==> ns[i] == n0[i])
      invariant forall i :: |w0| <= i < |ws| ==> fresh(ws[i]) && ws[i].state == {}
      invariant forall i :: |n0| <= i < |ns| ==> fresh(ns[i]) && ns[i].state == {}
      invariant Shapes(ws) == old(Shapes(w0)) + Select(es[..k], WIIMOTE)
      invariant Shapes(ns) == old(Shapes(n0)) + Select(es[..k], NUNCHUK)
      decreases |reg.entries| - k
    {
      assert es[k] == Consts(p);
      SelectSnoc(es, k, WIIMOTE);
      SelectSnoc(es, k, NUNCHUK);
      ws, ns := Adopt(p, ws, ns);
      p := p.next;
      k := k + 1;
    }
    assert es[..k] == es;
    assert ws[..|w0|] == w0 && ns[..|n0|] == n0;
  }

  /** OnBegin on every detector of a list. */
  method BeginAll(ds: seq<Detector>, c: Gesture.Context, e: Element)
    requires Distinct(ds)
    modifies ds`state
    ensures forall i :: 0 <= i < |ds| ==> ds[i].state == Begin(ds[i].kind, c, e)
  {
    for i := 0 to |ds|
      invariant forall j :: 0 <= j < i ==> ds[j].state == Begin(ds[j].kind, c, e)
    {
      ds[i].OnBegin(e, c);
    }
  }

  /** OnUpdate on every detector of a list. */
  method UpdateAll(ds: seq<Detector>, c: Gesture.Context, e: Element)
    requires Distinct(ds)
    modifies ds`state
    ensures forall i :: 0 <= i < |ds| ==> ds[i].state == Update(ds[i].kind, c, old(ds[i].state), e)
  {
    for i := 0 to |ds|
      invariant forall j :: 0 <= j < i ==> ds[j].state == Update(ds[j].kind, c, old(ds[j].state), e)
      invariant forall j :: i <= j < |ds| ==> ds[j].state == old(ds[j].state)
    {
      ds[i].OnUpdate(e, c);
    }
  }

  /** The kind of the detector the arbitration chooses, if any. */
  function Chosen(ds: seq<Detector>): Option<Kind>
    reads ds
  {
    var w := Pick(Candidates(ds));
    if w.Some? then Some(ds[w.value].kind) else None
  }

  /**
   * Nothing is chosen iff no detector fired, and otherwise the choice is the kind of the
   * winner: the fired detector of highest priority, the earliest listed among equals.
   */
  lemma ChosenIsWinner(ds: seq<Detector>)
    ensures Chosen(ds).None? <==> forall i :: 0 <= i < |ds| ==> !ds[i].IsFired()
    ensures forall w :: Winner(Candidates(ds), w) ==> Chosen(ds) == Some(ds[w].kind)
  {
    var cs := Candidates(ds);
    PickIsWinner(cs);
    assert forall i :: 0 <= i < |ds| ==> cs[i].fired == ds[i].IsFired();
  }

  /** One more candidate seen by the arbitration loop. */
  lemma PickSnoc(cs: seq<Cand>, x: Cand)
    ensures Pick(cs + [x])
        == if x.fired && (Pick(cs).None? || x.priority > cs[Pick(cs).value].priority) then Some(|cs|) else Pick(cs)
  {
    assert (cs + [x])[..|cs|] == cs;
  }

  /** The loop body of OnMotionEnd for one detector: OnEnd, then IsFired and GetPriority. */
  method EndOne(d: Detector, c: Gesture.Context, e: Element) returns (x: Cand)
    modifies d`state
    ensures d.state == End(d.kind, c, old(d.state), e)
    ensures x == Cand(d.IsFired(), d.priority)
  {
    d.OnEnd(e, c);
    x := Cand(d.IsFired(), d.GetPriority());
  }

  /** OnEnd on every detector of a list, choosing the one to execute as it goes. */
  method EndAll(ds: seq<Detector>, c: Gesture.Context, e: Element) returns (w: Option<nat>)
    requires Distinct(ds)
    modifies ds`state
    ensures forall i :: 0 <= i < |ds| ==> ds[i].state == End(ds[i].kind, c, old(ds[i].state), e)
    ensures w == Pick(Candidates(ds))
  {
    w := None;
    ghost var cs: seq<Cand> := [];
    ghost var ss := seq(|ds|, j reads ds requires 0 <= j < |ds| => ds[j].state);
    for i := 0 to |ds|
      invariant |cs| == i && w == Pick(cs)
      invariant forall j :: 0 <= j < i ==> cs[j] == Cand(ds[j].IsFired(), ds[j].priority)
      invariant forall j :: 0 <= j < |ds| ==> ds[j].state == if j < i then End(ds[j].kind, c, ss[j], e) else ss[j]
    {
      var x := EndOne(ds[i], c, e);
      PickSnoc(cs, x);
      if x.fired && (w.None? || x.priority > ds[w.value].GetPriority()) {
        w := Some(i);
      }
      cs := cs + [x];
    }
    assert cs == Candidates(ds);
  }

  /** EndAll, answering with the kind of the chosen detector. */
  method EndChoose(ds: seq<Detector>, c: Gesture.Context, e: Element) returns (k: Option<Kind>)
    requires Distinct(ds)
    modifies ds`state
    ensures forall i :: 0 <= i < |ds| ==> ds[i].state == End(ds[i].kind, c, old(ds[i].state), e)
    ensures k == Chosen(ds)
  {
    var w := EndAll(ds, c, e);
    k := if w.Some? then Some(ds[w.value].kind) else None;
  }

  // ---------------------------------------------------------------- error levels

  /** SetErrorLevel on the flags: a level outside the table is ignored. */
  function Raised(es: seq<bool>, level: int): (r: seq<bool>)
    ensures |r| == |es|
  {
    if 0 <= level < |es| then es[level := true] else es
  }

  /** The first loop of ClearErrorLevel: level -1 clears every flag, any other clears only its own. */
  function Cleared(es: seq<bool>, level: int): (r: seq<bool>)
    ensures |r| == |es|
  {
    seq(|es|, i requires 0 <= i < |es| => es[i] && !(level == -1 || level == i))
  }

  predicate AnyOn(es: seq<bool>)
  {
    exists i :: 0 <= i < |es| && es[i]
  }

  /** Raising a level sets exactly that flag and leaves the others alone. */
  lemma RaisedSets(es: seq<bool>, level: int)
    requires 0 <= level < |es|
    ensures Raised(es, level)[level]
    ensures forall i :: 0 <= i < |es| && i != level ==> Raised(es, level)[i] == es[i]
  {
  }

  /** Clearing -1 turns every flag off; clearing a level turns off that flag and no other. */
  lemma ClearedClears(es: seq<bool>, level: int)
    ensures level == -1 ==> !AnyOn(Cleared(es, level))
    ensures 0 <= level < |es| ==> !Cleared(es, level)[level]
    ensures level != -1 ==> forall i :: 0 <= i < |es| && i != level ==> Cleared(es, level)[i] == es[i]
  {
  }

  /** Clearing a level undoes raising it, and clearing twice is clearing once. */
  lemma ClearUndoesRaise(es: seq<bool>, level: int)
    ensures Cleared(Raised(es, level), level) == Cleared(es, level)
    ensures Cleared(Cleared(es, level), level) == Cleared(es, level)
  {
    var a, b := Cleared(Raised(es, level), level), Cleared(es, level);
    assert forall i :: 0 <= i < |es| ==> a[i] == b[i];
  }

  // ---------------------------------------------------------------- battery

  /** OnStatusUpdate: the battery percentage as a level clamped to [0, 1]. */
  function BatteryLevel(battery: int): (r: real)
    ensures 0.0 <= r <= 1.0
    ensures 0 <= battery <= 100 ==> r * 100.0 == battery as real
  {
    var v := battery as real * (1.0 / 100.0);
    if v < 0.0 then 0.0 else if v > 1.0 then 1.0 else v
  }

  /** The low-battery warning is raised exactly for a report of 10 percent or less. */
  lemma LowBatteryAtTen(battery: int)
    ensures BatteryLevel(battery) <= BATTERY_MARKER <==> battery <= 10
  {
  }

  /** A fuller battery never shows a lower level. */
  lemma BatteryMonotone(m: int, n: int)
    requires m <= n
    ensures BatteryLevel(m) <= BatteryLevel(n)
  {
  }

  // ---------------------------------------------------------------- ammo LEDs

  /** The float quotient ammo / clip size, with the IEEE results of a zero clip size. */
  datatype Ratio = Num(v: real) | Infinite(negative: bool) | NotANumber

  function Quotient(current: int, capacity: int): Ratio
  {
    if capacity != 0 then Num(current as real / capacity as real)
    else if current > 0 then Infinite(false)
    else if current < 0 then Infinite(true)
    else NotANumber
  }

  /** fPerc <= t under IEEE comparison: false for NaN. */
  predicate NoMoreThan(r: Ratio, t: real)
  {
    match r
    case Num(v) => v <= t
    case Infinite(negative) => negative
    case NotANumber => false
  }

  /** The ammo percentage to LED mask mapping: all four lit, one put out per quarter spent. */
  function AmmoLeds(r: Ratio): bv8
  {
    var m0 := LED_ALL;
    var m1 := if NoMoreThan(r, 0.75) then m0 & !LED_P4 else m0;
    var m2 := if NoMoreThan(r, 0.5) then m1 & !LED_P3 else m1;
    var m3 := if NoMoreThan(r, 0.25) then m2 & !LED_P2 else m2;
    if NoMoreThan(r, 0.0) then m3 & !LED_P1 else m3
  }

  /** What the manager finds in the player's hands. */
  datatype Held = NoWeapon | NoFireMode | FireMode(ammo: int, clipSize: int)

  /** The LED mask Update sends: all lit without a weapon or fire mode, else by the clip. */
  function WeaponLeds(h: Held): bv8
  {
    match h
    case NoWeapon => LED_ALL
    case NoFireMode => LED_ALL
    case FireMode(ammo, clipSize) => AmmoLeds(Quotient(ammo, clipSize))
  }

  /** The lit LEDs always form a bar from P1 upwards. */
  lemma LedsAreBar(r: Ratio)
    ensures AmmoLeds(r) in {0xF0, 0x70, 0x30, 0x10, 0x00}
  {
  }

  /** P4, P3, P2 and P1 stay lit while more than three, two, one and no quarters are spent. */
  lemma LedQuarters(v: real)
    ensures AmmoLeds(Num(v)) & LED_P4 != 0 <==> v > 0.75
    ensures AmmoLeds(Num(v)) & LED_P3 != 0 <==> v > 0.5
    ensures AmmoLeds(Num(v)) & LED_P2 != 0 <==> v > 0.25
    ensures AmmoLeds(Num(v)) & LED_P1 != 0 <==> v > 0.0
  {
  }

  /** More ammo never puts out an LED. */
  lemma LedsMonotone(v: real, w: real)
    requires v <= w
    ensures AmmoLeds(Num(v)) & AmmoLeds(Num(w)) == AmmoLeds(Num(v))
  {
  }

  /** A full clip lights all four LEDs and an empty one none; a zero clip size with no ammo shows all four. */
  lemma ClipExtremes(clipSize: int)
    requires clipSize > 0
    ensures WeaponLeds(FireMode(clipSize, clipSize)) == LED_ALL
    ensures WeaponLeds(FireMode(0, clipSize)) == LED_NONE
    ensures WeaponLeds(FireMode(0, 0)) == LED_ALL
  {
  }

  // ---------------------------------------------------------------- the manager

  class Manager {
    /** Whether the Wii Remote system object exists (m_pWR). */
    const hasSystem: bool
    /** The bOn flags of m_Errors. */
    const errors: array<bool>
    var masterEnabled: bool
    var lastErrorDisplay: real
    var batteryLevel: real
    var freezeTime: real
    var wiimote: seq<Detector>
    var nunchuk: seq<Detector>

    ghost predicate Valid()
      reads this
    {
      errors.Length == ERROR_MAX && Distinct(wiimote) && Distinct(nunchuk)
    }

    /** The constructor: enabled, no error shown, a full battery, no freeze, no detectors. */
    constructor (hasSystem: bool)
      ensures Valid() && this.hasSystem == hasSystem && fresh(errors)
      ensures errors[..] == [false, false, false, false]
      ensures masterEnabled && lastErrorDisplay == 0.0 && batteryLevel == 1.0 && freezeTime == 0.0
      ensures wiimote == [] && nunchuk == []
    {
      this.hasSystem := hasSystem;
      errors := new bool[ERROR_MAX](_ => false);
      masterEnabled := true;
      lastErrorDisplay := 0.0;
      batteryLevel := 1.0;
      freezeTime := 0.0;
      wiimote := [];
      nunchuk := [];
    }

    /**
     * The registry walk of Initialize: every registration creates one detector, appended
     * to the Wiimote list or the Nunchuk list by its controller, in registry order. When
     * the core fails to initialise (`coreOk` false) Initialize returns before the walk.
     */
    method Initialize(reg: Registry, coreOk: bool)
      requires Valid() && reg.Valid()
      modifies this`wiimote, this`nunchuk
      ensures Valid()
      ensures !coreOk ==> wiimote == old(wiimote) && nunchuk == old(nunchuk)
      ensures coreOk ==> |old(wiimote)| <= |wiimote| && |old(nunchuk)| <= |nunchuk|
      ensures coreOk ==> wiimote[..|old(wiimote)|] == old(wiimote) && nunchuk[..|old(nunchuk)|] == old(nunchuk)
      ensures coreOk ==> Shapes(wiimote) == old(Shapes(wiimote)) + Select(AllConsts(reg.entries), WIIMOTE)
      ensures coreOk ==> Shapes(nunchuk) == old(Shapes(nunchuk)) + Select(AllConsts(reg.entries), NUNCHUK)
      ensures coreOk ==> forall i :: |old(wiimote)| <= i < |wiimote| ==> fresh(wiimote[i]) && wiimote[i].state == {}
      ensures coreOk ==> forall i :: |old(nunchuk)| <= i < |nunchuk| ==> fresh(nunchuk[i]) && nunchuk[i].state == {}
    {
      if !coreOk {
        return;
      }
      wiimote, nunchuk := Walk(reg, wiimote, nunchuk);
    }

    /** SetErrorLevel. */
    method SetErrorLevel(level: int)
      requires Valid()
      modifies errors
      ensures errors[..] == Raised(old(errors[..]), level)
    {
      if level < 0 || level >= ERROR_MAX {
        return;
      }
      errors[level] := true;
    }

    /**
     * ClearErrorLevel: clears the flags, and once none is left on resets the time the
     * last message was shown.
     */
    method ClearErrorLevel(level: int)
      requires Valid()
      modifies errors, this`lastErrorDisplay
      ensures errors[..] == Cleared(old(errors[..]), level)
      ensures lastErrorDisplay == if AnyOn(errors[..]) then old(lastErrorDisplay) else 0.0
    {
      ghost var goal := Cleared(errors[..], level);
      for i := 0 to ERROR_MAX
        invariant forall j :: 0 <= j < i ==> errors[j] == goal[j]
        invariant forall j :: i <= j < ERROR_MAX ==> errors[j] == old(errors[j])
        invariant lastErrorDisplay == old(lastErrorDisplay)
      {
        if level == -1 || level == i {
          errors[i] := false;
        }
      }
      assert errors[..] == goal;
      for i := 0 to ERROR_MAX
        invariant forall j :: 0 <= j < i ==> !errors[j]
        invariant errors[..] == goal && lastErrorDisplay == old(lastErrorDisplay)
      {
        if errors[i] {
          assert errors[..][i];
          return;
        }
      }
      lastErrorDisplay := 0.0;
    }

    /** SWiiRemoteListener::OnStatusUpdate: the battery level and the low-battery flag. */
    method OnStatusUpdate(battery: int)
      requires Valid()
      modifies this`batteryLevel, errors, this`lastErrorDisplay
      ensures batteryLevel == BatteryLevel(battery)
      ensures batteryLevel <= BATTERY_MARKER ==> errors[..] == Raised(old(errors[..]), ERROR_LOWBATTERY)
      ensures batteryLevel > BATTERY_MARKER ==> errors[..] == Cleared(old(errors[..]), ERROR_LOWBATTERY)
    {
      batteryLevel := BatteryLevel(battery);
      if batteryLevel <= BATTERY_MARKER {
        SetErrorLevel(ERROR_LOWBATTERY);
      } else {
        ClearErrorLevel(ERROR_LOWBATTERY);
      }
    }

    /** SetMasterEnabled: ignored without a remote; turning off with a player resets the message time. */
    method SetMasterEnabled(on: bool, hasRemote: bool, hasPlayer: bool)
      modifies this`masterEnabled, this`lastErrorDisplay
      ensures masterEnabled == if hasRemote then on else old(masterEnabled)
      ensures lastErrorDisplay == if hasRemote && hasPlayer && !on then 0.0 else old(lastErrorDisplay)
    {
      if !hasRemote {
        return;
      }
      masterEnabled := on;
      if hasPlayer && !on {
        lastErrorDisplay := 0.0;
      }
    }

    /** FreezeMovement: remember the current time. */
    method FreezeMovement(now: real)
      requires hasSystem
      modifies this`freezeTime
      ensures freezeTime == now
      ensures forall t :: IsMovementFrozen(t) <==> t <= now + 0.5
    {
      freezeTime := now;
    }

    /** IsMovementFrozen: always without the system object, else for half a second after a freeze. */
    function IsMovementFrozen(now: real): bool
      reads this
    {
      !hasSystem || now - freezeTime <= 0.5
    }
  }

  /** SWiiInputListener: the motion callbacks of the remote and its extension. */
  class InputListener {
    const manager: Manager
    /** nState: the game state the detectors are called with. */
    var state: Gesture.GameState
    var endLifetime: int
    var extEndLifetime: int
    /** The kinds whose Execute ran, in order. */
    var executed: seq<Kind>

    constructor (m: Manager)
      ensures manager == m && state == Gesture.Player && endLifetime == 0 && extEndLifetime == 0 && executed == []
    {
      manager := m;
      state := Gesture.Player;
      endLifetime := 0;
      extEndLifetime := 0;
      executed := [];
    }

    /** The state Update computes from the player and the vehicle. */
    method SetState(s: Gesture.GameState)
      modifies this`state
      ensures state == s
    {
      state := s;
    }

    /** OnMotionStart: only while enabled, resets the end lifetime and begins every Wiimote detector. */
    method OnMotionStart(e: Element, game: Gesture.Game, tuning: Gesture.Tuning)
      requires manager.Valid()
      modifies this`endLifetime, manager.wiimote`state
      ensures var ds := manager.wiimote;
        if manager.masterEnabled then
          endLifetime == 0
          && forall i :: 0 <= i < |ds| ==> ds[i].state == Begin(ds[i].kind, Gesture.Context(state, game, tuning), e)
        else
          endLifetime == old(endLifetime) && forall i :: 0 <= i < |ds| ==> ds[i].state == old(ds[i].state)
    {
      if !manager.masterEnabled {
        return;
      }
      endLifetime := 0;
      BeginAll(manager.wiimote, Gesture.Context(state, game, tuning), e);
    }

    /** OnMotionUpdate: only while enabled, updates every Wiimote detector. */
    method OnMotionUpdate(e: Element, game: Gesture.Game, tuning: Gesture.Tuning)
      requires manager.Valid()
      modifies manager.wiimote`state
      ensures var ds := manager.wiimote;
        forall i :: 0 <= i < |ds| ==>
          ds[i].state == if manager.masterEnabled then Update(ds[i].kind, Gesture.Context(state, game, tuning), old(ds[i].state), e)
                         else old(ds[i].state)
    {
      if !manager.masterEnabled {
        return;
      }
      UpdateAll(manager.wiimote, Gesture.Context(state, game, tuning), e);
    }

    /**
     * OnMotionEnd: ends every Wiimote detector even while disabled, then, only while
     * enabled, executes the chosen one and records the motion's lifetime.
     */
    method OnMotionEnd(e: Element, game: Gesture.Game, tuning: Gesture.Tuning)
      requires manager.Valid()
      modifies this`endLifetime, this`executed, manager.wiimote`state
      ensures var ds := manager.wiimote;
        forall i :: 0 <= i < |ds| ==> ds[i].state == End(ds[i].kind, Gesture.Context(state, game, tuning), old(ds[i].state), e)
      ensures manager.masterEnabled && Chosen(manager.wiimote).Some? ==>
        executed == old(executed) + [Chosen(manager.wiimote).value] && endLifetime == e.lifetime
      ensures !(manager.masterEnabled && Chosen(manager.wiimote).Some?) ==>
        executed == old(executed) && endLifetime == old(endLifetime)
    {
      var k := EndChoose(manager.wiimote, Gesture.Context(state, game, tuning), e);
      if manager.masterEnabled && k.Some? {
        executed := executed + [k.value];
        endLifetime := e.lifetime;
      }
    }

    /** OnExtensionMotionStart: as OnMotionStart, over the Nunchuk detectors. */
    method OnExtensionMotionStart(e: Element, game: Gesture.Game, tuning: Gesture.Tuning)
      requires manager.Valid()
      modifies this`extEndLifetime, manager.nunchuk`state
      ensures var ds := manager.nunchuk;
        if manager.masterEnabled then
          extEndLifetime == 0
          && forall i :: 0 <= i < |ds| ==> ds[i].state == Begin(ds[i].kind, Gesture.Context(state, game, tuning), e)
        else
          extEndLifetime == old(extEndLifetime) && forall i :: 0 <= i < |ds| ==> ds[i].state == old(ds[i].state)
    {
      if !manager.masterEnabled {
        return;
      }
      extEndLifetime := 0;
      BeginAll(manager.nunchuk, Gesture.Context(state, game, tuning), e);
    }

    /** OnExtensionMotionUpdate: as OnMotionUpdate, over the Nunchuk detectors. */
    method OnExtensionMotionUpdate(e: Element, game: Gesture.Game, tuning: Gesture.Tuning)
      requires manager.Valid()
      modifies manager.nunchuk`state
      ensures var ds := manager.nunchuk;
        forall i :: 0 <= i < |ds| ==>
          ds[i].state == if manager.masterEnabled then Update(ds[i].kind, Gesture.Context(state, game, tuning), old(ds[i].state), e)
                         else old(ds[i].state)
    {
      if !manager.masterEnabled {
        return;
      }
      UpdateAll(manager.nunchuk, Gesture.Context(state, game, tuning), e);
    }

    /** OnExtensionMotionEnd: as OnMotionEnd, over the Nunchuk detectors. */
    method OnExtensionMotionEnd(e: Element, game: Gesture.Game, tuning: Gesture.Tuning)
      requires manager.Valid()
      modifies this`extEndLifetime, this`executed, manager.nunchuk`state
      ensures var ds := manager.nunchuk;
        forall i :: 0 <= i < |ds| ==> ds[i].state == End(ds[i].kind, Gesture.Context(state, game, tuning), old(ds[i].state), e)
      ensures manager.masterEnabled && Chosen(manager.nunchuk).Some? ==>
        executed == old(executed) + [Chosen(manager.nunchuk).value] && extEndLifetime == e.lifetime
      ensures !(manager.masterEnabled && Chosen(manager.nunchuk).Some?) ==>
        executed == old(executed) && extEndLifetime == old(extEndLifetime)
    {
      var k := EndChoose(manager.nunchuk, Gesture.Context(state, game, tuning), e);
      if manager.masterEnabled && k.Some? {
        executed := executed + [k.value];
        extEndLifetime := e.lifetime;
      }
    }
  }
}
