// Button tracking shared by the Wii Remote's own buttons (WR_CWiiButtons)
// and the Nunchuk's C and Z buttons (WR_CWiiNunchuk): a four-state machine
// per button, chord queries over several buttons, and named actions.
module Buttons {
  import opened Wrappers
  import Listeners

  /** WR_WIIREMOTE_BUTTONSTATUS. Pushed and Released only occur with buffered input. */
  datatype Status = Up | Pushed | Down | Released

  // Masks of the Wii Remote's buttons in the button word.
  const DPAD_UP: bv32 := 0x0800
  const DPAD_DOWN: bv32 := 0x0400
  const DPAD_LEFT: bv32 := 0x0100
  const DPAD_RIGHT: bv32 := 0x0200
  const BUTTON_A: bv32 := 0x0008
  const BUTTON_B: bv32 := 0x0004
  const BUTTON_MINUS: bv32 := 0x0010
  const BUTTON_PLUS: bv32 := 0x1000
  const BUTTON_ONE: bv32 := 0x0002
  const BUTTON_TWO: bv32 := 0x0001
  const BUTTON_HOME: bv32 := 0x0080

  /** WR_WIIREMOTE_BUTTONS_INDEX_VALUE: the masks in button-index order. */
  const REMOTE_MASKS: seq<bv32> := [DPAD_UP, DPAD_DOWN, DPAD_LEFT, DPAD_RIGHT, BUTTON_A, BUTTON_B,
                                    BUTTON_MINUS, BUTTON_PLUS, BUTTON_ONE, BUTTON_TWO, BUTTON_HOME]

  /** What IsButtonDown and IsActionDown report: anything but Up (a release in progress counts). */
  predicate IsDown(s: Status)
  {
    s != Up
  }

  /** The button is physically held. */
  predicate Held(s: Status)
  {
    s == Pushed || s == Down
  }

  /** One step of a button's state machine on a new report. */
  function Next(s: Status, down: bool, buffered: bool): Status
  {
    match s
    case Up => if down then (if buffered then Pushed else Down) else Up
    case Pushed => if down then Down else Released
    case Down => if down then Down else (if buffered then Released else Up)
    case Released => if down then Pushed else Up
  }

  /** The step records the report's time as the button's buffered time. */
  predicate Stamps(s: Status, down: bool, buffered: bool)
  {
    buffered && ((s == Up && down) || (s == Down && !down))
  }

  /** After a step the status is held exactly when the button is down in the report. */
  lemma NextFollowsContact(s: Status, down: bool, buffered: bool)
    ensures Held(Next(s, down, buffered)) <==> down
  {
  }

  /** Without buffered input a button that is Up or Down never leaves those two states. */
  lemma NextUnbuffered(s: Status, down: bool)
    requires s == Up || s == Down
    ensures Next(s, down, false) == (if down then Down else Up)
  {
  }

  /** The time is recorded exactly on a buffered edge out of a steady state. */
  lemma StampsOnBufferedEdge(s: Status, down: bool, buffered: bool)
    ensures Stamps(s, down, buffered) <==>
              buffered && (s == Up || s == Down) && Next(s, down, buffered) != s
    ensures Stamps(s, down, buffered) ==> Next(s, down, buffered) == Pushed || Next(s, down, buffered) == Released
  {
  }

  /** The reduction applied by OnPostUpdate when no report arrived this tick. */
  function Settle(s: Status): (r: Status)
    ensures r == Up || r == Down
    ensures Held(r) <==> Held(s)
    ensures Held(s) || s == Up ==> r == (if s == Pushed then Down else s)
  {
    match s
    case Pushed => Down
    case Released => Up
    case _ => s
  }

  /** Settling twice is settling once, and a steady button is settled already. */
  lemma SettleIdempotent(s: Status)
    ensures Settle(Settle(s)) == Settle(s)
    ensures (s == Up || s == Down) ==> Settle(s) == s
  {
  }

  /** The button's state in a report word: set bit means down, or up for active-low hardware. */
  predicate Pressed(word: bv32, mask: bv32, activeLow: bool)
  {
    if activeLow then word & mask == 0 else word & mask != 0
  }

  /** Which buttons a report word shows as down, in button order. */
  function Contacts(masks: seq<bv32>, word: bv32, activeLow: bool): (r: seq<bool>)
    ensures |r| == |masks|
  {
    seq(|masks|, i requires 0 <= i < |masks| => Pressed(word, masks[i], activeLow))
  }

  /** All buttons stepped on one report. */
  function Stepped(st: seq<Status>, downs: seq<bool>, buffered: bool): seq<Status>
    requires |st| == |downs|
  {
    seq(|st|, i requires 0 <= i < |st| => Next(st[i], downs[i], buffered))
  }

  /** The buffered times after stepping all buttons on a report taken at `now`. */
  function Restamped(st: seq<Status>, stamps: seq<real>, downs: seq<bool>, buffered: bool, now: real): seq<real>
    requires |st| == |downs| && |stamps| == |downs|
  {
    seq(|st|, i requires 0 <= i < |st| => if Stamps(st[i], downs[i], buffered) then now else stamps[i])
  }

  function Settled(st: seq<Status>): seq<Status>
  {
    seq(|st|, i requires 0 <= i < |st| => Settle(st[i]))
  }

  /** A listener notification. */
  datatype ButtonEvent =
    | ButtonChanged(mask: bv32, status: Status, down: bool)
    | ActionChanged(name: string, id: ActionId, status: Status, down: bool)

  /** The notifications for the buttons below `n` whose status differs, in button order. */
  function Changes(masks: seq<bv32>, before: seq<Status>, after: seq<Status>, n: nat): seq<ButtonEvent>
    requires n <= |masks| && |before| == |masks| && |after| == |masks|
  {
    if n == 0 then []
    else Changes(masks, before, after, n - 1) +
         (if before[n - 1] != after[n - 1]
          then [ButtonChanged(masks[n - 1], after[n - 1], IsDown(after[n - 1]))] else [])
  }

  /** No status change, no notification. */
  lemma {:induction false} ChangesNone(masks: seq<bv32>, before: seq<Status>, after: seq<Status>, n: nat)
    requires n <= |masks| && |before| == |masks| && |after| == |masks|
    requires forall i :: 0 <= i < n ==> before[i] == after[i]
    ensures Changes(masks, before, after, n) == []
  {
    if n > 0 {
      ChangesNone(masks, before, after, n - 1);
    }
  }

  /** Every button whose status changed is reported, with its new status. */
  lemma {:induction false} ChangesComplete(masks: seq<bv32>, before: seq<Status>, after: seq<Status>, n: nat,
                                           k: nat)
    requires n <= |masks| && |before| == |masks| && |after| == |masks|
    requires k < n && before[k] != after[k]
    ensures ButtonChanged(masks[k], after[k], IsDown(after[k])) in Changes(masks, before, after, n)
  {
    if k < n - 1 {
      ChangesComplete(masks, before, after, n - 1, k);
    }
  }

  /** Only buttons whose status changed are reported. */
  lemma {:induction false} ChangesSound(masks: seq<bv32>, before: seq<Status>, after: seq<Status>, n: nat,
                                        e: ButtonEvent)
    requires n <= |masks| && |before| == |masks| && |after| == |masks|
    requires e in Changes(masks, before, after, n)
    ensures exists i :: 0 <= i < n && before[i] != after[i] && e == ButtonChanged(masks[i], after[i], IsDown(after[i]))
  {
    if n > 0 {
      if e in Changes(masks, before, after, n - 1) {
        ChangesSound(masks, before, after, n - 1, e);
      } else {
        assert before[n - 1] != after[n - 1];
      }
    }
  }

  // ----- Status of several buttons at once -----

  /** A button's status as a chord query sees it: within `err` seconds of its buffered
      time a steady Down reads as Pushed and a steady Up as Released. */
  function Effective(s: Status, stamp: real, now: real, err: real): Status
  {
    if err > 0.0 && (s == Down || s == Up) && now - stamp <= err
    then (if s == Down then Pushed else Released)
    else s
  }

  /** The effective statuses of the buttons below `n` that are part of `mask`, in button order. */
  function Members(masks: seq<bv32>, st: seq<Status>, stamps: seq<real>, mask: bv32, now: real, err: real,
                   n: nat): seq<Status>
    requires n <= |masks| && |st| == |masks| && |stamps| == |masks|
  {
    if n == 0 then []
    else Members(masks, st, stamps, mask, now, err, n - 1) +
         (if CheckBits(masks[n - 1], mask) then [Effective(st[n - 1], stamps[n - 1], now, err)] else [])
  }

  /** The combination step of GetButtonStatus as written. */
  function CombineAsWritten(acc: Status, cur: Status): Status
  {
    if cur == Up then Up
    else if acc == Pushed && cur == Down then Down
    else if cur == Released && acc != Released then Up
    else acc
  }

  /** GetButtonStatus's fold as written: the first member's status, combined with each later one. */
  function ChordAsWritten(sts: seq<Status>): Status
  {
    if |sts| == 0 then Up
    else if |sts| == 1 then sts[0]
    else CombineAsWritten(ChordAsWritten(sts[..|sts| - 1]), sts[|sts| - 1])
  }

  /** As written, the fold depends on button order: a released button followed by a held
      one gives Released, while the same two in the other order give Up. */
  lemma ChordAsWrittenOrderDependent()
    ensures ChordAsWritten([Released, Down]) == Released
    ensures ChordAsWritten([Down, Released]) == Up
  {
    assert [Released, Down][..1] == [Released];
    assert [Down, Released][..1] == [Down];
  }

  /** The combination rules the source states: an Up button makes the chord Up; a
      release in progress together with a button that is not being released makes
      it Up; otherwise Down dominates Pushed; the chord is Pushed or Released only
      when both sides are. */
  function Combine(acc: Status, cur: Status): Status
  {
    if acc == Up || cur == Up then Up
    else if (acc == Released) != (cur == Released) then Up
    else if acc == Pushed && cur == Pushed then Pushed
    else if acc == Released then Released
    else Down
  }

  function Chord(sts: seq<Status>): Status
  {
    if |sts| == 0 then Up
    else if |sts| == 1 then sts[0]
    else Combine(Chord(sts[..|sts| - 1]), sts[|sts| - 1])
  }

  /** The statement of the chord rules, independent of button order. */
  function ChordRule(sts: seq<Status>): Status
  {
    if |sts| == 0 || Up in sts then Up
    else if forall x :: x in sts ==> x == Released then Released
    else if Released in sts then Up
    else if forall x :: x in sts ==> x == Pushed then Pushed
    else Down
  }

  /** The fold computes the chord rules. */
  lemma {:induction false} ChordMeetsRule(sts: seq<Status>)
    ensures Chord(sts) == ChordRule(sts)
  {
    if |sts| == 1 {
      assert forall x :: x in sts <==> x == sts[0];
      assert sts[0] in sts;
    } else if |sts| > 1 {
      var init := sts[..|sts| - 1];
      var last := sts[|sts| - 1];
      ChordMeetsRule(init);
      assert sts == init + [last];
      assert forall x :: x in sts <==> x in init || x == last;
      assert init[0] in init;
      if Up !in init && last != Up {
        if forall x :: x in init ==> x == Released {
          if last != Released {
            assert Released in sts && last in sts;
          }
        } else if Released in init {
          var y :| y in init && y != Released;
          assert y in sts;
        } else if last == Released {
          assert init[0] in sts && init[0] != Released;
        } else if forall x :: x in init ==> x == Pushed {
          if last != Pushed {
            assert last in sts;
          }
        } else {
          var y :| y in init && y != Pushed;
          assert y in sts;
        }
      }
    }
  }

  /** The chord's status does not depend on the order of its buttons. */
  lemma ChordOrderIndependent(s: seq<Status>, t: seq<Status>)
    requires multiset(s) == multiset(t)
    ensures Chord(s) == Chord(t)
  {
    ChordMeetsRule(s);
    ChordMeetsRule(t);
    assert forall x :: x in s <==> x in t by {
      forall x ensures x in s <==> x in t {
        assert x in s <==> x in multiset(s);
        assert x in t <==> x in multiset(t);
      }
    }
    assert |s| == |multiset(s)| == |multiset(t)| == |t|;
  }

  /** Where the two folds meet: on chords without a release in progress they agree. */
  lemma {:induction false} ChordAgreesWithoutRelease(sts: seq<Status>)
    requires Released !in sts
    ensures ChordAsWritten(sts) == Chord(sts)
  {
    if |sts| > 1 {
      var init := sts[..|sts| - 1];
      assert forall x :: x in init ==> x in sts;
      ChordAgreesWithoutRelease(init);
      ChordMeetsRule(init);
    }
  }

  /** The first button whose mask is exactly `mask`, or Up when none is. */
  function Lookup(masks: seq<bv32>, st: seq<Status>, mask: bv32): Status
    requires |st| == |masks|
  {
    if |masks| == 0 then Up
    else if masks[0] == mask then st[0]
    else Lookup(masks[1..], st[1..], mask)
  }

  /** With distinct masks, a single-button query reads that button's own status. */
  lemma {:induction false} LookupFinds(masks: seq<bv32>, st: seq<Status>, mask: bv32, k: nat)
    requires |st| == |masks| && k < |masks| && masks[k] == mask
    requires forall i, j :: 0 <= i < j < |masks| ==> masks[i] != masks[j]
    ensures Lookup(masks, st, mask) == st[k]
  {
    if k > 0 {
      assert masks[0] != masks[k];
      LookupFinds(masks[1..], st[1..], mask, k - 1);
    }
  }

  lemma {:induction false} LookupMissing(masks: seq<bv32>, st: seq<Status>, mask: bv32)
    requires |st| == |masks| && mask !in masks
    ensures Lookup(masks, st, mask) == Up
  {
    if |masks| > 0 {
      assert forall x :: x in masks[1..] ==> x in masks;
      LookupMissing(masks[1..], st[1..], mask);
    }
  }

  /** GetButtonStatus: a single-bit (or empty) mask reads that button, any other mask
      combines the buttons it contains. */
  function ButtonStatus(masks: seq<bv32>, st: seq<Status>, stamps: seq<real>, mask: bv32, now: real,
                        err: real): Status
    requires |st| == |masks| && |stamps| == |masks|
  {
    if IsPow2(mask) then Lookup(masks, st, mask)
    else Chord(Members(masks, st, stamps, mask, now, err, |masks|))
  }

  /** The Wii Remote's button masks are distinct single bits. */
  lemma RemoteMasksSingleBits()
    ensures forall i, j :: 0 <= i < j < |REMOTE_MASKS| ==> REMOTE_MASKS[i] != REMOTE_MASKS[j]
    ensures forall i :: 0 <= i < |REMOTE_MASKS| ==> REMOTE_MASKS[i] != 0 && IsPow2(REMOTE_MASKS[i])
  {
  }

  /** A single-button query reads the button's own status; the error window plays no part. */
  lemma SingleButtonStatus(masks: seq<bv32>, st: seq<Status>, stamps: seq<real>, k: nat, now: real, err: real)
    requires |st| == |masks| && |stamps| == |masks| && k < |masks| && IsPow2(masks[k])
    requires forall i, j :: 0 <= i < j < |masks| ==> masks[i] != masks[j]
    ensures ButtonStatus(masks, st, stamps, masks[k], now, err) == st[k]
  {
    LookupFinds(masks, st, masks[k], k);
  }

  // ----- Named actions -----

  /** ActionID is an unsigned 16-bit value; 0 is ACTIONID_INVALID. */
  type ActionId = x: int | 0 <= x < 0x1_0000

  /** ++seed on the 16-bit ActionID type. */
  function NextId(seed: ActionId): (r: ActionId)
    ensures seed < 0xFFFF ==> r == seed + 1 && r != 0
    ensures seed == 0xFFFF ==> r == 0
  {
    (seed + 1) % 0x1_0000
  }

  /** SWR_WiiButton_Action: an ID, a button mask, and the status reported last. */
  datatype Action = Action(id: ActionId, name: string, mask: bv32, last: Status)

  /** The action map is a std::map: iteration is in ascending ID order. */
  predicate IdsAscending(acts: seq<Action>)
  {
    forall i, j :: 0 <= i < j < |acts| ==> acts[i].id < acts[j].id
  }

  predicate NamesUnique(acts: seq<Action>)
  {
    forall i, j :: 0 <= i < j < |acts| ==> acts[i].name != acts[j].name
  }

  predicate ActionsValid(acts: seq<Action>)
  {
    IdsAscending(acts) && NamesUnique(acts)
  }

  /** map[a.id] = a: insert in ID order, replacing an entry with the same ID. */
  function Put(acts: seq<Action>, a: Action): seq<Action>
  {
    if acts == [] then [a]
    else if acts[0].id == a.id then [a] + acts[1..]
    else if a.id < acts[0].id then [a] + acts
    else [acts[0]] + Put(acts[1..], a)
  }

  /** map::find on the ID. */
  function FindId(acts: seq<Action>, id: ActionId): Option<Action>
  {
    if acts == [] then None
    else if acts[0].id == id then Some(acts[0])
    else FindId(acts[1..], id)
  }

  /** The first action, in ID order, with the given name. */
  function FindName(acts: seq<Action>, name: string): Option<Action>
  {
    if acts == [] then None
    else if acts[0].name == name then Some(acts[0])
    else FindName(acts[1..], name)
  }

  /** After Put the map holds `a`, and only an entry with the same ID is dropped. */
  lemma {:induction false} PutElements(acts: seq<Action>, a: Action)
    ensures a in Put(acts, a)
    ensures forall b :: b in Put(acts, a) ==> b == a || b in acts
    ensures forall b :: b in acts && b.id != a.id ==> b in Put(acts, a)
  {
    if acts != [] {
      assert acts == [acts[0]] + acts[1..];
      if acts[0].id != a.id && !(a.id < acts[0].id) {
        PutElements(acts[1..], a);
      }
    }
  }

  /** Put keeps the map in ascending ID order. */
  lemma {:induction false} PutOrdered(acts: seq<Action>, a: Action)
    requires IdsAscending(acts)
    ensures IdsAscending(Put(acts, a))
  {
    if acts == [] {
    } else if acts[0].id == a.id {
      PrependOrdered(a, acts[1..]);
    } else if a.id < acts[0].id {
      PrependOrdered(a, acts);
    } else {
      var rest := acts[1..];
      PutOrdered(rest, a);
      PutElements(rest, a);
      forall b | b in Put(rest, a) ensures acts[0].id < b.id {
        if b != a {
          var k :| 0 <= k < |rest| && rest[k] == b;
          assert acts[k + 1] == b;
        }
      }
      PrependOrdered(acts[0], Put(rest, a));
    }
  }

  /** Proof step of PutOrdered: an action with an ID below all others may lead the list. */
  lemma PrependOrdered(a: Action, acts: seq<Action>)
    requires IdsAscending(acts)
    requires forall b :: b in acts ==> a.id < b.id
    ensures IdsAscending([a] + acts)
  {
    var r := [a] + acts;
    forall i, j | 0 <= i < j < |r| ensures r[i].id < r[j].id {
      assert r[j] == acts[j - 1];
      if i == 0 {
        assert acts[j - 1] in acts;
      } else {
        assert r[i] == acts[i - 1];
      }
    }
  }

  /** Proof step of PutNamesUnique: an action with a name no other has may lead the list. */
  lemma PrependNamesUnique(a: Action, acts: seq<Action>)
    requires NamesUnique(acts)
    requires forall b :: b in acts ==> a.name != b.name
    ensures NamesUnique([a] + acts)
  {
    var r := [a] + acts;
    forall i, j | 0 <= i < j < |r| ensures r[i].name != r[j].name {
      assert r[j] == acts[j - 1];
      if i == 0 {
        assert acts[j - 1] in acts;
      } else {
        assert r[i] == acts[i - 1];
      }
    }
  }

  /** Inserting under a name no action has keeps the names unique. */
  lemma {:induction false} PutNamesUnique(acts: seq<Action>, a: Action)
    requires NamesUnique(acts)
    requires forall i :: 0 <= i < |acts| ==> acts[i].name != a.name
    ensures NamesUnique(Put(acts, a))
  {
    if acts == [] {
    } else if acts[0].id == a.id {
      var rest := acts[1..];
      assert NamesUnique(rest) by {
        forall i, j | 0 <= i < j < |rest| ensures rest[i].name != rest[j].name {
          assert rest[i] == acts[i + 1] && rest[j] == acts[j + 1];
        }
      }
      forall b | b in rest ensures a.name != b.name {
        var k :| 0 <= k < |rest| && rest[k] == b;
        assert acts[k + 1] == b;
      }
      PrependNamesUnique(a, rest);
    } else if a.id < acts[0].id {
      forall b | b in acts ensures a.name != b.name {
        var k :| 0 <= k < |acts| && acts[k] == b;
      }
      PrependNamesUnique(a, acts);
    } else {
      var rest := acts[1..];
      assert NamesUnique(rest) by {
        forall i, j | 0 <= i < j < |rest| ensures rest[i].name != rest[j].name {
          assert rest[i] == acts[i + 1] && rest[j] == acts[j + 1];
        }
      }
      forall i | 0 <= i < |rest| ensures rest[i].name != a.name {
        assert rest[i] == acts[i + 1];
      }
      PutNamesUnique(rest, a);
      PutElements(rest, a);
      var r := Put(rest, a);
      forall b | b in r ensures acts[0].name != b.name {
        if b != a {
          var k :| 0 <= k < |rest| && rest[k] == b;
          assert acts[k + 1] == b;
        }
      }
      PrependNamesUnique(acts[0], r);
    }
  }

  /** A fresh name keeps the action map valid. */
  lemma PutFreshName(acts: seq<Action>, a: Action)
    requires ActionsValid(acts)
    requires FindName(acts, a.name).None?
    ensures ActionsValid(Put(acts, a))
  {
    FindNameNone(acts, a.name);
    PutOrdered(acts, a);
    PutNamesUnique(acts, a);
  }

  lemma {:induction false} FindNameNone(acts: seq<Action>, name: string)
    ensures FindName(acts, name).None? <==> forall i :: 0 <= i < |acts| ==> acts[i].name != name
  {
    if acts != [] {
      FindNameNone(acts[1..], name);
      assert forall i :: 1 <= i < |acts| ==> acts[i] == acts[1..][i - 1];
    }
  }

  /** In an ID-ordered map, map::find returns the entry at any position holding that ID. */
  lemma {:induction false} FindIdAt(acts: seq<Action>, k: nat)
    requires IdsAscending(acts) && k < |acts|
    ensures FindId(acts, acts[k].id) == Some(acts[k])
  {
    if k > 0 {
      assert acts[0].id < acts[k].id;
      FindIdAt(acts[1..], k - 1);
    }
  }

  lemma {:induction false} FindNameAt(acts: seq<Action>, k: nat)
    requires NamesUnique(acts) && k < |acts|
    ensures FindName(acts, acts[k].name) == Some(acts[k])
  {
    if k > 0 {
      assert acts[0].name != acts[k].name;
      FindNameAt(acts[1..], k - 1);
    }
  }

  /** After inserting, looking up the inserted ID or name finds the new action. */
  lemma PutThenFind(acts: seq<Action>, a: Action)
    requires ActionsValid(acts) && FindName(acts, a.name).None?
    ensures FindId(Put(acts, a), a.id) == Some(a)
    ensures FindName(Put(acts, a), a.name) == Some(a)
  {
    PutFreshName(acts, a);
    PutElements(acts, a);
    var r := Put(acts, a);
    var k :| 0 <= k < |r| && r[k] == a;
    FindIdAt(r, k);
    FindNameAt(r, k);
  }

  /** Every action's last status recomputed from the current buttons. */
  function Refreshed(acts: seq<Action>, masks: seq<bv32>, st: seq<Status>, stamps: seq<real>, now: real,
                     err: real): seq<Action>
    requires |st| == |masks| && |stamps| == |masks|
  {
    seq(|acts|, i requires 0 <= i < |acts| => acts[i].(last := ButtonStatus(masks, st, stamps, acts[i].mask, now, err)))
  }

  /** The action notifications for the actions below `n` whose last status changed, in ID order. */
  function ActionChanges(before: seq<Action>, after: seq<Action>, n: nat): seq<ButtonEvent>
    requires n <= |before| == |after|
  {
    if n == 0 then []
    else ActionChanges(before, after, n - 1) +
         (if before[n - 1].last != after[n - 1].last
          then [ActionChanged(after[n - 1].name, after[n - 1].id, after[n - 1].last, IsDown(after[n - 1].last))]
          else [])
  }

  /** Refreshing changes no ID, name or mask, so the map stays valid. */
  lemma RefreshedKeepsActions(acts: seq<Action>, masks: seq<bv32>, st: seq<Status>, stamps: seq<real>,
                              now: real, err: real)
    requires |st| == |masks| && |stamps| == |masks| && ActionsValid(acts)
    ensures ActionsValid(Refreshed(acts, masks, st, stamps, now, err))
    ensures forall i :: 0 <= i < |acts| ==>
              Refreshed(acts, masks, st, stamps, now, err)[i].(last := acts[i].last) == acts[i]
  {
  }

  /** What a report and the post-update pass change on a pad: the word, the was-updated
      flag, the statuses, the buffered times, the actions and the notifications so far. */
  datatype PadState = PadState(word: bv32, updated: bool, status: seq<Status>, stamp: seq<real>,
                               actions: seq<Action>, events: seq<ButtonEvent>)

  /** A report word taken in: every button steps on whether the word shows it down, the
      steps that buffer record `now`, one notification per button whose status changed,
      and the pad is marked updated. Actions are untouched until the post-update pass. */
  function AfterWord(s: PadState, masks: seq<bv32>, activeLow: bool, w: bv32, buffered: bool, now: real): PadState
    requires |s.status| == |masks| && |s.stamp| == |masks|
  {
    var downs := Contacts(masks, w, activeLow);
    var st := Stepped(s.status, downs, buffered);
    s.(word := w, updated := true, status := st, stamp := Restamped(s.status, s.stamp, downs, buffered, now),
       events := s.events + Changes(masks, s.status, st, |masks|))
  }

  /** The post-update pass: without a report since the last pass buffered statuses settle;
      then every action's status is recomputed with the frame time as the error window,
      the settled buttons and the changed actions are notified, and the flag resets. */
  function AfterPost(s: PadState, masks: seq<bv32>, now: real, delta: real): PadState
    requires |s.status| == |masks| && |s.stamp| == |masks|
  {
    var st := if s.updated then s.status else Settled(s.status);
    var acts := Refreshed(s.actions, masks, st, s.stamp, now, delta);
    s.(updated := false, status := st, actions := acts,
       events := s.events + Changes(masks, s.status, st, |masks|) + ActionChanges(s.actions, acts, |acts|))
  }

  /** A pass right after a report leaves every button as the report left it, and a second
      pass without a report in between settles every button to Up or Down. */
  lemma AfterPostSettles(s: PadState, masks: seq<bv32>, now: real, delta: real, w: bv32, activeLow: bool,
                         buffered: bool)
    requires |s.status| == |masks| && |s.stamp| == |masks|
    ensures AfterPost(AfterWord(s, masks, activeLow, w, buffered, now), masks, now, delta).status ==
            AfterWord(s, masks, activeLow, w, buffered, now).status
    ensures var t := AfterPost(AfterPost(s, masks, now, delta), masks, now, delta);
            forall i :: 0 <= i < |t.status| ==> t.status[i] == Up || t.status[i] == Down
  {
  }

  /** The state of CWR_WiiButtons (and of the Nunchuk's button part). */
  class ButtonPad {
    /** The button masks in index order, and whether a set bit means released. */
    const masks: seq<bv32>
    const activeLow: bool
    const status: array<Status>
    const stamp: array<real>
    var attached: bool
    var word: bv32
    var wasUpdated: bool
    var seed: ActionId
    var actions: seq<Action>
    var listeners: seq<nat>
    var events: seq<ButtonEvent>

    ghost predicate Valid()
      reads this
    {
      status.Length == |masks| && stamp.Length == |masks| &&
      ActionsValid(actions) && Listeners.NoDup(listeners)
    }

    /** The pad's state as reports and the post-update pass see it. */
    ghost function Snapshot(): PadState
      reads this, status, stamp
    {
      PadState(word, wasUpdated, status[..], stamp[..], actions, events)
    }

    constructor (masks: seq<bv32>, activeLow: bool)
      ensures Valid() && fresh(status) && fresh(stamp)
      ensures this.masks == masks && this.activeLow == activeLow
      ensures status[..] == seq(|masks|, _ => Up) && stamp[..] == seq(|masks|, _ => 0.0)
      ensures !attached && word == 0 && !wasUpdated && seed == 0
      ensures actions == [] && listeners == [] && events == []
    {
      this.masks := masks;
      this.activeLow := activeLow;
      status := new Status[|masks|](_ => Up);
      stamp := new real[|masks|](_ => 0.0);
      attached := false;
      word := 0;
      wasUpdated := false;
      seed := 0;
      actions := [];
      listeners := [];
      events := [];
    }

    /** Initialize: refuses a missing remote; otherwise every button goes Up with time 0
        and the action ID seed restarts (the actions themselves are kept). */
    method Initialize(remote: bool) returns (ok: bool)
      requires Valid()
      modifies this, status, stamp
      ensures Valid() && ok == remote && attached == remote
      ensures ok ==> word == 0 && seed == 0 && status[..] == seq(|masks|, _ => Up) &&
                     stamp[..] == seq(|masks|, _ => 0.0)
      ensures !ok ==> word == old(word) && seed == old(seed) && status[..] == old(status[..]) &&
                      stamp[..] == old(stamp[..])
      ensures actions == old(actions) && listeners == old(listeners) && events == old(events)
      ensures wasUpdated == old(wasUpdated)
    {
      attached := remote;
      if !remote {
        return false;
      }
      word := 0;
      var i := 0;
      while i < status.Length
        invariant 0 <= i <= status.Length
        invariant forall k :: 0 <= k < i ==> status[k] == Up && stamp[k] == 0.0
        invariant word == 0 && attached == remote && seed == old(seed) && wasUpdated == old(wasUpdated)
        invariant actions == old(actions) && listeners == old(listeners) && events == old(events)
      {
        status[i] := Up;
        stamp[i] := 0.0;
        i := i + 1;
      }
      seed := 0;
      ok := true;
    }

    /** OnButtonUpdate's state machine on a report word: every button steps, the
        stepped-into Pushed/Released states record `now`, and each change is reported. */
    method Update(w: bv32, buffered: bool, now: real)
      requires Valid()
      modifies this`word, this`wasUpdated, this`events, status, stamp
      ensures Valid() && wasUpdated && word == w
      ensures status[..] == Stepped(old(status[..]), Contacts(masks, w, activeLow), buffered)
      ensures stamp[..] == Restamped(old(status[..]), old(stamp[..]), Contacts(masks, w, activeLow), buffered, now)
      ensures events == old(events) + Changes(masks, old(status[..]), status[..], |masks|)
      ensures Snapshot() == AfterWord(old(Snapshot()), masks, activeLow, w, buffered, now)
    {
      wasUpdated := true;
      word := w;
      StepAll(Contacts(masks, w, activeLow), buffered, now);
    }

    /** The loop of OnButtonUpdate over the buttons, given which are down. */
    method StepAll(downs: seq<bool>, buffered: bool, now: real)
      requires Valid() && |downs| == |masks|
      modifies this`events, status, stamp
      ensures status[..] == Stepped(old(status[..]), downs, buffered)
      ensures stamp[..] == Restamped(old(status[..]), old(stamp[..]), downs, buffered, now)
      ensures events == old(events) + Changes(masks, old(status[..]), status[..], |masks|)
    {
      ghost var before := status[..];
      ghost var target := Stepped(before, downs, buffered);
      ghost var stamps := Restamped(before, stamp[..], downs, buffered, now);
      var evs := events;
      var i := 0;
      while i < status.Length
        invariant 0 <= i <= status.Length
        invariant events == old(events)
        invariant forall k :: 0 <= k < i ==> status[k] == target[k] && stamp[k] == stamps[k]
        invariant forall k :: i <= k < status.Length ==> status[k] == before[k] && stamp[k] == old(stamp[k])
        invariant evs == events + Changes(masks, before, target, i)
      {
        var prev, next := StepOne(i, downs[i], buffered, now);
        if prev != next {
          evs := evs + [ButtonChanged(masks[i], next, IsDown(next))];
        }
        i := i + 1;
      }
      assert status[..] == target;
      assert stamp[..] == stamps;
      events := evs;
    }

    /** The loop body of OnButtonUpdate for button i. */
    method StepOne(i: nat, down: bool, buffered: bool, now: real) returns (prev: Status, next: Status)
      requires Valid() && i < |masks|
      modifies status, stamp
      ensures prev == old(status[i]) && next == Next(prev, down, buffered)
      ensures status[..] == old(status[..])[i := next]
      ensures stamp[..] == old(stamp[..])[i := if Stamps(prev, down, buffered) then now else old(stamp[i])]
    {
      prev := status[i];
      if Stamps(prev, down, buffered) {
        stamp[i] := now;
      }
      next := Next(prev, down, buffered);
      status[i] := next;
    }

    /** OnButtonUpdate: the button word is the big-endian pair of bytes at `off`. */
    method OnButtonUpdate(buffer: seq<bv8>, off: nat, buffered: bool, now: real)
      requires Valid() && off + 1 < |buffer|
      modifies this`word, this`wasUpdated, this`events, status, stamp
      ensures Valid() && wasUpdated && word == ButtonWord(buffer[off], buffer[off + 1])
      ensures status[..] == Stepped(old(status[..]), Contacts(masks, word, activeLow), buffered)
      ensures stamp[..] == Restamped(old(status[..]), old(stamp[..]), Contacts(masks, word, activeLow), buffered, now)
      ensures events == old(events) + Changes(masks, old(status[..]), status[..], |masks|)
      ensures Snapshot() == AfterWord(old(Snapshot()), masks, activeLow, ButtonWord(buffer[off], buffer[off + 1]),
                                      buffered, now)
    {
      Update(ButtonWord(buffer[off], buffer[off + 1]), buffered, now);
    }

    /** OnPostUpdate: without a report this tick buffered states settle; then every action's
        status is recomputed with the frame time as the error window, and the flag resets. */
    method OnPostUpdate(now: real, delta: real)
      requires Valid()
      modifies this`actions, this`wasUpdated, this`events, status
      ensures Valid() && !wasUpdated
      ensures status[..] == if old(wasUpdated) then old(status[..]) else Settled(old(status[..]))
      ensures actions == Refreshed(old(actions), masks, status[..], stamp[..], now, delta)
      ensures events == old(events) + Changes(masks, old(status[..]), status[..], |masks|) +
                        ActionChanges(old(actions), actions, |actions|)
      ensures Snapshot() == AfterPost(old(Snapshot()), masks, now, delta)
    {
      if !wasUpdated {
        SettleButtons();
      } else {
        ChangesNone(masks, status[..], status[..], |masks|);
      }
      RefreshActions(now, delta);
      wasUpdated := false;
    }

    /** The first half of OnPostUpdate: Pushed becomes Down and Released becomes Up. */
    method SettleButtons()
      requires Valid()
      modifies this`events, status
      ensures status[..] == Settled(old(status[..]))
      ensures events == old(events) + Changes(masks, old(status[..]), status[..], |masks|)
    {
      ghost var before := status[..];
      ghost var target := Settled(before);
      var i := 0;
      while i < status.Length
        invariant 0 <= i <= status.Length
        invariant forall k :: 0 <= k < i ==> status[k] == target[k]
        invariant forall k :: i <= k < status.Length ==> status[k] == before[k]
        invariant events == old(events) + Changes(masks, before, target, i)
      {
        var prev := status[i];
        status[i] := Settle(prev);
        if prev != status[i] {
          events := events + [ButtonChanged(masks[i], status[i], IsDown(status[i]))];
        }
        i := i + 1;
      }
      assert status[..] == target;
    }

    /** The second half of OnPostUpdate: each action's last status, in ID order. */
    method RefreshActions(now: real, err: real)
      requires Valid()
      modifies this`actions, this`events
      ensures Valid()
      ensures actions == Refreshed(old(actions), masks, status[..], stamp[..], now, err)
      ensures events == old(events) + ActionChanges(old(actions), actions, |actions|)
    {
      RefreshedKeepsActions(actions, masks, status[..], stamp[..], now, err);
      actions, events := Refreshing(now, err);
    }

    /** The loop of RefreshActions over copies of the action list and the notifications. */
    method Refreshing(now: real, err: real) returns (acts: seq<Action>, evs: seq<ButtonEvent>)
      requires status.Length == |masks| && stamp.Length == |masks|
      ensures acts == Refreshed(actions, masks, status[..], stamp[..], now, err)
      ensures evs == events + ActionChanges(actions, acts, |acts|)
    {
      ghost var target := Refreshed(actions, masks, status[..], stamp[..], now, err);
      acts, evs := actions, events;
      var j := 0;
      while j < |acts|
        invariant 0 <= j <= |acts| == |actions| == |target|
        invariant forall k :: 0 <= k < j ==> acts[k] == target[k]
        invariant forall k :: j <= k < |acts| ==> acts[k] == actions[k]
        invariant evs == events + ActionChanges(actions, target, j)
      {
        var prev := acts[j].last;
        var s := GetButtonStatus(acts[j].mask, now, err);
        assert acts[j].(last := s) == target[j];
        acts := acts[j := acts[j].(last := s)];
        if s != prev {
          evs := evs + [ActionChanged(acts[j].name, acts[j].id, s, IsDown(s))];
        }
        assert evs == events + ActionChanges(actions, target, j + 1);
        j := j + 1;
      }
      assert acts == target;
    }

    /** AddListener / RemoveListener. */
    method AddListener(l: Option<nat>)
      requires Valid()
      modifies this
      ensures Valid() && listeners == Listeners.Add(old(listeners), l)
      ensures actions == old(actions) && events == old(events)
      ensures attached == old(attached) && word == old(word) && seed == old(seed) && wasUpdated == old(wasUpdated)
    {
      Listeners.AddSpec(listeners, l);
      listeners := Listeners.Add(listeners, l);
    }

    method RemoveListener(l: Option<nat>)
      requires Valid()
      modifies this
      ensures Valid() && listeners == Listeners.Remove(old(listeners), l)
      ensures actions == old(actions) && events == old(events)
      ensures attached == old(attached) && word == old(word) && seed == old(seed) && wasUpdated == old(wasUpdated)
    {
      Listeners.RemoveNoDup(listeners, l);
      listeners := Listeners.Remove(listeners, l);
    }

    /** GetButtonStatus(mask, err) at time `now`. */
    method GetButtonStatus(mask: bv32, now: real, err: real) returns (r: Status)
      requires status.Length == |masks| && stamp.Length == |masks|
      ensures r == ButtonStatus(masks, status[..], stamp[..], mask, now, err)
    {
      if IsPow2(mask) {
        var i := 0;
        while i < status.Length
          invariant 0 <= i <= status.Length
          invariant Lookup(masks[i..], status[i..], mask) == Lookup(masks, status[..], mask)
        {
          if masks[i] == mask {
            return status[i];
          }
          assert masks[i..][1..] == masks[i + 1..];
          assert status[i..][1..] == status[i + 1..];
          i := i + 1;
        }
        return Up;
      }
      var acc: Option<Status> := None;
      var i := 0;
      while i < status.Length
        invariant 0 <= i <= status.Length
        invariant acc == if |Members(masks, status[..], stamp[..], mask, now, err, i)| == 0 then None
                         else Some(Chord(Members(masks, status[..], stamp[..], mask, now, err, i)))
      {
        ghost var m := Members(masks, status[..], stamp[..], mask, now, err, i);
        if CheckBits(masks[i], mask) {
          var s := Effective(status[i], stamp[i], now, err);
          assert Members(masks, status[..], stamp[..], mask, now, err, i + 1) == m + [s];
          assert (m + [s])[..|m|] == m;
          acc := if acc.None? then Some(s) else Some(Combine(acc.value, s));
        } else {
          assert Members(masks, status[..], stamp[..], mask, now, err, i + 1) == m;
        }
        i := i + 1;
      }
      r := if acc.None? then Up else acc.value;
    }

    /** IsButtonDown: anything but Up. */
    method IsButtonDown(mask: bv32, now: real, err: real) returns (down: bool)
      requires status.Length == |masks| && stamp.Length == |masks|
      ensures down <==> ButtonStatus(masks, status[..], stamp[..], mask, now, err) != Up
    {
      var s := GetButtonStatus(mask, now, err);
      down := IsDown(s);
    }

    /** RegisterAction: a known name gets its mask replaced and keeps its ID; a new name
        takes the next ID of the 16-bit seed and is inserted, replacing any entry that
        already holds that ID. */
    method RegisterAction(name: string, mask: bv32) returns (id: ActionId)
      requires Valid()
      modifies this
      ensures Valid()
      ensures FindName(actions, name).Some? && FindName(actions, name).value.id == id
      ensures FindName(actions, name).value.mask == mask
      ensures FindName(old(actions), name).Some? ==>
                id == FindName(old(actions), name).value.id && seed == old(seed) &&
                actions == seq(|old(actions)|, i requires 0 <= i < |old(actions)| =>
                               if old(actions)[i].name == name then old(actions)[i].(mask := mask)
                               else old(actions)[i])
      ensures FindName(old(actions), name).None? ==>
                id == NextId(old(seed)) && seed == id && actions == Put(old(actions), Action(id, name, mask, Up))
      ensures events == old(events) && listeners == old(listeners)
      ensures attached == old(attached) && word == old(word) && wasUpdated == old(wasUpdated)
    {
      var i := 0;
      while i < |actions|
        invariant 0 <= i <= |actions|
        invariant forall k :: 0 <= k < i ==> actions[k].name != name
      {
        if actions[i].name == name {
          ghost var acts := actions;
          FindNameAt(acts, i);
          actions := actions[i := actions[i].(mask := mask)];
          FindNameAt(actions, i);
          id := actions[i].id;
          assert actions == seq(|acts|, k requires 0 <= k < |acts| =>
                              if acts[k].name == name then acts[k].(mask := mask) else acts[k]);
          return;
        }
        i := i + 1;
      }
      FindNameNone(actions, name);
      seed := NextId(seed);
      id := seed;
      var a := Action(id, name, mask, Up);
      PutFreshName(actions, a);
      PutThenFind(actions, a);
      actions := Put(actions, a);
    }

    /** GetActionStatus by ID: an unknown ID reads Up. */
    method GetActionStatus(id: ActionId, now: real, err: real) returns (r: Status)
      requires status.Length == |masks| && stamp.Length == |masks|
      ensures r == match FindId(actions, id)
                   case None => Up
                   case Some(a) => ButtonStatus(masks, status[..], stamp[..], a.mask, now, err)
    {
      var i := 0;
      while i < |actions|
        invariant 0 <= i <= |actions|
        invariant FindId(actions[i..], id) == FindId(actions, id)
      {
        if actions[i].id == id {
          r := GetButtonStatus(actions[i].mask, now, err);
          return;
        }
        assert actions[i..][1..] == actions[i + 1..];
        i := i + 1;
      }
      r := Up;
    }

    /** GetActionStatus by name: the first action so named, in ID order; unknown reads Up. */
    method GetNamedActionStatus(name: string, now: real, err: real) returns (r: Status)
      requires status.Length == |masks| && stamp.Length == |masks|
      ensures r == match FindName(actions, name)
                   case None => Up
                   case Some(a) => ButtonStatus(masks, status[..], stamp[..], a.mask, now, err)
    {
      var i := 0;
      while i < |actions|
        invariant 0 <= i <= |actions|
        invariant FindName(actions[i..], name) == FindName(actions, name)
      {
        if actions[i].name == name {
          r := GetButtonStatus(actions[i].mask, now, err);
          return;
        }
        assert actions[i..][1..] == actions[i + 1..];
        i := i + 1;
      }
      r := Up;
    }

    /** IsActionDown by name: an unknown action is not down. */
    method IsActionDown(name: string, now: real, err: real) returns (down: bool)
      requires status.Length == |masks| && stamp.Length == |masks|
      ensures down <==> match FindName(actions, name)
                        case None => false
                        case Some(a) => ButtonStatus(masks, status[..], stamp[..], a.mask, now, err) != Up
    {
      var s := GetNamedActionStatus(name, now, err);
      down := IsDown(s);
    }
  }

  /** The button word of a report: the two bytes at the offset, high byte first. */
  function ButtonWord(hi: bv8, lo: bv8): (w: bv32)
    ensures w & 0xFF == lo as bv32 && w >> 8 == hi as bv32
  {
    (hi as bv32 << 8) | lo as bv32
  }
}
