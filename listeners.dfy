// Listener registration lists. Every helper object of the driver keeps a
// std::list of listener pointers with the same AddListener/RemoveListener
// code: NULL is ignored, a listener is added at most once, and removal
// erases the first occurrence.
module Listeners {
  import opened Wrappers

  predicate NoDup<L(==)>(s: seq<L>)
  {
    forall i, j :: 0 <= i < j < |s| ==> s[i] != s[j]
  }

  /** AddListener: appends `l` unless it is NULL or already registered. */
  function Add<L(==)>(ls: seq<L>, l: Option<L>): seq<L>
  {
    match l
    case None => ls
    case Some(x) => if x in ls then ls else ls + [x]
  }

  /** The first occurrence of `x` removed (list::erase at the found iterator). */
  function EraseFirst<L(==)>(ls: seq<L>, x: L): seq<L>
  {
    if ls == [] then []
    else if ls[0] == x then ls[1..]
    else [ls[0]] + EraseFirst(ls[1..], x)
  }

  /** RemoveListener: NULL is ignored. */
  function Remove<L(==)>(ls: seq<L>, l: Option<L>): seq<L>
  {
    match l
    case None => ls
    case Some(x) => EraseFirst(ls, x)
  }

  /** After AddListener the listener is registered, and registering never duplicates. */
  lemma AddSpec<L>(ls: seq<L>, l: Option<L>)
    requires NoDup(ls)
    ensures NoDup(Add(ls, l))
    ensures l.Some? ==> l.value in Add(ls, l)
    ensures l.Some? && l.value in ls ==> Add(ls, l) == ls
    ensures forall y :: y in ls ==> y in Add(ls, l)
  {
  }

  /** Erasing keeps every other element, and drops exactly one copy of `x`. */
  lemma {:induction false} EraseFirstSpec<L>(ls: seq<L>, x: L)
    ensures multiset(EraseFirst(ls, x)) == multiset(ls) - multiset{x}
  {
    if ls == [] {
    } else if ls[0] == x {
      assert ls == [ls[0]] + ls[1..];
    } else {
      EraseFirstSpec(ls[1..], x);
      assert ls == [ls[0]] + ls[1..];
    }
  }

  /** Erasing a listener that is not registered leaves the list as it was. */
  lemma {:induction false} EraseFirstAbsent<L>(ls: seq<L>, x: L)
    requires x !in ls
    ensures EraseFirst(ls, x) == ls
  {
    if ls != [] {
      EraseFirstAbsent(ls[1..], x);
    }
  }

  /** With no duplicates, RemoveListener leaves the listener unregistered. */
  lemma RemoveSpec<L>(ls: seq<L>, l: Option<L>)
    requires NoDup(ls)
    ensures l.Some? ==> l.value !in Remove(ls, l)
    ensures l.Some? ==> multiset(Remove(ls, l)) == multiset(ls) - multiset{l.value}
    ensures l.None? ==> Remove(ls, l) == ls
  {
    if l.Some? {
      var x := l.value;
      EraseFirstSpec(ls, x);
      if x in ls {
        var i :| 0 <= i < |ls| && ls[i] == x;
        assert multiset(ls)[x] == 1 by { CountOne(ls, i); }
      }
      assert multiset(Remove(ls, l))[x] == 0;
    }
  }

  lemma {:induction false} CountOne<L>(ls: seq<L>, i: nat)
    requires NoDup(ls) && i < |ls|
    ensures multiset(ls)[ls[i]] == 1
  {
    if i == 0 {
      assert ls == [ls[0]] + ls[1..];
      assert ls[0] !in ls[1..];
    } else {
      assert ls == [ls[0]] + ls[1..];
      CountOne(ls[1..], i - 1);
    }
  }

  /** Adding a new listener and removing it again restores the list. */
  lemma AddThenRemove<L>(ls: seq<L>, x: L)
    requires x !in ls
    ensures Remove(Add(ls, Some(x)), Some(x)) == ls
  {
    EraseAppend(ls, x);
  }

  lemma {:induction false} EraseAppend<L>(ls: seq<L>, x: L)
    requires x !in ls
    ensures EraseFirst(ls + [x], x) == ls
  {
    if ls != [] {
      assert (ls + [x])[1..] == ls[1..] + [x];
      EraseAppend(ls[1..], x);
    }
  }

  /** RemoveListener keeps the list free of duplicates. */
  lemma RemoveNoDup<L>(ls: seq<L>, l: Option<L>)
    requires NoDup(ls)
    ensures NoDup(Remove(ls, l))
  {
    if l.Some? {
      EraseFirstNoDup(ls, l.value);
    }
  }

  lemma {:induction false} EraseFirstNoDup<L>(ls: seq<L>, x: L)
    requires NoDup(ls)
    ensures NoDup(EraseFirst(ls, x))
  {
    if ls != [] && ls[0] != x {
      var rest := EraseFirst(ls[1..], x);
      EraseFirstNoDup(ls[1..], x);
      EraseFirstSpec(ls[1..], x);
      assert ls[0] !in ls[1..];
      assert multiset(ls[1..])[ls[0]] == 0;
      assert ls[0] !in multiset(rest);
      assert EraseFirst(ls, x) == [ls[0]] + rest;
    }
  }
}
