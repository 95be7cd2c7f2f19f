/** The configuration-change listener registry: an ordered list of listeners
    in which none appears twice, and change notification that calls each of
    them once, in registration order. A listener is any value with equality
    (the registry compares with `equals`); what a listener does when called is
    outside the model, except whether the call throws, which is a parameter. */
module ConfigListeners {
  import opened Basics
  import Seqs = Sequences

  /** One `onConfigChanged` call: the listener, the kind of change, and the old
      and new values. */
  datatype Notification<L, C, V> = Notification(listener: L, changeType: C, oldValue: V, newValue: V)

  /** registerListener: a missing (null) listener, or one already registered,
      is ignored; any other joins at the end of the list. */
  function Register<L(==,!new)>(ls: seq<L>, l: Option<L>): (r: seq<L>)
    ensures forall x :: x in r <==> x in ls || l == Some(x)
    ensures |r| == |ls| + (if l.Some? && l.value !in ls then 1 else 0)
    ensures r[..|ls|] == ls
    ensures Seqs.Distinct(ls) ==> Seqs.Distinct(r)
  {
    if l.None? || l.value in ls then ls else ls + [l.value]
  }

  /** `List.remove(Object)`: drops the first element equal to `x`, if any. */
  function RemoveFirst<L(==,!new)>(ls: seq<L>, x: L): (r: seq<L>)
    ensures x !in ls ==> r == ls
    ensures x in ls ==> |r| == |ls| - 1
    ensures multiset(r) == multiset(ls) - multiset{x}
  {
    if |ls| == 0 then []
    else if ls[0] == x then
      assert ls == [ls[0]] + ls[1..];
      ls[1..]
    else
      assert ls == [ls[0]] + ls[1..];
      [ls[0]] + RemoveFirst(ls[1..], x)
  }

  /** unregisterListener: removes the listener and reports whether it was
      registered. A missing (null) listener matches nothing, since the list never
      holds one. */
  function Unregister<L(==,!new)>(ls: seq<L>, l: Option<L>): (r: (seq<L>, bool))
    ensures r.1 <==> l.Some? && l.value in ls
    ensures !r.1 ==> r.0 == ls
    ensures r.1 ==> multiset(r.0) == multiset(ls) - multiset{l.value}
  {
    if l.Some? then (RemoveFirst(ls, l.value), l.value in ls) else (ls, false)
  }

  /** In a list without repetitions, an unregistered listener is gone and the
      others stay, in their order. */
  lemma UnregisterRemoves<L(!new)>(ls: seq<L>, l: L)
    requires Seqs.Distinct(ls)
    ensures var r := Unregister(ls, Some(l)).0;
            && l !in r
            && (forall x :: x in r <==> x in ls && x != l)
            && Seqs.Distinct(r)
  {
    var r := Unregister(ls, Some(l)).0;
    assert multiset(r) == multiset(ls) - multiset{l};
    assert multiset(ls)[l] <= 1 by {
      DistinctCountsOnce(ls, l);
    }
    forall x ensures x in r <==> x in ls && x != l {
      assert x in r <==> x in multiset(r);
      assert x in ls <==> x in multiset(ls);
    }
    RemoveFirstKeepsDistinct(ls, l);
  }

  lemma {:induction false} DistinctCountsOnce<L(!new)>(ls: seq<L>, x: L)
    requires Seqs.Distinct(ls)
    ensures multiset(ls)[x] <= 1
  {
    if |ls| > 0 {
      assert ls == [ls[0]] + ls[1..];
      assert Seqs.Distinct(ls[1..]);
      DistinctCountsOnce(ls[1..], x);
      if ls[0] == x {
        assert x !in ls[1..];
      }
    }
  }

  lemma {:induction false} RemoveFirstKeepsDistinct<L(!new)>(ls: seq<L>, x: L)
    requires Seqs.Distinct(ls)
    ensures Seqs.Distinct(RemoveFirst(ls, x))
  {
    if |ls| > 0 {
      assert Seqs.Distinct(ls[1..]);
      if ls[0] != x {
        var rest := RemoveFirst(ls[1..], x);
        RemoveFirstKeepsDistinct(ls[1..], x);
        assert ls[0] !in ls[1..];
        RemoveFirstAddsNothing(ls[1..], x, ls[0]);
        ConsDistinct(ls[0], rest);
      }
    }
  }

  /** Removing an element brings in no value the list did not hold. */
  lemma RemoveFirstAddsNothing<L(!new)>(ls: seq<L>, x: L, y: L)
    requires y !in ls
    ensures y !in RemoveFirst(ls, x)
  {
    assert y !in multiset(ls);
    assert multiset(RemoveFirst(ls, x)) == multiset(ls) - multiset{x};
  }

  lemma ConsDistinct<L>(a: L, rest: seq<L>)
    requires a !in rest && Seqs.Distinct(rest)
    ensures Seqs.Distinct([a] + rest)
  {
    var s := [a] + rest;
    forall j, k | 0 <= j < k < |s| ensures s[j] != s[k] {
      assert s[k] == rest[k - 1];
      if j > 0 {
        assert s[j] == rest[j - 1];
      }
    }
  }

  /** Registering a new listener and then unregistering it gives back the list
      it was registered into. */
  lemma RegisterThenUnregister<L(!new)>(ls: seq<L>, l: L)
    requires l !in ls
    ensures Unregister(Register(ls, Some(l)), Some(l)) == (ls, true)
  {
    RemoveLast(ls, l);
  }

  lemma {:induction false} RemoveLast<L(!new)>(ls: seq<L>, l: L)
    requires l !in ls
    ensures RemoveFirst(ls + [l], l) == ls
  {
    if |ls| > 0 {
      assert (ls + [l])[1..] == ls[1..] + [l];
      RemoveLast(ls[1..], l);
      assert ls == [ls[0]] + ls[1..];
    }
  }

  /** Registering twice is registering once. */
  lemma RegisterIdempotent<L(!new)>(ls: seq<L>, l: Option<L>)
    ensures Register(Register(ls, l), l) == Register(ls, l)
  {
  }

  /** Filtering a list extended by one element filters the list and then that
      element. */
  lemma {:induction false} FilterSnoc<L(!new)>(s: seq<L>, x: L, p: L -> bool)
    ensures Seqs.Filter(s + [x], p) == Seqs.Filter(s, p) + (if p(x) then [x] else [])
    decreases |s|
  {
    if |s| > 0 {
      assert (s + [x])[1..] == s[1..] + [x];
      FilterSnoc(s[1..], x, p);
    }
  }

  /** The listeners that throw, in list order, collected from the front. */
  function Throwing<L(!new)>(ls: seq<L>, throws: L -> bool): seq<L>
  {
    if |ls| == 0 then []
    else Throwing(ls[..|ls| - 1], throws) + (if throws(ls[|ls| - 1]) then [ls[|ls| - 1]] else [])
  }

  /** Collecting from the front keeps exactly the throwing listeners. */
  lemma {:induction false} ThrowingIsFilter<L(!new)>(ls: seq<L>, throws: L -> bool)
    ensures Throwing(ls, throws) == Seqs.Filter(ls, throws)
  {
    if |ls| > 0 {
      var init, last := ls[..|ls| - 1], ls[|ls| - 1];
      ThrowingIsFilter(init, throws);
      assert ls == init + [last];
      FilterSnoc(init, last, throws);
    }
  }

  /** notifyChange: every registered listener is called once, in registration
      order, with the same arguments; a listener that throws (`throws`) has its
      error logged and the loop goes on. Returns the calls made and the
      listeners whose errors were logged. */
  method NotifyChange<L(!new), C, V>(ls: seq<L>, changeType: C, oldValue: V, newValue: V, throws: L -> bool)
    returns (calls: seq<Notification<L, C, V>>, errors: seq<L>)
    ensures |calls| == |ls|
    ensures forall k :: 0 <= k < |ls| ==> calls[k] == Notification(ls[k], changeType, oldValue, newValue)
    ensures errors == Seqs.Filter(ls, throws)
  {
    calls := [];
    errors := [];
    var k := 0;
    while k < |ls|
      invariant 0 <= k <= |ls|
      invariant |calls| == k
      invariant forall j :: 0 <= j < k ==> calls[j] == Notification(ls[j], changeType, oldValue, newValue)
      invariant errors == Throwing(ls[..k], throws)
    {
      assert ls[..k + 1][..k] == ls[..k];
      calls := calls + [Notification(ls[k], changeType, oldValue, newValue)];
      if throws(ls[k]) {
        errors := errors + [ls[k]];
      }
      k := k + 1;
    }
    assert ls[..k] == ls;
    ThrowingIsFilter(ls, throws);
  }

  /** notifyBooleanChange: notifies only when the value really changed. */
  method NotifyBooleanChange<L(!new), C>(ls: seq<L>, changeType: C, oldValue: bool, newValue: bool, throws: L -> bool)
    returns (calls: seq<Notification<L, C, bool>>, errors: seq<L>)
    ensures oldValue == newValue ==> calls == [] && errors == []
    ensures oldValue != newValue ==>
              && |calls| == |ls|
              && (forall k :: 0 <= k < |ls| ==> calls[k] == Notification(ls[k], changeType, oldValue, newValue))
              && errors == Seqs.Filter(ls, throws)
  {
    calls, errors := [], [];
    if oldValue != newValue {
      calls, errors := NotifyChange(ls, changeType, oldValue, newValue, throws);
    }
  }

  /** notifyIntegerChange: notifies only when the value really changed. */
  method NotifyIntegerChange<L(!new), C>(ls: seq<L>, changeType: C, oldValue: Int32, newValue: Int32, throws: L -> bool)
    returns (calls: seq<Notification<L, C, Int32>>, errors: seq<L>)
    ensures oldValue == newValue ==> calls == [] && errors == []
    ensures oldValue != newValue ==>
              && |calls| == |ls|
              && (forall k :: 0 <= k < |ls| ==> calls[k] == Notification(ls[k], changeType, oldValue, newValue))
              && errors == Seqs.Filter(ls, throws)
  {
    calls, errors := [], [];
    if oldValue != newValue {
      calls, errors := NotifyChange(ls, changeType, oldValue, newValue, throws);
    }
  }

  /** clearListeners: no listener is left. */
  function Clear<L>(ls: seq<L>): (r: seq<L>)
    ensures forall x :: x !in r
  {
    []
  }

  /** getListenerCount: the number of registered listeners. */
  function Count<L>(ls: seq<L>): nat
  {
    |ls|
  }

  /** The count grows by one exactly when a present, new listener is registered;
      after clearing it is 0, and the next registration is the only listener. */
  lemma CountAfterRegister<L(!new)>(ls: seq<L>, l: Option<L>, n: L)
    ensures Count(Register(ls, l)) == Count(ls) + 1 <==> l.Some? && l.value !in ls
    ensures Count(Register(ls, l)) == Count(ls) <==> l.None? || l.value in ls
    ensures Count(Clear(ls)) == 0 && Register(Clear(ls), Some(n)) == [n]
  {
  }
}
