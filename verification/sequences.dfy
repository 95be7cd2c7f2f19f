/** Order-preserving filtering of sequences, the shape of the Java stream
    `filter(...).collect(...)` pipelines used throughout the model. */
module Sequences {

  /** Keys strictly increase along `s` (so `s` has no repeated keys). */
  predicate Increasing<T>(s: seq<T>, key: T -> int)
  {
    forall j, k :: 0 <= j < k < |s| ==> key(s[j]) < key(s[k])
  }

  /** Keeps the elements satisfying `p`, in their original order. */
  function Filter<T(!new)>(s: seq<T>, p: T -> bool): (r: seq<T>)
    ensures forall x :: x in r <==> x in s && p(x)
    ensures forall i :: 0 <= i < |r| ==> p(r[i])
    ensures |r| <= |s|
    decreases |s|
  {
    if |s| == 0 then []
    else if p(s[0]) then [s[0]] + Filter(s[1..], p)
    else Filter(s[1..], p)
  }

  /** No element occurs twice. */
  predicate Distinct<T(==)>(s: seq<T>)
  {
    forall j, k :: 0 <= j < k < |s| ==> s[j] != s[k]
  }

  /** Filtering a sequence without repetitions gives one without repetitions. */
  lemma {:induction false} FilterKeepsDistinct<T(!new)>(s: seq<T>, p: T -> bool)
    requires Distinct(s)
    ensures Distinct(Filter(s, p))
  {
    if |s| > 0 {
      var rest := Filter(s[1..], p);
      FilterKeepsDistinct(s[1..], p);
      assert s[0] !in s[1..];
      assert s[0] !in rest;
      if p(s[0]) {
        var r := [s[0]] + rest;
        assert Filter(s, p) == r;
        forall j, k | 0 <= j < k < |r| ensures r[j] != r[k] {
          assert r[k] == rest[k - 1] && rest[k - 1] in rest;
          if j > 0 {
            assert r[j] == rest[j - 1];
          }
        }
      } else {
        assert Filter(s, p) == rest;
      }
    }
  }

  lemma {:induction false} FilterKeepsOrder<T(!new)>(s: seq<T>, p: T -> bool, key: T -> int)
    requires Increasing(s, key)
    ensures Increasing(Filter(s, p), key)
    decreases |s|
  {
    if |s| > 0 {
      var rest := Filter(s[1..], p);
      assert Increasing(s[1..], key);
      FilterKeepsOrder(s[1..], p, key);
      if p(s[0]) {
        forall x | x in rest ensures key(s[0]) < key(x) {
          var k :| 0 <= k < |s[1..]| && s[1..][k] == x;
          assert s[k + 1] == x;
        }
        var r := [s[0]] + rest;
        forall j, k | 0 <= j < k < |r| ensures key(r[j]) < key(r[k]) {
          assert r[k] == rest[k - 1];
          assert r[k] in rest;
          if j > 0 {
            assert r[j] == rest[j - 1];
          }
        }
      }
    }
  }

  lemma HeadComesFirst<T>(a: seq<T>, x: T, key: T -> int)
    requires Increasing(a, key) && x in a
    ensures key(a[0]) <= key(x)
  {
    var j :| 0 <= j < |a| && a[j] == x;
    if j > 0 {
      assert key(a[0]) < key(a[j]);
    }
  }

  /** Past the head, a key-ordered sequence holds exactly its members other than the head. */
  lemma TailMembers<T>(a: seq<T>, x: T, key: T -> int)
    requires Increasing(a, key) && |a| > 0
    ensures x in a[1..] <==> x in a && key(x) != key(a[0])
  {
    if x in a[1..] {
      var j :| 0 <= j < |a[1..]| && a[1..][j] == x;
      assert a[j + 1] == x;
      assert key(a[0]) < key(a[j + 1]);
    }
    if x in a && key(x) != key(a[0]) {
      var j :| 0 <= j < |a| && a[j] == x;
      assert j != 0;
      assert a[1..][j - 1] == x;
    }
  }

  lemma FirstIsMember<T>(b: seq<T>)
    ensures |b| == 0 || b[0] in b
  {
  }

  /** Two key-ordered sequences with the same members are equal, when keys are injective. */
  lemma {:induction false} OrderedWithSameMembersAreEqual<T>(a: seq<T>, b: seq<T>, key: T -> int)
    requires forall x, y :: key(x) == key(y) ==> x == y
    requires Increasing(a, key) && Increasing(b, key)
    requires forall x :: x in a <==> x in b
    ensures a == b
    decreases |a|
  {
    if |a| == 0 {
      FirstIsMember(b);
    } else {
      HeadsAgree(a, b, key);
      TailsAgree(a, b, key);
      OrderedWithSameMembersAreEqual(a[1..], b[1..], key);
      assert a == [a[0]] + a[1..];
      assert b == [b[0]] + b[1..];
    }
  }

  lemma HeadsAgree<T>(a: seq<T>, b: seq<T>, key: T -> int)
    requires forall x, y :: key(x) == key(y) ==> x == y
    requires Increasing(a, key) && Increasing(b, key) && |a| > 0
    requires forall x :: x in a <==> x in b
    ensures |b| > 0 && a[0] == b[0]
  {
    assert a[0] in b;
    HeadComesFirst(b, a[0], key);
    assert b[0] in a;
    HeadComesFirst(a, b[0], key);
    assert key(a[0]) == key(b[0]);
  }

  lemma TailsAgree<T>(a: seq<T>, b: seq<T>, key: T -> int)
    requires Increasing(a, key) && Increasing(b, key) && |a| > 0 && |b| > 0 && a[0] == b[0]
    requires forall x :: x in a <==> x in b
    ensures Increasing(a[1..], key) && Increasing(b[1..], key)
    ensures forall x :: x in a[1..] <==> x in b[1..]
  {
    forall x ensures x in a[1..] <==> x in b[1..] {
      TailMembers(a, x, key);
      TailMembers(b, x, key);
    }
  }

  // ---------------------------------------------------------------------------
  // Stable descending sort by a real-valued score, as `List.sort` with a
  // comparator that compares scores in reverse

  /** Inserts `x`, which came before every element of `t`, into the descending
      sequence `t`: it goes before the first element scoring strictly less, so
      among equal scores the earlier element stays first. */
  function InsertDesc<T>(x: T, t: seq<T>, f: T -> real): (r: seq<T>)
    ensures |r| == |t| + 1
    ensures multiset(r) == multiset(t) + multiset{x}
    decreases |t|
  {
    if |t| == 0 || f(x) >= f(t[0]) then [x] + t
    else
      assert t == [t[0]] + t[1..];
      [t[0]] + InsertDesc(x, t[1..], f)
  }

  function SortDesc<T>(s: seq<T>, f: T -> real): (r: seq<T>)
    ensures |r| == |s|
    ensures multiset(r) == multiset(s)
    decreases |s|
  {
    if |s| == 0 then []
    else
      assert s == [s[0]] + s[1..];
      InsertDesc(s[0], SortDesc(s[1..], f), f)
  }

  predicate Descending<T>(s: seq<T>, f: T -> real)
  {
    forall i, j :: 0 <= i < j < |s| ==> f(s[i]) >= f(s[j])
  }

  lemma {:induction false} InsertDescKeepsOrder<T>(x: T, t: seq<T>, f: T -> real)
    requires Descending(t, f)
    ensures Descending(InsertDesc(x, t, f), f)
    decreases |t|
  {
    if |t| > 0 && f(x) < f(t[0]) {
      InsertDescKeepsOrder(x, t[1..], f);
      var rest := InsertDesc(x, t[1..], f);
      InsertDescBelow(x, t[1..], f, f(t[0]));
      var r := [t[0]] + rest;
      assert InsertDesc(x, t, f) == r;
      forall i, j | 0 <= i < j < |r| ensures f(r[i]) >= f(r[j]) {
        assert r[j] == rest[j - 1];
        if i > 0 {
          assert r[i] == rest[i - 1];
        }
      }
    }
  }

  /** Inserting a value scoring at most `c` among values scoring at most `c`
      keeps every score at most `c`. */
  lemma {:induction false} InsertDescBelow<T>(x: T, t: seq<T>, f: T -> real, c: real)
    requires f(x) <= c && forall k :: 0 <= k < |t| ==> f(t[k]) <= c
    ensures forall k :: 0 <= k < |InsertDesc(x, t, f)| ==> f(InsertDesc(x, t, f)[k]) <= c
    decreases |t|
  {
    if |t| > 0 && f(x) < f(t[0]) {
      InsertDescBelow(x, t[1..], f, c);
      var rest := InsertDesc(x, t[1..], f);
      assert InsertDesc(x, t, f) == [t[0]] + rest;
    }
  }

  /** The result of the sort is in descending order of score. */
  lemma {:induction false} SortDescIsDescending<T>(s: seq<T>, f: T -> real)
    ensures Descending(SortDesc(s, f), f)
    decreases |s|
  {
    if |s| > 0 {
      SortDescIsDescending(s[1..], f);
      InsertDescKeepsOrder(s[0], SortDesc(s[1..], f), f);
    }
  }

  /** The position of the first element with the largest score. */
  function FirstMax<T>(s: seq<T>, f: T -> real): (i: nat)
    requires |s| > 0
    ensures i < |s|
    ensures forall j :: 0 <= j < |s| ==> f(s[j]) <= f(s[i])
    ensures forall j :: 0 <= j < i ==> f(s[j]) < f(s[i])
    decreases |s|
  {
    if |s| == 1 then 0
    else
      var k := 1 + FirstMax(s[1..], f);
      assert forall j :: 1 <= j < |s| ==> s[j] == s[1..][j - 1];
      if f(s[0]) >= f(s[k]) then 0 else k
  }

  /** The head of the stable descending sort is the first element of maximal
      score: ties go to the element that came first. */
  lemma {:induction false} SortDescHead<T>(s: seq<T>, f: T -> real)
    requires |s| > 0
    ensures SortDesc(s, f)[0] == s[FirstMax(s, f)]
    decreases |s|
  {
    if |s| > 1 {
      SortDescHead(s[1..], f);
    }
  }
}
