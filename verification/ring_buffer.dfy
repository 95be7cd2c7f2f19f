/** The fixed-capacity FIFO buffer behind every issue tracker. The buffer is a
    sequence whose index 0 is the oldest retained value; adding to a full buffer
    evicts the oldest value. */
module RingBuffer {
  import opened Basics

  /** The newest `n` values of `s` (all of `s` when it holds fewer). */
  function Newest<T>(s: seq<T>, n: nat): (r: seq<T>)
    ensures |r| == Min(n, |s|)
    ensures forall i :: 0 <= i < |r| ==> r[i] == s[|s| - |r| + i]
  {
    s[|s| - Min(n, |s|)..]
  }

  /** `add`: append `x`, dropping the oldest value when the buffer is full. */
  function Push<T>(buf: seq<T>, cap: nat, x: T): (r: seq<T>)
    requires 1 <= cap && |buf| <= cap
    ensures |r| <= cap && |r| == Min(|buf| + 1, cap)
    ensures r == Newest(buf + [x], cap)
    ensures r[|r| - 1] == x
  {
    if |buf| < cap then buf + [x] else buf[1..] + [x]
  }

  /** Adds every value of `xs` in order. */
  function PushAll<T>(buf: seq<T>, cap: nat, xs: seq<T>): seq<T>
    requires 1 <= cap && |buf| <= cap
    decreases |xs|
  {
    if |xs| == 0 then buf else PushAll(Push(buf, cap, xs[0]), cap, xs[1..])
  }

  lemma NewestOfNewest<T>(s: seq<T>, t: seq<T>, cap: nat)
    ensures Newest(Newest(s, cap) + t, cap) == Newest(s + t, cap)
  {
    var a := Newest(Newest(s, cap) + t, cap);
    var b := Newest(s + t, cap);
    assert |a| == |b|;
    forall i | 0 <= i < |a| ensures a[i] == b[i] {
      var u := Newest(s, cap) + t;
      var j := |u| - |a| + i;
      if j < |Newest(s, cap)| {
        assert u[j] == s[|s| - |Newest(s, cap)| + j];
      }
    }
  }

  /** Feeding any stream into a buffer leaves exactly the newest `cap` values of
      the buffer's old contents followed by the stream, oldest first. */
  lemma {:induction false} PushAllKeepsNewest<T>(buf: seq<T>, cap: nat, xs: seq<T>)
    requires 1 <= cap && |buf| <= cap
    ensures PushAll(buf, cap, xs) == Newest(buf + xs, cap)
    decreases |xs|
  {
    if |xs| == 0 {
      assert buf + xs == buf;
    } else {
      var x, rest := xs[0], xs[1..];
      assert xs == [x] + rest;
      PushAllKeepsNewest(Push(buf, cap, x), cap, rest);
      PushThenNewest(buf, cap, x, rest);
    }
  }

  /** Pushing one value and then keeping the newest of the buffer followed by
      more values keeps the newest of everything. */
  lemma PushThenNewest<T>(buf: seq<T>, cap: nat, x: T, rest: seq<T>)
    requires 1 <= cap && |buf| <= cap
    ensures Newest(Push(buf, cap, x) + rest, cap) == Newest(buf + ([x] + rest), cap)
  {
    NewestOfNewest(buf + [x], rest, cap);
    assert buf + [x] + rest == buf + ([x] + rest);
  }
}
