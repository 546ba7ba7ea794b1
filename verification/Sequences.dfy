/** Weighted sums over sequences and the one operation every machine of this
    project performs on its list of workers: take the i-th entry out and, unless
    it is finished, put its successor at the end. */
module Sequences {

  datatype Option<+T> = None | Some(value: T)

  function Bit(b: bool): nat {
    if b then 1 else 0
  }

  function Weigh<T>(s: seq<T>, w: T -> nat): nat {
    if s == [] then 0 else w(s[0]) + Weigh(s[1..], w)
  }

  function Remove<T>(s: seq<T>, i: nat): seq<T>
    requires i < |s|
  {
    s[..i] + s[i + 1..]
  }

  /** Entry i leaves; its successor, if any, queues up behind all others. */
  function Move<T>(s: seq<T>, i: nat, next: Option<T>): seq<T>
    requires i < |s|
  {
    Remove(s, i) + (if next.Some? then [next.value] else [])
  }

  lemma {:induction false} WeighAppend<T>(a: seq<T>, b: seq<T>, w: T -> nat)
    ensures Weigh(a + b, w) == Weigh(a, w) + Weigh(b, w)
  {
    if a == [] {
      assert a + b == b;
    } else {
      assert (a + b)[1..] == a[1..] + b;
      WeighAppend(a[1..], b, w);
    }
  }

  lemma {:induction false} WeighSplit<T>(s: seq<T>, i: nat, w: T -> nat)
    requires i < |s|
    ensures Weigh(s, w) == Weigh(Remove(s, i), w) + w(s[i])
  {
    if i == 0 {
      assert Remove(s, 0) == s[1..];
    } else {
      WeighSplit(s[1..], i - 1, w);
      assert Remove(s, i)[0] == s[0] && Remove(s, i)[1..] == Remove(s[1..], i - 1);
    }
  }

  /** An entry is replaced by one that weighs the same. */
  lemma {:induction false} WeighReplace<T>(s: seq<T>, i: nat, x: T, w: T -> nat)
    requires i < |s| && w(x) == w(s[i])
    ensures Weigh(s[i := x], w) == Weigh(s, w)
  {
    if i == 0 {
      assert s[0 := x][1..] == s[1..];
    } else {
      WeighReplace(s[1..], i - 1, x, w);
      assert s[i := x][1..] == s[1..][i - 1 := x];
    }
  }

  lemma {:induction false} WeighLowered<T>(s: seq<T>, i: nat, x: T, w: T -> nat)
    requires i < |s| && w(x) < w(s[i])
    ensures Weigh(s[i := x], w) < Weigh(s, w)
  {
    if i == 0 {
      assert s[0 := x][1..] == s[1..];
    } else {
      WeighLowered(s[1..], i - 1, x, w);
      assert s[i := x][1..] == s[1..][i - 1 := x];
    }
  }

  lemma WeighOne<T>(x: T, w: T -> nat)
    ensures Weigh([x], w) == w(x)
  {
    assert [x][1..] == [];
  }

  lemma WeighMove<T>(s: seq<T>, i: nat, next: Option<T>, w: T -> nat)
    requires i < |s|
    ensures Weigh(Move(s, i, next), w) + w(s[i]) == Weigh(s, w) + (if next.Some? then w(next.value) else 0)
  {
    WeighSplit(s, i, w);
    if next.Some? {
      WeighAppend(Remove(s, i), [next.value], w);
      WeighOne(next.value, w);
    } else {
      assert Move(s, i, next) == Remove(s, i);
    }
  }

  lemma {:induction false} WeighPositive<T>(s: seq<T>, w: T -> nat) returns (i: nat)
    requires Weigh(s, w) > 0
    ensures i < |s| && w(s[i]) > 0
  {
    if w(s[0]) > 0 {
      i := 0;
    } else {
      var j := WeighPositive(s[1..], w);
      i := j + 1;
    }
  }

  lemma WeighAt<T>(s: seq<T>, i: nat, w: T -> nat)
    requires i < |s|
    ensures w(s[i]) <= Weigh(s, w)
  {
    WeighSplit(s, i, w);
  }
}
