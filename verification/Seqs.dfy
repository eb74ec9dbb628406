/** Sums and flattenings of sequences, with the few facts the proofs need about them. */
module Seqs {
  function Sum<T>(s: seq<T>, f: T -> int): int {
    if s == [] then 0 else f(s[0]) + Sum(s[1..], f)
  }

  lemma {:induction false} SumAppend<T>(s: seq<T>, t: seq<T>, f: T -> int)
    ensures Sum(s + t, f) == Sum(s, f) + Sum(t, f)
  {
    if s == [] {
      assert s + t == t;
    } else {
      assert (s + t)[1..] == s[1..] + t;
      SumAppend(s[1..], t, f);
    }
  }

  lemma SumOne<T>(x: T, f: T -> int)
    ensures Sum([x], f) == f(x)
  {
    assert [x][1..] == [];
  }

  lemma SumPush<T>(s: seq<T>, x: T, f: T -> int)
    ensures Sum(s + [x], f) == Sum(s, f) + f(x)
  {
    SumAppend(s, [x], f);
    SumOne(x, f);
  }

  lemma {:induction false} SumUpdate<T>(s: seq<T>, i: nat, x: T, f: T -> int)
    requires i < |s|
    ensures Sum(s[i := x], f) == Sum(s, f) - f(s[i]) + f(x)
  {
    if i == 0 {
      assert s[i := x][1..] == s[1..];
    } else {
      assert s[i := x][1..] == s[1..][i - 1 := x];
      SumUpdate(s[1..], i - 1, x, f);
    }
  }

  lemma {:induction false} SumPointwise<T>(s: seq<T>, t: seq<T>, f: T -> int)
    requires |s| == |t|
    requires forall i :: 0 <= i < |s| ==> f(s[i]) == f(t[i])
    ensures Sum(s, f) == Sum(t, f)
  {
    if s != [] {
      SumPointwise(s[1..], t[1..], f);
    }
  }

  lemma {:induction false} SumZero<T>(s: seq<T>, f: T -> int)
    requires forall x :: x in s ==> f(x) == 0
    ensures Sum(s, f) == 0
  {
    if s != [] {
      SumZero(s[1..], f);
    }
  }

  lemma {:induction false} SumNonNegative<T>(s: seq<T>, f: T -> int)
    requires forall x :: x in s ==> f(x) >= 0
    ensures Sum(s, f) >= 0
  {
    if s != [] {
      SumNonNegative(s[1..], f);
    }
  }

  /** One element never outweighs the sum of non-negative weights. */
  lemma {:induction false} SumAtLeast<T>(s: seq<T>, i: nat, f: T -> int)
    requires i < |s|
    requires forall x :: x in s ==> f(x) >= 0
    ensures Sum(s, f) >= f(s[i])
  {
    if i == 0 {
      SumNonNegative(s[1..], f);
    } else {
      SumAtLeast(s[1..], i - 1, f);
    }
  }

  lemma Regroup<T>(a: seq<T>, b: seq<T>, c: seq<T>)
    ensures a + b + c == a + (b + c)
  {
  }

  function FlatMap<T, U>(s: seq<T>, f: T -> seq<U>): seq<U> {
    if s == [] then [] else f(s[0]) + FlatMap(s[1..], f)
  }

  lemma {:induction false} FlatMapAppend<T, U>(s: seq<T>, t: seq<T>, f: T -> seq<U>)
    ensures FlatMap(s + t, f) == FlatMap(s, f) + FlatMap(t, f)
  {
    if s == [] {
      assert s + t == t;
    } else {
      assert (s + t)[1..] == s[1..] + t;
      FlatMapAppend(s[1..], t, f);
    }
  }

  lemma FlatMapOne<T, U>(x: T, f: T -> seq<U>)
    ensures FlatMap([x], f) == f(x)
  {
    assert [x][1..] == [];
  }

  lemma FlatMapPush<T, U>(s: seq<T>, x: T, f: T -> seq<U>)
    ensures FlatMap(s + [x], f) == FlatMap(s, f) + f(x)
  {
    FlatMapAppend(s, [x], f);
    FlatMapOne(x, f);
  }
}
