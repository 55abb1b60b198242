/**
 Sequence facts shared by the list layer and the kernel model: duplicate-free
 sequences, removal of a set of elements, insertion at an index, and the number
 of elements standing ahead of a given one.
 */
module Sequences {

  ghost predicate NoDup<T>(s: seq<T>) {
    forall i, j :: 0 <= i < j < |s| ==> s[i] != s[j]
  }

  function InsertAt<T>(s: seq<T>, i: nat, x: T): (r: seq<T>)
    requires i <= |s|
  {
    s[..i] + [x] + s[i..]
  }

  function RemoveAt<T>(s: seq<T>, i: nat): (r: seq<T>)
    requires i < |s|
  {
    s[..i] + s[i + 1..]
  }

  /** The elements of `s` outside `ds`, in their original order. */
  function Minus<T(==, !new)>(s: seq<T>, ds: set<T>): (r: seq<T>)
    ensures forall x :: x in r <==> x in s && x !in ds
    ensures |r| <= |s|
  {
    if s == [] then []
    else if s[0] in ds then Minus(s[1..], ds)
    else [s[0]] + Minus(s[1..], ds)
  }

  function Reversed<T(!new)>(s: seq<T>): (r: seq<T>)
    ensures |r| == |s|
    ensures forall x :: x in r <==> x in s
  {
    if s == [] then [] else Reversed(s[1..]) + [s[0]]
  }

  function ToSet<T(==)>(s: seq<T>): (r: set<T>) {
    set x | x in s
  }

  /** How many elements of `s` stand before the first occurrence of `x`. */
  function Ahead<T(==)>(s: seq<T>, x: T): (n: nat)
    ensures n <= |s|
    ensures x in s ==> n < |s| && s[n] == x
  {
    if s == [] || s[0] == x then 0 else 1 + Ahead(s[1..], x)
  }

  lemma NoDupTail<T(!new)>(s: seq<T>)
    requires NoDup(s) && s != []
    ensures NoDup(s[1..]) && s[0] !in s[1..]
  {
  }

  lemma NoDupConcat<T(!new)>(a: seq<T>, b: seq<T>)
    requires NoDup(a) && NoDup(b) && forall x :: x in a ==> x !in b
    ensures NoDup(a + b)
  {
    forall i, j | 0 <= i < j < |a + b|
      ensures (a + b)[i] != (a + b)[j]
    {
      if i < |a| <= j {
        assert (a + b)[i] in a && (a + b)[j] in b;
      }
    }
  }

  lemma {:induction false} MinusNoDup<T(!new)>(s: seq<T>, ds: set<T>)
    requires NoDup(s)
    ensures NoDup(Minus(s, ds))
  {
    if s != [] {
      NoDupTail(s);
      MinusNoDup(s[1..], ds);
    }
  }

  lemma {:induction false} MinusNothing<T(!new)>(s: seq<T>, ds: set<T>)
    requires forall x :: x in s ==> x !in ds
    ensures Minus(s, ds) == s
  {
    if s != [] {
      assert s[0] in s;
      MinusNothing(s[1..], ds);
    }
  }

  lemma {:induction false} MinusTwice<T(!new)>(s: seq<T>, a: set<T>, b: set<T>)
    ensures Minus(Minus(s, a), b) == Minus(s, a + b)
  {
    if s != [] {
      MinusTwice(s[1..], a, b);
      var r := Minus(s[1..], a);
      if s[0] !in a {
        assert ([s[0]] + r)[1..] == r;
      }
    }
  }

  lemma {:induction false} MinusConcat<T(!new)>(s: seq<T>, t: seq<T>, ds: set<T>)
    ensures Minus(s + t, ds) == Minus(s, ds) + Minus(t, ds)
  {
    if s == [] {
      assert s + t == t;
    } else {
      assert (s + t)[1..] == s[1..] + t;
      MinusConcat(s[1..], t, ds);
    }
  }

  /** On a duplicate-free sequence, unlinking one position is removing that element. */
  lemma {:induction false} MinusOne<T(!new)>(s: seq<T>, i: nat)
    requires NoDup(s) && i < |s|
    ensures Minus(s, {s[i]}) == RemoveAt(s, i)
  {
    NoDupTail(s);
    if i == 0 {
      MinusNothing(s[1..], {s[0]});
      assert RemoveAt(s, 0) == s[1..];
    } else {
      assert s[1..][i - 1] == s[i];
      MinusOne(s[1..], i - 1);
      assert RemoveAt(s, i) == [s[0]] + RemoveAt(s[1..], i - 1);
    }
  }

  lemma InsertAtFacts<T(!new)>(s: seq<T>, i: nat, x: T)
    requires i <= |s|
    ensures |InsertAt(s, i, x)| == |s| + 1
    ensures forall y :: y in InsertAt(s, i, x) <==> y in s || y == x
    ensures NoDup(s) && x !in s ==> NoDup(InsertAt(s, i, x))
  {
  }

  /** Removing other elements never lets anyone overtake `x`. */
  lemma {:induction false} AheadMinus<T(!new)>(s: seq<T>, ds: set<T>, x: T)
    requires x in s && x !in ds
    ensures Ahead(Minus(s, ds), x) <= Ahead(s, x)
    ensures s[0] in ds ==> Ahead(Minus(s, ds), x) < Ahead(s, x)
  {
    if s[0] == x {
    } else {
      AheadMinus(s[1..], ds, x);
      if s[0] !in ds {
        assert ([s[0]] + Minus(s[1..], ds))[1..] == Minus(s[1..], ds);
      }
    }
  }

  /** An insertion behind `x` leaves the number ahead of `x` alone. */
  lemma {:induction false} AheadInsert<T(!new)>(s: seq<T>, i: nat, x: T, y: T)
    requires i <= |s| && x in s[..i]
    ensures Ahead(InsertAt(s, i, y), x) == Ahead(s, x)
  {
    assert InsertAt(s, i, y)[0] == s[0];
    if s[0] != x {
      assert InsertAt(s, i, y)[1..] == InsertAt(s[1..], i - 1, y);
      assert s[1..][..i - 1] == s[..i][1..];
      AheadInsert(s[1..], i - 1, x, y);
    }
  }

  /** A duplicate-free sequence of numbers below `n` has at most `n` elements. */
  lemma PigeonHole(s: seq<nat>, bound: set<nat>)
    requires NoDup(s)
    requires forall x :: x in s ==> x in bound
    ensures |s| <= |bound|
  {
    if s != [] {
      NoDupTail(s);
      PigeonHole(s[1..], bound - {s[0]});
    }
  }
}
