/**
 The circular doubly linked lists of include/listx.h, at pointer level.

 A `list_head` is either the sentinel of a list or the link field embedded in an
 element; `container_of` is the typed projection `Elem(e).e`.  One `Links` object
 is one family of link fields (all the `p_next` fields with the heads they are
 chained to, say): `next` and `prev` are the memory, `lists` is the ghost reading
 of that memory as one sequence per sentinel.
 */
module ListX {
  import opened Sequences

  datatype Node<H, E> = Head(h: H) | Elem(e: E)

  /** The i-th stop of a tour of the ring: the sentinel, the elements, the sentinel. */
  function At<H, E>(h: H, s: seq<E>, i: int): (n: Node<H, E>) {
    if 1 <= i <= |s| then Elem(s[i - 1]) else Head(h)
  }

  type Memory<!H(==), !E(==)> = map<Node<H, E>, Node<H, E>>

  /** `next` leads from stop i to stop i + 1 and `prev` leads back. */
  ghost predicate Hop<H, E>(next: Memory<H, E>, prev: Memory<H, E>, h: H, s: seq<E>, i: int) {
    && At(h, s, i) in next && next[At(h, s, i)] == At(h, s, i + 1)
    && At(h, s, i + 1) in prev && prev[At(h, s, i + 1)] == At(h, s, i)
  }

  ghost predicate Circular<H, E>(next: Memory<H, E>, prev: Memory<H, E>, h: H, s: seq<E>) {
    forall i :: 0 <= i <= |s| ==> Hop(next, prev, h, s, i)
  }

  /** Every element is linked at most once, over all the lists. */
  ghost predicate Exclusive<H, E>(lists: map<H, seq<E>>) {
    && (forall h :: h in lists ==> NoDup(lists[h]))
    && (forall h, g, e :: h in lists && g in lists && e in lists[h] && e in lists[g] ==> h == g)
  }

  ghost predicate Unlinked<H, E>(lists: map<H, seq<E>>, e: E) {
    forall h :: h in lists ==> e !in lists[h]
  }

  lemma AtInsert<H, E>(h: H, s: seq<E>, i: nat, e: E, j: int)
    requires i <= |s| && 0 <= j <= |s| + 2
    ensures At(h, InsertAt(s, i, e), j) ==
            if j <= i then At(h, s, j) else if j == i + 1 then Elem(e) else At(h, s, j - 1)
  {
  }

  lemma AtRemove<H, E>(h: H, s: seq<E>, i: nat, j: int)
    requires i < |s| && 0 <= j <= |s|
    ensures At(h, RemoveAt(s, i), j) == if j <= i then At(h, s, j) else At(h, s, j + 1)
  {
  }

  /** The four writes of `__list_add` splice one element into the ring. */
  lemma SpliceIn<H, E>(next: Memory<H, E>, prev: Memory<H, E>, h: H, s: seq<E>, i: nat, e: E)
    requires Circular(next, prev, h, s) && NoDup(s) && i <= |s| && e !in s
    ensures var a, b := At(h, s, i), At(h, s, i + 1);
            Circular(next[Elem(e) := b][a := Elem(e)], prev[b := Elem(e)][Elem(e) := a], h, InsertAt(s, i, e))
  {
    var a, b := At(h, s, i), At(h, s, i + 1);
    var s' := InsertAt(s, i, e);
    var next' := next[Elem(e) := b][a := Elem(e)];
    var prev' := prev[b := Elem(e)][Elem(e) := a];
    assert Hop(next, prev, h, s, i);
    forall x | 0 <= x <= |s'|
      ensures Hop(next', prev', h, s', x)
    {
      AtInsert(h, s, i, e, x);
      AtInsert(h, s, i, e, x + 1);
      if x < i {
        assert Hop(next, prev, h, s, x);
      } else if x > i + 1 {
        assert Hop(next, prev, h, s, x - 1);
      }
    }
  }

  /** The two writes of `__list_del` take one element out of the ring. */
  lemma SpliceOut<H, E>(next: Memory<H, E>, prev: Memory<H, E>, h: H, s: seq<E>, i: nat)
    requires Circular(next, prev, h, s) && NoDup(s) && i < |s|
    ensures var a, b := At(h, s, i), At(h, s, i + 2);
            Circular(next[a := b], prev[b := a], h, RemoveAt(s, i))
  {
    var a, b := At(h, s, i), At(h, s, i + 2);
    var s' := RemoveAt(s, i);
    var next', prev' := next[a := b], prev[b := a];
    forall x | 0 <= x <= |s'|
      ensures Hop(next', prev', h, s', x)
    {
      AtRemove(h, s, i, x);
      AtRemove(h, s, i, x + 1);
      if x < i {
        assert Hop(next, prev, h, s, x);
      } else if x > i {
        assert Hop(next, prev, h, s, x + 1);
      }
    }
  }

  /** Writes to nodes of one ring (or to unlinked nodes) leave every other ring alone. */
  lemma Frame<H, E>(next: Memory<H, E>, prev: Memory<H, E>,
                    next': Memory<H, E>, prev': Memory<H, E>, h: H, s: seq<E>)
    requires Circular(next, prev, h, s)
    requires forall i :: 0 <= i <= |s| ==> At(h, s, i) in next ==>
               At(h, s, i) in next' && next'[At(h, s, i)] == next[At(h, s, i)]
    requires forall i :: 0 <= i <= |s| ==> At(h, s, i) in prev ==>
               At(h, s, i) in prev' && prev'[At(h, s, i)] == prev[At(h, s, i)]
    ensures Circular(next', prev', h, s)
  {
    forall x | 0 <= x <= |s|
      ensures Hop(next', prev', h, s, x)
    {
      assert Hop(next, prev, h, s, x);
      if x == |s| {
        assert At(h, s, x + 1) == At(h, s, 0);
      }
    }
  }

  class Links<H(==), E(==, !new)> {
    var next: Memory<H, E>
    var prev: Memory<H, E>
    ghost var lists: map<H, seq<E>>

    ghost predicate Valid()
      reads this
    {
      && Exclusive(lists)
      && forall h :: h in lists ==> Circular(next, prev, h, lists[h])
    }

    constructor ()
      ensures Valid() && lists == map[]
    {
      next, prev, lists := map[], map[], map[];
    }

    /** `INIT_LIST_HEAD` on a sentinel: whatever it headed, it now heads the empty list. */
    method InitHead(h: H)
      requires Valid()
      modifies this
      ensures Valid() && lists == old(lists)[h := []]
    {
      next := next[Head(h) := Head(h)];
      prev := prev[Head(h) := Head(h)];
      lists := lists[h := []];
      forall g | g in lists
        ensures Circular(next, prev, g, lists[g])
      {
        if g != h {
          Frame(old(next), old(prev), next, prev, g, lists[g]);
        }
      }
    }

    /** `INIT_LIST_HEAD` on the link field of an element that is on no list. */
    method InitElem(e: E)
      requires Valid() && Unlinked(lists, e)
      modifies this
      ensures Valid() && lists == old(lists)
      ensures next == old(next)[Elem(e) := Elem(e)] && prev == old(prev)[Elem(e) := Elem(e)]
    {
      next := next[Elem(e) := Elem(e)];
      prev := prev[Elem(e) := Elem(e)];
      forall g | g in lists
        ensures Circular(next, prev, g, lists[g])
      {
        Frame(old(next), old(prev), next, prev, g, lists[g]);
      }
    }

    /** `__list_add`: link `e` between two neighbours, position `i` of list `h`. */
    method AddBetween(e: E, a: Node<H, E>, b: Node<H, E>, ghost h: H, ghost i: nat)
      requires Valid() && Unlinked(lists, e)
      requires h in lists && i <= |lists[h]|
      requires a == At(h, lists[h], i) && b == At(h, lists[h], i + 1)
      modifies this
      ensures Valid() && lists == old(lists)[h := InsertAt(old(lists)[h], i, e)]
    {
      ghost var s := lists[h];
      prev := prev[b := Elem(e)];
      next := next[Elem(e) := b];
      prev := prev[Elem(e) := a];
      next := next[a := Elem(e)];
      SpliceIn(old(next), old(prev), h, s, i, e);
      InsertAtFacts(s, i, e);
      lists := lists[h := InsertAt(s, i, e)];
      forall g | g in lists
        ensures Circular(next, prev, g, lists[g])
      {
        if g != h {
          OtherRing(old(lists), h, g, i);
          OtherRing(old(lists), h, g, i + 1);
          Frame(old(next), old(prev), next, prev, g, lists[g]);
        }
      }
    }

    /** Two different rings share no node. */
    static lemma OtherRing(lists: map<H, seq<E>>, h: H, g: H, i: int)
      requires Exclusive(lists) && h in lists && g in lists && h != g
      ensures forall j :: At(g, lists[g], j) != At(h, lists[h], i)
    {
      if 1 <= i <= |lists[h]| {
        assert lists[h][i - 1] in lists[h];
      }
    }

    /** `list_add`: insert right after node `hd`. */
    method Add(e: E, hd: Node<H, E>, ghost h: H, ghost i: nat)
      requires Valid() && Unlinked(lists, e)
      requires h in lists && i <= |lists[h]| && hd == At(h, lists[h], i)
      modifies this
      ensures Valid() && lists == old(lists)[h := InsertAt(old(lists)[h], i, e)]
    {
      assert Hop(next, prev, h, lists[h], i);
      AddBetween(e, hd, next[hd], h, i);
    }

    /** `list_add_tail`: insert right before node `nd`, at the tail when `nd` is the sentinel. */
    method AddTail(e: E, nd: Node<H, E>, ghost h: H, ghost i: nat)
      requires Valid() && Unlinked(lists, e)
      requires h in lists && i <= |lists[h]| && nd == At(h, lists[h], i + 1)
      modifies this
      ensures Valid() && lists == old(lists)[h := InsertAt(old(lists)[h], i, e)]
    {
      assert Hop(next, prev, h, lists[h], i);
      AddBetween(e, prev[nd], nd, h, i);
    }

    /** `list_del`: unlink a linked element.  Its own two link fields keep their values. */
    method Del(e: E, ghost h: H, ghost i: nat)
      requires Valid()
      requires h in lists && i < |lists[h]| && lists[h][i] == e
      modifies this
      ensures Valid() && lists == old(lists)[h := RemoveAt(old(lists)[h], i)]
      ensures Elem(e) in next && Elem(e) in old(next) && next[Elem(e)] == old(next)[Elem(e)]
      ensures Elem(e) in prev && Elem(e) in old(prev) && prev[Elem(e)] == old(prev)[Elem(e)]
    {
      ghost var s := lists[h];
      assert Hop(next, prev, h, s, i) && Hop(next, prev, h, s, i + 1);
      var a, b := prev[Elem(e)], next[Elem(e)];
      prev := prev[b := a];
      next := next[a := b];
      SpliceOut(old(next), old(prev), h, s, i);
      lists := lists[h := RemoveAt(s, i)];
      forall g | g in lists
        ensures Circular(next, prev, g, lists[g])
      {
        if g != h {
          OtherRing(old(lists), h, g, i);
          OtherRing(old(lists), h, g, i + 2);
          Frame(old(next), old(prev), next, prev, g, lists[g]);
        }
      }
    }

    /** `list_empty`. */
    predicate Empty(h: H)
      requires Valid() && h in lists
      reads this
      ensures Empty(h) <==> lists[h] == []
    {
      assert Hop(next, prev, h, lists[h], 0);
      next[Head(h)] == Head(h)
    }

    /** One step of `list_for_each_entry`: the node after the i-th stop is stop i + 1. */
    function Next(nd: Node<H, E>, ghost h: H, ghost i: nat): (r: Node<H, E>)
      requires Valid() && h in lists && i <= |lists[h]| && nd == At(h, lists[h], i)
      reads this
      ensures r == At(h, lists[h], i + 1)
    {
      assert Hop(next, prev, h, lists[h], i);
      next[nd]
    }
  }
}
