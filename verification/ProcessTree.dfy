/**
 The subtree of a process: the post-order walk over the child lists visits exactly
 the processes whose chain of parents reaches the root, each once, children first.
 */
module ProcessTree {
  import opened Sequences
  import opened KernelState
  import opened Invariants
  import opened ActiveSemaphores
  import opened Termination

  // ----- the walk over the child lists

  lemma {:induction false} PostAllMember(ch: Children, rank: seq<nat>, cs: seq<Pid>, bound: nat, x: Pid)
    requires forall c: Pid :: c in cs ==> RankOf(rank, c) < bound
    ensures x in PostAll(ch, rank, cs, bound) <==> exists c: Pid :: c in cs && x in Post(ch, rank, c)
  {
    if cs != [] {
      PostAllMember(ch, rank, cs[1..], bound, x);
      assert cs[0] in cs;
      if x in PostAll(ch, rank, cs, bound) && x !in Post(ch, rank, cs[0]) {
        var c: Pid :| c in cs[1..] && x in Post(ch, rank, c);
        assert c in cs;
      }
      if c: Pid :| c in cs && x in Post(ch, rank, c) {
        assert c == cs[0] || c in cs[1..];
      }
    }
  }

  /** The walk over a longer list of siblings starts with the walk over a shorter one. */
  lemma {:induction false} PostAllConcat(ch: Children, rank: seq<nat>, a: seq<Pid>, b: seq<Pid>, bound: nat)
    ensures PostAll(ch, rank, a + b, bound) == PostAll(ch, rank, a, bound) + PostAll(ch, rank, b, bound)
  {
    if a == [] {
      assert a + b == b;
    } else {
      assert (a + b)[1..] == a[1..] + b;
      PostAllConcat(ch, rank, a[1..], b, bound);
    }
  }

  /** The walk only looks at the child lists of the processes it visits. */
  lemma {:induction false} PostFrame(ch: Children, ch': Children, rank: seq<nat>, p: Pid)
    requires forall x: Pid :: x in Post(ch, rank, p) ==> KidsOf(ch', x) == KidsOf(ch, x)
    ensures Post(ch', rank, p) == Post(ch, rank, p)
    decreases RankOf(rank, p), 1, 0
  {
    assert p in Post(ch, rank, p);
    PostAllFrame(ch, ch', rank, KidsOf(ch, p), RankOf(rank, p));
  }

  lemma {:induction false} PostAllFrame(ch: Children, ch': Children, rank: seq<nat>, cs: seq<Pid>, bound: nat)
    requires forall x: Pid :: x in PostAll(ch, rank, cs, bound) ==> KidsOf(ch', x) == KidsOf(ch, x)
    ensures PostAll(ch', rank, cs, bound) == PostAll(ch, rank, cs, bound)
    decreases bound, 0, |cs|
  {
    if cs != [] {
      if RankOf(rank, cs[0]) < bound {
        PostFrame(ch, ch', rank, cs[0]);
      }
      PostAllFrame(ch, ch', rank, cs[1..], bound);
    }
  }

  // ----- the chain of parents

  lemma {:induction false} UpAdd(pcb: seq<Pcb>, p: Pid, q: Pid, m: nat, n: nat)
    requires Up(pcb, p, m) == Some(q)
    ensures Up(pcb, p, m + n) == Up(pcb, q, n)
  {
    if n > 0 {
      UpAdd(pcb, p, q, m, n - 1);
    }
  }

  /** Ranks grow along the chain of parents, so it never comes back. */
  lemma {:induction false} UpRank(k: State, p: Pid, n: nat)
    requires TreeOk(k) && p < |k.pcb| && Up(k.pcb, p, n).Some?
    ensures var q := Up(k.pcb, p, n).value; q < |k.pcb| && k.ledger.rank[q] >= k.ledger.rank[p] + n
  {
    if n > 0 {
      UpRank(k, p, n - 1);
      var y := Up(k.pcb, p, n - 1).value;
      assert IsChild(k.children, k.pcb[y].parent.value, y);
    }
  }

  /** No process is its own ancestor. */
  lemma Acyclic(k: State, p: Pid)
    requires TreeOk(k) && p < |k.pcb|
    ensures !ProperAncestor(k.pcb, p, p)
  {
    if n: nat :| n > 0 && Up(k.pcb, p, n) == Some(p) {
      UpRank(k, p, n);
    }
  }

  // ----- both descriptions agree

  lemma KidsRanked(k: State, p: Pid)
    requires TreeOk(k)
    ensures forall c: Pid :: c in KidsOf(k.children, p) ==> RankOf(k.ledger.rank, c) < RankOf(k.ledger.rank, p)
    ensures forall c: Pid :: c in KidsOf(k.children, p) <==> IsChild(k.children, p, c)
  {
  }

  lemma {:induction false} PostClimbs(k: State, p: Pid, x: Pid) returns (n: nat)
    requires TreeOk(k) && x in Post(k.children, k.ledger.rank, p)
    ensures Up(k.pcb, x, n) == Some(p)
    decreases RankOf(k.ledger.rank, p)
  {
    if x == p {
      n := 0;
    } else {
      var kids, r := KidsOf(k.children, p), RankOf(k.ledger.rank, p);
      KidsRanked(k, p);
      assert x in PostAll(k.children, k.ledger.rank, kids, r);
      PostAllMember(k.children, k.ledger.rank, kids, r, x);
      var c: Pid :| c in kids && x in Post(k.children, k.ledger.rank, c);
      n := PostClimbs(k, c, x);
      n := n + 1;
      assert IsChild(k.children, p, c);
    }
  }

  lemma {:induction false} ClimbsPost(k: State, p: Pid, x: Pid, n: nat)
    requires TreeOk(k) && Up(k.pcb, x, n) == Some(p)
    ensures x in Post(k.children, k.ledger.rank, p)
    decreases n
  {
    if n > 0 {
      var y := Up(k.pcb, x, n - 1).value;
      assert IsChild(k.children, p, y);
      ClimbsPost(k, y, x, n - 1);
      PostNests(k, p, y, x);
    }
  }

  lemma PostNests(k: State, p: Pid, y: Pid, x: Pid)
    requires TreeOk(k) && IsChild(k.children, p, y) && x in Post(k.children, k.ledger.rank, y)
    ensures x in Post(k.children, k.ledger.rank, p)
  {
    KidsRanked(k, p);
    PostAllMember(k.children, k.ledger.rank, KidsOf(k.children, p), RankOf(k.ledger.rank, p), x);
  }

  /** The walk from `p` visits exactly the descendants of `p`. */
  lemma PostIsDescendants(k: State, p: Pid, x: Pid)
    requires TreeOk(k)
    ensures x in Post(k.children, k.ledger.rank, p) <==> Descends(k.pcb, x, p)
  {
    if x in Post(k.children, k.ledger.rank, p) {
      var n := PostClimbs(k, p, x);
    }
    if n: nat :| Up(k.pcb, x, n) == Some(p) {
      ClimbsPost(k, p, x, n);
    }
  }

  /** Two siblings have no descendant in common. */
  lemma SiblingsApart(k: State, p: Pid, a: Pid, b: Pid, x: Pid)
    requires TreeOk(k) && IsChild(k.children, p, a) && IsChild(k.children, p, b)
    requires x in Post(k.children, k.ledger.rank, a) && x in Post(k.children, k.ledger.rank, b)
    ensures a == b
  {
    var m := PostClimbs(k, a, x);
    var n := PostClimbs(k, b, x);
    NotAbove(k, p, a, b, x, m, n);
    NotAbove(k, p, b, a, x, n, m);
  }

  lemma NotAbove(k: State, p: Pid, a: Pid, b: Pid, x: Pid, m: nat, n: nat)
    requires TreeOk(k) && IsChild(k.children, p, a) && IsChild(k.children, p, b)
    requires Up(k.pcb, x, m) == Some(a) && Up(k.pcb, x, n) == Some(b)
    ensures n <= m
  {
    if m < n {
      assert Up(k.pcb, x, m + 1) == Some(p);
      UpAdd(k.pcb, x, p, m + 1, n - m - 1);
      UpRank(k, p, n - m - 1);
    }
  }

  // ----- the walk is a killable list

  ghost predicate ChildrenFirst(ch: Children, s: seq<Pid>) {
    forall i: nat, c: Pid :: i < |s| && IsChild(ch, s[i], c) ==> c in s[..i]
  }

  lemma ChildrenFirstConcat(ch: Children, a: seq<Pid>, b: seq<Pid>)
    requires ChildrenFirst(ch, a) && ChildrenFirst(ch, b)
    ensures ChildrenFirst(ch, a + b)
  {
    forall i: nat, c: Pid | i < |a + b| && IsChild(ch, (a + b)[i], c)
      ensures c in (a + b)[..i]
    {
      if i < |a| {
        assert (a + b)[..i] == a[..i];
      } else {
        assert (a + b)[..i] == a + b[..i - |a|];
        assert IsChild(ch, b[i - |a|], c);
      }
    }
  }

  lemma ChildrenFirstSnoc(ch: Children, a: seq<Pid>, p: Pid)
    requires ChildrenFirst(ch, a) && forall c: Pid :: IsChild(ch, p, c) ==> c in a
    ensures ChildrenFirst(ch, a + [p])
  {
    forall i: nat, c: Pid | i < |a + [p]| && IsChild(ch, (a + [p])[i], c)
      ensures c in (a + [p])[..i]
    {
      assert (a + [p])[..i] == a[..i];
      if i == |a| {
        assert a[..i] == a;
      }
    }
  }

  lemma {:induction false} PostChildrenFirst(k: State, p: Pid)
    requires TreeOk(k)
    ensures ChildrenFirst(k.children, Post(k.children, k.ledger.rank, p))
    decreases RankOf(k.ledger.rank, p), 1, 0
  {
    var kids, r := KidsOf(k.children, p), RankOf(k.ledger.rank, p);
    KidsRanked(k, p);
    PostAllChildrenFirst(k, kids, r);
    forall c: Pid | IsChild(k.children, p, c)
      ensures c in PostAll(k.children, k.ledger.rank, kids, r)
    {
      assert c in Post(k.children, k.ledger.rank, c);
      PostAllMember(k.children, k.ledger.rank, kids, r, c);
    }
    ChildrenFirstSnoc(k.children, PostAll(k.children, k.ledger.rank, kids, r), p);
  }

  lemma {:induction false} PostAllChildrenFirst(k: State, cs: seq<Pid>, bound: nat)
    requires TreeOk(k)
    ensures ChildrenFirst(k.children, PostAll(k.children, k.ledger.rank, cs, bound))
    decreases bound, 0, |cs|
  {
    if cs != [] {
      PostAllChildrenFirst(k, cs[1..], bound);
      var b := PostAll(k.children, k.ledger.rank, cs[1..], bound);
      if RankOf(k.ledger.rank, cs[0]) < bound {
        PostChildrenFirst(k, cs[0]);
        ChildrenFirstConcat(k.children, Post(k.children, k.ledger.rank, cs[0]), b);
      } else {
        assert [] + b == b;
      }
    }
  }

  lemma {:induction false} PostNoDup(k: State, p: Pid)
    requires TreeOk(k) && p < |k.pcb|
    ensures NoDup(Post(k.children, k.ledger.rank, p))
    decreases RankOf(k.ledger.rank, p), 1, 0
  {
    var kids, r := KidsOf(k.children, p), RankOf(k.ledger.rank, p);
    KidsRanked(k, p);
    PostAllNoDup(k, p, kids, r);
    if p in PostAll(k.children, k.ledger.rank, kids, r) {
      PostAllMember(k.children, k.ledger.rank, kids, r, p);
      var c: Pid :| c in kids && p in Post(k.children, k.ledger.rank, c);
      var n := PostClimbs(k, c, p);
      UpRank(k, p, n);
    }
  }

  lemma {:induction false} PostAllNoDup(k: State, p: Pid, cs: seq<Pid>, bound: nat)
    requires TreeOk(k) && NoDup(cs)
    requires forall c: Pid :: c in cs ==> IsChild(k.children, p, c) && RankOf(k.ledger.rank, c) < bound
    ensures NoDup(PostAll(k.children, k.ledger.rank, cs, bound))
    decreases bound, 0, |cs|
  {
    if cs != [] {
      NoDupTail(cs);
      assert cs[0] in cs;
      PostNoDup(k, cs[0]);
      PostAllNoDup(k, p, cs[1..], bound);
      var a, b := Post(k.children, k.ledger.rank, cs[0]), PostAll(k.children, k.ledger.rank, cs[1..], bound);
      forall x: Pid | x in a
        ensures x !in b
      {
        PostAllMember(k.children, k.ledger.rank, cs[1..], bound, x);
        if c: Pid :| c in cs[1..] && x in Post(k.children, k.ledger.rank, c) {
          SiblingsApart(k, p, cs[0], c, x);
        }
      }
      NoDupConcat(a, b);
    }
  }

  /** A descendant of a live process is a live process. */
  lemma {:induction false} PostLive(k: State, p: Pid, x: Pid)
    requires TreeOk(k) && p < |k.pcb| && !Free(k, p) && x in Post(k.children, k.ledger.rank, p)
    ensures x < |k.pcb| && !Free(k, x)
    decreases RankOf(k.ledger.rank, p)
  {
    if x != p {
      KidsRanked(k, p);
      PostAllMember(k.children, k.ledger.rank, KidsOf(k.children, p), RankOf(k.ledger.rank, p), x);
      var c: Pid :| c in KidsOf(k.children, p) && x in Post(k.children, k.ledger.rank, c);
      assert IsChild(k.children, p, c);
      PostLive(k, c, x);
    }
  }

  lemma PostKillable(k: State, p: Pid)
    requires TreeOk(k) && p < |k.pcb| && !Free(k, p)
    ensures Killable(k, Post(k.children, k.ledger.rank, p))
  {
    PostNoDup(k, p);
    PostChildrenFirst(k, p);
    forall x: Pid | x in Post(k.children, k.ledger.rank, p)
      ensures x < |k.pcb| && !Free(k, x)
    {
      PostLive(k, p, x);
    }
  }

  // ----- the theorem about kill_tree

  /**
   Killing the tree of `p` frees exactly `p` and its descendants: the invariant is
   kept, they head the free list in reverse order of the walk, they are off their
   parents, the ready queue and every semaphore queue, where the others keep their
   relative order, and the descriptors in the pool are those left without waiters.
   */
  lemma KillTreeTheorem(k: State, fl: set<Pid>, p: Pid)
    requires Inv(k, fl) && p < |k.pcb| && !Free(k, p)
    ensures var ds, k' := Post(k.children, k.ledger.rank, p), KillTree(k, p);
            && NoDup(ds) && (forall x: Pid :: x in ds <==> Descends(k.pcb, x, p))
            && Inv(k', fl - ToSet(ds)) && Removed(k, k', ds)
            && forall s: Semd :: s < |k.pcb| ==>
                 (s in k'.semds[SemdFree] <==> forall x: Pid :: x in k.queues[ProcQ(s)] ==> x in ds)
  {
    var ds := Post(k.children, k.ledger.rank, p);
    PostKillable(k, p);
    FinishAllInv(k, fl, ds);
    forall x: Pid ensures x in ds <==> Descends(k.pcb, x, p) { PostIsDescendants(k, p, x); }
    forall s: Semd | s < |k.pcb|
      ensures s in KillTree(k, p).semds[SemdFree] <==> forall x: Pid :: x in k.queues[ProcQ(s)] ==> x in ds
    {
      PoolAfter(k, KillTree(k, p), fl - ToSet(ds), ds, s);
    }
  }

  lemma PoolAfter(k: State, k': State, fl': set<Pid>, ds: seq<Pid>, s: Semd)
    requires SemdsOk(k', fl') && RemovedQueues(k, k', ds) && s < |k'.pcb| && ProcQ(s) in k.queues
    ensures s in k'.semds[SemdFree] <==> forall x: Pid :: x in k.queues[ProcQ(s)] ==> x in ds
  {
    var q' := Minus(k.queues[ProcQ(s)], ToSet(ds));
    assert k'.queues[ProcQ(s)] == q';
    if q' != [] {
      assert q'[0] in q';
    }
  }

  // ----- the child loop of kill_tree

  lemma {:induction false} FinishAllConcat(k: State, a: seq<Pid>, b: seq<Pid>)
    ensures FinishAll(k, a + b) == FinishAll(FinishAll(k, a), b)
    decreases |a|
  {
    hide Finish;
    if a == [] {
      assert a + b == b;
    } else {
      assert (a + b)[0] == a[0] && (a + b)[1..] == a[1..] + b;
      FinishAllConcat(Finish(k, a[0]), a[1..], b);
    }
  }

  lemma KillablePrefix(k: State, a: seq<Pid>, b: seq<Pid>)
    requires Killable(k, a + b)
    ensures Killable(k, a)
  {
    assert forall i :: 0 <= i < |a| ==> (a + b)[i] == a[i];
    forall x: Pid | x in a ensures x in a + b { }
    forall i: nat, c: Pid | i < |a| && IsChild(k.children, a[i], c)
      ensures c in a[..i]
    {
      assert (a + b)[..i] == a[..i];
      assert IsChild(k.children, (a + b)[i], c);
    }
  }

  /** The processes visited before the i-th child of `p`. */
  function Visited(k: State, p: Pid, i: nat): seq<Pid> {
    var kids := KidsOf(k.children, p);
    PostAll(k.children, k.ledger.rank, if i <= |kids| then kids[..i] else kids, RankOf(k.ledger.rank, p))
  }

  /** The walk from `p` is: those before child i, the rest, and `p` itself. */
  lemma VisitedSplit(k: State, p: Pid, i: nat)
    requires i <= |KidsOf(k.children, p)|
    ensures var kids, r := KidsOf(k.children, p), RankOf(k.ledger.rank, p);
            Post(k.children, k.ledger.rank, p)
            == Visited(k, p, i) + (PostAll(k.children, k.ledger.rank, kids[i..], r) + [p])
  {
    var kids, r := KidsOf(k.children, p), RankOf(k.ledger.rank, p);
    assert kids == kids[..i] + kids[i..];
    PostAllConcat(k.children, k.ledger.rank, kids[..i], kids[i..], r);
  }

  lemma VisitedStep(k: State, p: Pid, i: nat)
    requires TreeOk(k) && i < |KidsOf(k.children, p)|
    ensures Visited(k, p, i + 1) == Visited(k, p, i) + Post(k.children, k.ledger.rank, KidsOf(k.children, p)[i])
  {
    var kids, r := KidsOf(k.children, p), RankOf(k.ledger.rank, p);
    var c := kids[i];
    KidsRanked(k, p);
    assert c in kids;
    assert kids[..i + 1] == kids[..i] + [c];
    PostAllConcat(k.children, k.ledger.rank, kids[..i], [c], r);
    assert PostAll(k.children, k.ledger.rank, [c], r) == Post(k.children, k.ledger.rank, c);
  }

  lemma VisitedKillable(k: State, p: Pid, i: nat)
    requires TreeOk(k) && p < |k.pcb| && !Free(k, p) && i <= |KidsOf(k.children, p)|
    ensures Killable(k, Visited(k, p, i)) && p !in Visited(k, p, i)
    ensures forall j :: i <= j < |KidsOf(k.children, p)| ==> KidsOf(k.children, p)[j] !in Visited(k, p, i)
    ensures forall j :: 0 <= j < i ==> KidsOf(k.children, p)[j] in Visited(k, p, i)
  {
    var kids, r := KidsOf(k.children, p), RankOf(k.ledger.rank, p);
    var a, b := Visited(k, p, i), PostAll(k.children, k.ledger.rank, kids[i..], r) + [p];
    VisitedSplit(k, p, i);
    PostKillable(k, p);
    KillablePrefix(k, a, b);
    KidsRanked(k, p);
    forall x: Pid | x in b ensures x !in a { Apart(a, b, x); }
    assert p in b;
    forall j | i <= j < |kids|
      ensures kids[j] !in a
    {
      OwnPost(k, kids[i..], r, j - i);
    }
    forall j | 0 <= j < i
      ensures kids[j] in a
    {
      OwnPost(k, kids[..i], r, j);
    }
  }

  lemma Apart<T(!new)>(a: seq<T>, b: seq<T>, x: T)
    requires NoDup(a + b) && x in b
    ensures x !in a
  {
    var j :| 0 <= j < |b| && b[j] == x;
    assert (a + b)[|a| + j] == x;
    forall i | 0 <= i < |a| ensures a[i] != x { assert (a + b)[i] == a[i]; }
  }

  lemma OwnPost(k: State, cs: seq<Pid>, bound: nat, j: nat)
    requires j < |cs| && forall c: Pid :: c in cs ==> RankOf(k.ledger.rank, c) < bound
    ensures cs[j] in PostAll(k.children, k.ledger.rank, cs, bound)
  {
    assert cs[j] in cs && cs[j] in Post(k.children, k.ledger.rank, cs[j]);
    PostAllMember(k.children, k.ledger.rank, cs, bound, cs[j]);
  }

  /** After the first `i` children are gone, the others are the child list of `p`. */
  lemma KidsLeft(k: State, p: Pid, i: nat)
    requires TreeOk(k) && p < |k.pcb| && !Free(k, p) && i <= |KidsOf(k.children, p)|
    ensures Minus(KidsOf(k.children, p), ToSet(Visited(k, p, i))) == KidsOf(k.children, p)[i..]
  {
    var kids := KidsOf(k.children, p);
    var ds := ToSet(Visited(k, p, i));
    VisitedKillable(k, p, i);
    assert kids == kids[..i] + kids[i..];
    MinusConcat(kids[..i], kids[i..], ds);
    MinusAll(kids[..i], ds);
    forall x: Pid | x in kids[i..]
      ensures x !in ds
    {
      var j :| i <= j < |kids| && kids[j] == x;
    }
    MinusNothing(kids[i..], ds);
  }

  lemma {:induction false} MinusAll<T(!new)>(s: seq<T>, ds: set<T>)
    requires forall j :: 0 <= j < |s| ==> s[j] in ds
    ensures Minus(s, ds) == []
  {
    if s != [] {
      MinusAll(s[1..], ds);
    }
  }

  /** Nothing in the subtree of a child still to be visited has been touched. */
  lemma SubtreeIntact(k: State, k': State, p: Pid, i: nat)
    requires TreeOk(k) && p < |k.pcb| && !Free(k, p) && i < |KidsOf(k.children, p)|
    requires RemovedTree(k, k', Visited(k, p, i))
    ensures var c := KidsOf(k.children, p)[i]; Post(k'.children, k.ledger.rank, c) == Post(k.children, k.ledger.rank, c)
  {
    var c := KidsOf(k.children, p)[i];
    var a := Visited(k, p, i);
    VisitedStep(k, p, i);
    VisitedKillable(k, p, i + 1);
    forall x: Pid | x in Post(k.children, k.ledger.rank, c)
      ensures KidsOf(k'.children, x) == KidsOf(k.children, x)
    {
      if x in k.children {
        forall y: Pid | y in k.children[x]
          ensures y !in ToSet(a)
        {
          assert IsChild(k.children, x, y);
          ChildInPost(k, c, x, y);
          Apart(a, Post(k.children, k.ledger.rank, c), y);
        }
        MinusNothing(k.children[x], ToSet(a));
      }
    }
    PostFrame(k.children, k'.children, k.ledger.rank, c);
  }

  lemma ChildInPost(k: State, c: Pid, x: Pid, y: Pid)
    requires TreeOk(k) && x in Post(k.children, k.ledger.rank, c) && IsChild(k.children, x, y)
    ensures y in Post(k.children, k.ledger.rank, c)
  {
    var n := PostClimbs(k, c, x);
    assert Up(k.pcb, y, 0) == Some(y) && Up(k.pcb, y, 1) == Some(x);
    UpAdd(k.pcb, y, x, 1, n);
    ClimbsPost(k, c, y, 1 + n);
  }

  /** The siblings of `p` are outside its subtree. */
  lemma SiblingsOutside(k: State, g: Pid, p: Pid, y: Pid)
    requires TreeOk(k) && IsChild(k.children, g, p) && IsChild(k.children, g, y)
             && y in Post(k.children, k.ledger.rank, p)
    ensures y == p
  {
    assert y in Post(k.children, k.ledger.rank, y);
    SiblingsApart(k, g, p, y, y);
  }

  lemma ParentIntact(k: State, k': State, g: Pid, p: Pid, i: nat)
    requires TreeOk(k) && p < |k.pcb| && !Free(k, p) && IsChild(k.children, g, p) && i <= |KidsOf(k.children, p)|
    requires RemovedTree(k, k', Visited(k, p, i))
    ensures k'.children[g] == k.children[g] && k'.pcb[p].parent == Some(g)
  {
    var a := Visited(k, p, i);
    VisitedKillable(k, p, i);
    VisitedSplit(k, p, i);
    forall y: Pid | y in k.children[g]
      ensures y !in ToSet(a)
    {
      assert IsChild(k.children, g, y);
      if y in a {
        assert y in Post(k.children, k.ledger.rank, p);
        SiblingsOutside(k, g, p, y);
      }
    }
    MinusNothing(k.children[g], ToSet(a));
  }

  /** The kernel when the loop over the children of `p` reaches its i-th child. */
  ghost predicate AtChild(k: State, ki: State, fl: set<Pid>, p: Pid, i: nat) {
    && i <= |KidsOf(k.children, p)| && ki == FinishAll(k, Visited(k, p, i))
    && Inv(ki, fl) && p < |ki.pcb| == |k.pcb| && !Free(ki, p)
    && p in ki.children && ki.children[p] == KidsOf(k.children, p)[i..]
    && ki.ledger.rank == k.ledger.rank
    && ki.pcb[p].parent == k.pcb[p].parent
    && (k.pcb[p].parent.Some? ==>
        KidsOf(ki.children, k.pcb[p].parent.value) == KidsOf(k.children, k.pcb[p].parent.value))
  }

  lemma KillLoop(k: State, fl: set<Pid>, p: Pid, i: nat)
    requires Inv(k, fl) && p < |k.pcb| && !Free(k, p) && i <= |KidsOf(k.children, p)|
    ensures AtChild(k, FinishAll(k, Visited(k, p, i)), fl - ToSet(Visited(k, p, i)), p, i)
    ensures Removed(k, FinishAll(k, Visited(k, p, i)), Visited(k, p, i))
  {
    var a := Visited(k, p, i);
    VisitedKillable(k, p, i);
    FinishAllInv(k, fl, a);
    KidsLeft(k, p, i);
    var ki := FinishAll(k, a);
    if k.pcb[p].parent.Some? {
      assert IsChild(k.children, k.pcb[p].parent.value, p);
      ParentIntact(k, ki, k.pcb[p].parent.value, p, i);
    }
    StillLive(k, ki, a, p);
  }

  lemma StillLive(k: State, ki: State, a: seq<Pid>, p: Pid)
    requires RemovedQueues(k, ki, a) && !Free(k, p) && p !in a
    ensures !Free(ki, p)
  {
  }

  /** The i-th child is live, a child of `p`, and its subtree is as it was. */
  lemma KillLoopChild(k: State, fl: set<Pid>, p: Pid, i: nat)
    requires Inv(k, fl) && p < |k.pcb| && !Free(k, p) && i < |KidsOf(k.children, p)|
    ensures var ki, c := FinishAll(k, Visited(k, p, i)), KidsOf(k.children, p)[i];
            && c < |ki.pcb| && !Free(ki, c) && ki.pcb[c].parent == Some(p)
            && RankOf(ki.ledger.rank, c) < RankOf(k.ledger.rank, p)
            && KillTree(ki, c) == FinishAll(k, Visited(k, p, i + 1))
  {
    var ki, c := FinishAll(k, Visited(k, p, i)), KidsOf(k.children, p)[i];
    KillLoop(k, fl, p, i);
    assert ki.children[p][0] == c && IsChild(ki.children, p, c);
    SubtreeIntact(k, ki, p, i);
    VisitedStep(k, p, i);
    FinishAllConcat(k, Visited(k, p, i), Post(k.children, k.ledger.rank, c));
  }

  /** With all children gone, finishing `p` completes the kill. */
  lemma KillLoopEnd(k: State, p: Pid)
    ensures KillTree(k, p) == Finish(FinishAll(k, Visited(k, p, |KidsOf(k.children, p)|)), p)
  {
    hide Finish;
    var kids := KidsOf(k.children, p);
    assert kids[..|kids|] == kids;
    var a := Visited(k, p, |kids|);
    FinishAllConcat(k, a, [p]);
    assert FinishAll(FinishAll(k, a), [p]) == Finish(FinishAll(k, a), p);
  }

  lemma KillLoopStart(k: State, p: Pid)
    ensures FinishAll(k, Visited(k, p, 0)) == k
  {
  }
}
