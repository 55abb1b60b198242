/**
 `asl_find_and_remove_blocked_child`: what leaves the semaphore queues is the part
 of the subtree that is reached through blocked processes only, and the removed
 processes keep a stale `p_semkey`.
 */
module BlockedSubtrees {
  import opened Sequences
  import opened KernelState
  import opened Invariants
  import opened ActiveSemaphores
  import opened ProcessTree

  predicate IsBlocked(pcb: seq<Pcb>, p: Pid) {
    p < |pcb| && pcb[p].semKey.Some?
  }

  /** The blocked part of the subtree of `p`, in the order in which the recursion removes it. */
  function BlockedWalk(k: State, p: Pid): seq<Pid>
    decreases RankOf(k.ledger.rank, p), 1, 0
  {
    if IsBlocked(k.pcb, p) then BlockedWalks(k, Kids(k, p), RankOf(k.ledger.rank, p)) + [p] else []
  }

  function BlockedWalks(k: State, cs: seq<Pid>, bound: nat): seq<Pid>
    decreases bound, 0, |cs|
  {
    if cs == [] then []
    else (if RankOf(k.ledger.rank, cs[0]) < bound then BlockedWalk(k, cs[0]) else []) + BlockedWalks(k, cs[1..], bound)
  }

  /** `asl_find_and_remove_blocked` on each of `ds` in turn. */
  function DropAll(k: State, ds: seq<Pid>): (k': State)
    ensures k' == k.(queues := k'.queues, semds := k'.semds)
  {
    if ds == [] then k else FindAndRemoveBlocked(DropAll(k, ds[..|ds| - 1]), ds[|ds| - 1])
  }

  lemma DropSnoc(k: State, ds: seq<Pid>, p: Pid)
    ensures DropAll(k, ds + [p]) == FindAndRemoveBlocked(DropAll(k, ds), p)
  {
  }

  // ----- who is visited

  /** `x` is a descendant of `p`, and everybody from `x` up to `p` is blocked. */
  ghost predicate BlockedChain(pcb: seq<Pcb>, x: Pid, p: Pid) {
    exists n: nat :: ChainOf(pcb, x, p, n)
  }

  ghost predicate ChainOf(pcb: seq<Pcb>, x: Pid, p: Pid, n: nat) {
    && Up(pcb, x, n) == Some(p)
    && forall m: nat :: m <= n ==> Up(pcb, x, m).Some? && IsBlocked(pcb, Up(pcb, x, m).value)
  }

  lemma {:induction false} WalksMember(k: State, cs: seq<Pid>, bound: nat, x: Pid)
    requires forall c: Pid :: c in cs ==> RankOf(k.ledger.rank, c) < bound
    ensures x in BlockedWalks(k, cs, bound) <==> exists c: Pid :: c in cs && x in BlockedWalk(k, c)
  {
    if cs != [] {
      WalksMember(k, cs[1..], bound, x);
      assert cs[0] in cs;
      if x in BlockedWalks(k, cs, bound) && x !in BlockedWalk(k, cs[0]) {
        var c: Pid :| c in cs[1..] && x in BlockedWalk(k, c);
        assert c in cs;
      }
      if c: Pid :| c in cs && x in BlockedWalk(k, c) {
        assert c == cs[0] || c in cs[1..];
      }
    }
  }

  lemma ChainBelow(pcb: seq<Pcb>, x: Pid, c: Pid, p: Pid, n: nat)
    requires ChainOf(pcb, x, c, n) && c < |pcb| && pcb[c].parent == Some(p) && IsBlocked(pcb, p)
    ensures ChainOf(pcb, x, p, n + 1)
  {
  }

  lemma {:induction false} WalkClimbs(k: State, p: Pid, x: Pid) returns (n: nat)
    requires TreeOk(k) && x in BlockedWalk(k, p)
    ensures ChainOf(k.pcb, x, p, n)
    decreases RankOf(k.ledger.rank, p)
  {
    if x == p {
      n := 0;
    } else {
      var kids, r := KidsOf(k.children, p), RankOf(k.ledger.rank, p);
      KidsRanked(k, p);
      WalksMember(k, kids, r, x);
      var c: Pid :| c in kids && x in BlockedWalk(k, c);
      n := WalkClimbs(k, c, x);
      assert IsChild(k.children, p, c);
      ChainBelow(k.pcb, x, c, p, n);
      n := n + 1;
    }
  }

  lemma {:induction false} ClimbsWalk(k: State, p: Pid, x: Pid, n: nat)
    requires TreeOk(k) && ChainOf(k.pcb, x, p, n)
    ensures x in BlockedWalk(k, p)
    decreases n
  {
    assert IsBlocked(k.pcb, Up(k.pcb, x, n).value);
    if n == 0 {
      assert x == p;
    } else {
      var y := Up(k.pcb, x, n - 1).value;
      assert IsBlocked(k.pcb, y) && k.pcb[y].parent == Some(p);
      assert IsChild(k.children, p, y);
      ClimbsWalk(k, y, x, n - 1);
      KidsRanked(k, p);
      WalksMember(k, KidsOf(k.children, p), RankOf(k.ledger.rank, p), x);
    }
  }

  /** The recursion visits exactly the descendants reached through blocked processes. */
  lemma WalkIsChain(k: State, p: Pid, x: Pid)
    requires TreeOk(k)
    ensures x in BlockedWalk(k, p) <==> BlockedChain(k.pcb, x, p)
  {
    if x in BlockedWalk(k, p) {
      var n := WalkClimbs(k, p, x);
    }
    if n: nat :| ChainOf(k.pcb, x, p, n) {
      ClimbsWalk(k, p, x, n);
    }
  }

  lemma WalkInPost(k: State, p: Pid, x: Pid)
    requires TreeOk(k) && x in BlockedWalk(k, p)
    ensures x in Post(k.children, k.ledger.rank, p) && IsBlocked(k.pcb, x)
  {
    var n := WalkClimbs(k, p, x);
    assert Up(k.pcb, x, 0) == Some(x);
    ClimbsPost(k, p, x, n);
  }

  lemma {:induction false} WalkNoDup(k: State, p: Pid)
    requires TreeOk(k) && p < |k.pcb|
    ensures NoDup(BlockedWalk(k, p))
    decreases RankOf(k.ledger.rank, p), 1, 0
  {
    if IsBlocked(k.pcb, p) {
      var kids, r := KidsOf(k.children, p), RankOf(k.ledger.rank, p);
      KidsRanked(k, p);
      WalksNoDup(k, p, kids, r);
      if p in BlockedWalks(k, kids, r) {
        WalksMember(k, kids, r, p);
        var c: Pid :| c in kids && p in BlockedWalk(k, c);
        var n := WalkClimbs(k, c, p);
        UpRank(k, p, n);
      }
    }
  }

  lemma {:induction false} WalksNoDup(k: State, p: Pid, cs: seq<Pid>, bound: nat)
    requires TreeOk(k) && NoDup(cs)
    requires forall c: Pid :: c in cs ==> IsChild(k.children, p, c) && RankOf(k.ledger.rank, c) < bound
    ensures NoDup(BlockedWalks(k, cs, bound))
    decreases bound, 0, |cs|
  {
    if cs != [] {
      NoDupTail(cs);
      assert cs[0] in cs;
      WalkNoDup(k, cs[0]);
      WalksNoDup(k, p, cs[1..], bound);
      var a, b := BlockedWalk(k, cs[0]), BlockedWalks(k, cs[1..], bound);
      forall x: Pid | x in a
        ensures x !in b
      {
        WalksMember(k, cs[1..], bound, x);
        if c: Pid :| c in cs[1..] && x in BlockedWalk(k, c) {
          WalkInPost(k, cs[0], x);
          WalkInPost(k, c, x);
          SiblingsApart(k, p, cs[0], c, x);
        }
      }
      NoDupConcat(a, b);
    }
  }

  lemma {:induction false} WalksConcat(k: State, a: seq<Pid>, b: seq<Pid>, bound: nat)
    ensures BlockedWalks(k, a + b, bound) == BlockedWalks(k, a, bound) + BlockedWalks(k, b, bound)
  {
    if a == [] {
      assert a + b == b;
    } else {
      assert (a + b)[1..] == a[1..] + b;
      WalksConcat(k, a[1..], b, bound);
    }
  }

  // ----- what the removals do

  /** The same PCBs with the stale keys of `ds` cleared. */
  function Cleared(pcb: seq<Pcb>, ds: seq<Pid>): (r: seq<Pcb>)
    ensures |r| == |pcb|
    ensures forall p :: 0 <= p < |r| ==> r[p] == if p in ds then pcb[p].(semKey := None) else pcb[p]
  {
    seq(|pcb|, p requires 0 <= p < |pcb| => if p in ds then pcb[p].(semKey := None) else pcb[p])
  }

  /** Blocked live processes, each once. */
  ghost predicate Droppable(k: State, ds: seq<Pid>) {
    NoDup(ds) && forall x: Pid :: x in ds ==> IsBlocked(k.pcb, x) && !Free(k, x)
  }

  /** `k'` is `k` with `ds` off every queue; but for their stale keys the invariant holds. */
  ghost predicate Dropped(k: State, k': State, fl: set<Pid>, ds: seq<Pid>) {
    && k' == k.(queues := k'.queues, semds := k'.semds)
    && k'.queues.Keys == k.queues.Keys
    && (forall h: QueueHead :: h in k.queues ==> k'.queues[h] == Minus(k.queues[h], ToSet(ds)))
    && Inv(k'.(pcb := Cleared(k.pcb, ds)), fl + ToSet(ds))
  }

  lemma DroppedNothing(k: State, fl: set<Pid>)
    requires Inv(k, fl)
    ensures Dropped(k, k, fl, [])
  {
    forall h: QueueHead | h in k.queues ensures Minus(k.queues[h], {}) == k.queues[h] { MinusNothing(k.queues[h], {}); }
    assert ToSet<Pid>([]) == {} && fl + {} == fl;
    assert Cleared(k.pcb, []) == k.pcb;
  }

  /** A process still to be dropped is on the queue its key names, and that descriptor is active. */
  lemma StillBlocked(k: State, k': State, fl: set<Pid>, ds: seq<Pid>, p: Pid) returns (s: Semd)
    requires Inv(k, fl) && Dropped(k, k', fl, ds) && p < |k.pcb| && !Free(k, p) && p !in ds && IsBlocked(k.pcb, p)
    ensures On(k'.queues, ProcQ(s), p) && s < |k.pcb| && AslSemd(k', k.pcb[p].semKey) == Some(s)
  {
    var kc := k'.(pcb := Cleared(k.pcb, ds));
    assert p !in fl;
    var h: QueueHead :| On(k.queues, h, p);
    s := h.s;
    assert On(kc.queues, ProcQ(s), p);
    AslSemdIsLookup(kc, fl + ToSet(ds), k.pcb[p].semKey, s);
  }

  /** `asl_semd(p->p_semkey)` finds a descriptor exactly for a blocked process. */
  lemma LookupIsBlocked(k: State, k': State, fl: set<Pid>, ds: seq<Pid>, p: Pid)
    requires Inv(k, fl) && Dropped(k, k', fl, ds) && p < |k.pcb| && !Free(k, p) && p !in ds
    ensures AslSemd(k', k.pcb[p].semKey).Some? <==> IsBlocked(k.pcb, p)
  {
    if IsBlocked(k.pcb, p) {
      var s := StillBlocked(k, k', fl, ds, p);
    } else {
      AslSemdIsLookup(k'.(pcb := Cleared(k.pcb, ds)), fl + ToSet(ds), None, 0);
    }
  }

  lemma DropClears(kc: State, k': State, fl: set<Pid>, s: Semd, p: Pid)
    requires Inv(kc, fl) && s < |kc.pcb| && p < |kc.pcb| && On(kc.queues, ProcQ(s), p)
    requires k' == DropBlocked(kc, s, p)
    ensures Inv(k'.(pcb := kc.pcb[p := kc.pcb[p].(semKey := None)]), fl + {p})
    ensures k'.queues == kc.queues[ProcQ(s) := Minus(kc.queues[ProcQ(s)], {p})]
  {
    assert Unblocks(kc, k', s, p);
    UnblockedInv(kc, k', fl, s, p);
    ClearKey(k', k'.(pcb := kc.pcb[p := kc.pcb[p].(semKey := None)]), fl, p);
  }

  lemma OnlyThere(k: State, fl: set<Pid>, ds: set<Pid>, g: QueueHead, h: QueueHead, p: Pid)
    requires QueuesOk(k, fl) && g in k.queues && h in k.queues && g != h && p in Minus(k.queues[g], ds)
    ensures Minus(Minus(k.queues[h], ds), {p}) == Minus(k.queues[h], ds)
  {
    assert On(k.queues, g, p) && !On(k.queues, h, p);
    MinusNothing(Minus(k.queues[h], ds), {p});
  }

  /** Taking `p` off the only queue it is on takes it off all. */
  lemma DropQueues(k: State, k1: State, qs: Queues, fl: set<Pid>, ds: seq<Pid>, s: Semd, p: Pid)
    requires QueuesOk(k, fl) && k1.queues.Keys == k.queues.Keys && On(k1.queues, ProcQ(s), p)
    requires forall h: QueueHead :: h in k.queues ==> k1.queues[h] == Minus(k.queues[h], ToSet(ds))
    requires qs == k1.queues[ProcQ(s) := Minus(k1.queues[ProcQ(s)], {p})]
    ensures qs.Keys == k.queues.Keys
    ensures forall h: QueueHead :: h in k.queues ==> qs[h] == Minus(k.queues[h], ToSet(ds + [p]))
  {
    hide ToSet, QueuesOk, Minus;
    forall h: QueueHead | h in k.queues
      ensures qs[h] == Minus(k.queues[h], ToSet(ds + [p]))
    {
      DropAt(k, fl, ds, ProcQ(s), h, p);
    }
  }

  lemma DropAt(k: State, fl: set<Pid>, ds: seq<Pid>, g: QueueHead, h: QueueHead, p: Pid)
    requires QueuesOk(k, fl) && g in k.queues && h in k.queues && p in Minus(k.queues[g], ToSet(ds))
    ensures var left := Minus(k.queues[h], ToSet(ds));
            Minus(k.queues[h], ToSet(ds + [p])) == if h == g then Minus(left, {p}) else left
  {
    assert ToSet(ds + [p]) == ToSet(ds) + {p};
    MinusTwice(k.queues[h], ToSet(ds), {p});
    hide QueuesOk;
    if h != g {
      OnlyThere(k, fl, ToSet(ds), g, h, p);
    }
  }

  lemma DropOne(k: State, k1: State, fl: set<Pid>, ds: seq<Pid>, p: Pid)
    requires Inv(k, fl) && Dropped(k, k1, fl, ds) && p < |k.pcb| && !Free(k, p) && p !in ds && IsBlocked(k.pcb, p)
    ensures Dropped(k, FindAndRemoveBlocked(k1, p), fl, ds + [p])
  {
    var s := StillBlocked(k, k1, fl, ds, p);
    var k2 := FindAndRemoveBlocked(k1, p);
    assert k2 == DropBlocked(k1, s, p);
    hide FindAndRemoveBlocked, AslSemd;
    DropInv(k, k1, k2, fl, ds, s, p);
    DropQueues(k, k1, k2.queues, fl, ds, s, p);
  }

  lemma DropInv(k: State, k1: State, k2: State, fl: set<Pid>, ds: seq<Pid>, s: Semd, p: Pid)
    requires Dropped(k, k1, fl, ds) && s < |k.pcb| && p < |k.pcb| && p !in ds && On(k1.queues, ProcQ(s), p)
    requires k2 == DropBlocked(k1, s, p)
    ensures k2.queues == k1.queues[ProcQ(s) := Minus(k1.queues[ProcQ(s)], {p})]
    ensures Inv(k2.(pcb := Cleared(k.pcb, ds + [p])), fl + ToSet(ds + [p]))
  {
    hide Inv, DropBlocked;
    var kc := k1.(pcb := Cleared(k.pcb, ds));
    ClearedSnoc(k.pcb, fl, ds, p);
    DropFrame(k1, kc.pcb, s, p);
    DropClears(kc, DropBlocked(kc, s, p), fl + ToSet(ds), s, p);
  }

  lemma ClearedSnoc(pcb: seq<Pcb>, fl: set<Pid>, ds: seq<Pid>, p: Pid)
    requires p < |pcb|
    ensures var r := Cleared(pcb, ds); r[p := r[p].(semKey := None)] == Cleared(pcb, ds + [p])
    ensures fl + ToSet(ds) + {p} == fl + ToSet(ds + [p])
  {
  }

  lemma DropFrame(k: State, pcb: seq<Pcb>, s: Semd, p: Pid)
    ensures DropBlocked(k.(pcb := pcb), s, p) == DropBlocked(k, s, p).(pcb := pcb)
  {
  }

  lemma {:induction false} DropAllInv(k: State, fl: set<Pid>, ds: seq<Pid>)
    requires Inv(k, fl) && Droppable(k, ds)
    ensures Dropped(k, DropAll(k, ds), fl, ds)
    decreases |ds|
  {
    if ds == [] {
      DroppedNothing(k, fl);
    } else {
      var a, p := ds[..|ds| - 1], ds[|ds| - 1];
      assert ds == a + [p] && p in ds;
      DropAllInv(k, fl, a);
      hide Inv, Dropped;
      DropOne(k, DropAll(k, a), fl, a, p);
    }
  }

  // ----- the recursion, one child at a time

  lemma DroppablePrefix(k: State, a: seq<Pid>, b: seq<Pid>)
    requires Droppable(k, a + b)
    ensures Droppable(k, a)
  {
    assert forall i :: 0 <= i < |a| ==> (a + b)[i] == a[i];
    forall x: Pid | x in a ensures x in a + b { }
  }

  /** The entry test of the recursion, when `done` has been dropped before it reaches `p`. */
  lemma EntryTest(k: State, fl: set<Pid>, done: seq<Pid>, p: Pid)
    requires Inv(k, fl) && p < |k.pcb| && !Free(k, p) && Droppable(k, done + BlockedWalk(k, p))
    ensures AslSemd(DropAll(k, done), k.pcb[p].semKey).Some? <==> IsBlocked(k.pcb, p)
  {
    DroppablePrefix(k, done, BlockedWalk(k, p));
    DropAllInv(k, fl, done);
    if p in done {
      assert p in BlockedWalk(k, p);
      Apart(done, BlockedWalk(k, p), p);
    }
    hide Inv, Dropped;
    LookupIsBlocked(k, DropAll(k, done), fl, done, p);
  }

  /** What has been dropped when the loop over the children of `p` reaches its i-th child. */
  function DoneBefore(k: State, done: seq<Pid>, p: Pid, i: nat): seq<Pid> {
    var kids := KidsOf(k.children, p);
    done + BlockedWalks(k, if i <= |kids| then kids[..i] else kids, RankOf(k.ledger.rank, p))
  }

  lemma WalkRound(k: State, fl: set<Pid>, done: seq<Pid>, p: Pid, i: nat)
    requires Inv(k, fl) && !Free(k, p) && IsBlocked(k.pcb, p) && i < |KidsOf(k.children, p)|
    requires Droppable(k, done + BlockedWalk(k, p))
    ensures var c := KidsOf(k.children, p)[i];
            && c < |k.pcb| && !Free(k, c) && RankOf(k.ledger.rank, c) < RankOf(k.ledger.rank, p)
            && DoneBefore(k, done, p, i + 1) == DoneBefore(k, done, p, i) + BlockedWalk(k, c)
            && Droppable(k, DoneBefore(k, done, p, i) + BlockedWalk(k, c))
  {
    var kids, r := KidsOf(k.children, p), RankOf(k.ledger.rank, p);
    KidsRanked(k, p);
    assert kids[i] in kids && IsChild(k.children, p, kids[i]);
    hide Droppable, Inv, DoneBefore, BlockedWalk, BlockedWalks;
    WalkSplit(k, done, p, i);
    DroppablePrefix(k, DoneBefore(k, done, p, i + 1), BlockedWalks(k, kids[i + 1..], r) + [p]);
  }

  lemma WalkSplit(k: State, done: seq<Pid>, p: Pid, i: nat)
    requires IsBlocked(k.pcb, p) && i < |KidsOf(k.children, p)|
    requires RankOf(k.ledger.rank, KidsOf(k.children, p)[i]) < RankOf(k.ledger.rank, p)
    ensures var kids, r := KidsOf(k.children, p), RankOf(k.ledger.rank, p);
            && DoneBefore(k, done, p, i + 1) == DoneBefore(k, done, p, i) + BlockedWalk(k, kids[i])
            && done + BlockedWalk(k, p) == DoneBefore(k, done, p, i + 1) + (BlockedWalks(k, kids[i + 1..], r) + [p])
  {
    var kids, r := KidsOf(k.children, p), RankOf(k.ledger.rank, p);
    WalksSplit(k, kids, r, i);
    assert BlockedWalk(k, p) == BlockedWalks(k, kids, r) + [p];
    hide BlockedWalk, BlockedWalks;
  }

  lemma WalksSplit(k: State, cs: seq<Pid>, bound: nat, i: nat)
    requires i < |cs| && RankOf(k.ledger.rank, cs[i]) < bound
    ensures BlockedWalks(k, cs[..i + 1], bound) == BlockedWalks(k, cs[..i], bound) + BlockedWalk(k, cs[i])
    ensures BlockedWalks(k, cs, bound) == BlockedWalks(k, cs[..i + 1], bound) + BlockedWalks(k, cs[i + 1..], bound)
  {
    assert BlockedWalks(k, [cs[i]], bound) == BlockedWalk(k, cs[i]);
    hide BlockedWalk, BlockedWalks;
    assert cs[..i + 1] == cs[..i] + [cs[i]];
    WalksConcat(k, cs[..i], [cs[i]], bound);
    assert cs == cs[..i + 1] + cs[i + 1..];
    WalksConcat(k, cs[..i + 1], cs[i + 1..], bound);
  }

  lemma WalkStarts(k: State, done: seq<Pid>, p: Pid)
    ensures DoneBefore(k, done, p, 0) == done
  {
  }

  lemma WalkEnds(k: State, done: seq<Pid>, p: Pid)
    requires IsBlocked(k.pcb, p)
    ensures var n := |KidsOf(k.children, p)|;
            DropAll(k, done + BlockedWalk(k, p)) == FindAndRemoveBlocked(DropAll(k, DoneBefore(k, done, p, n)), p)
  {
    var kids := KidsOf(k.children, p);
    assert kids[..|kids|] == kids;
    assert done + BlockedWalk(k, p) == DoneBefore(k, done, p, |kids|) + [p];
    DropSnoc(k, DoneBefore(k, done, p, |kids|), p);
  }

  // ----- the theorem

  lemma WalkDroppable(k: State, p: Pid)
    requires TreeOk(k) && p < |k.pcb| && !Free(k, p)
    ensures Droppable(k, BlockedWalk(k, p))
  {
    WalkNoDup(k, p);
    forall x: Pid | x in BlockedWalk(k, p)
      ensures IsBlocked(k.pcb, x) && !Free(k, x)
    {
      WalkInPost(k, p, x);
      PostLive(k, p, x);
    }
  }

  /**
   Exactly the descendants reached through blocked processes, the root included,
   leave their queues; the others keep their order, every PCB field stays, and the
   pool gains exactly the emptied descriptors.  An unblocked root changes nothing.
   */
  lemma BlockedChildTheorem(k: State, fl: set<Pid>, p: Pid)
    requires Inv(k, fl) && p < |k.pcb| && !Free(k, p)
    ensures var k' := DropAll(k, BlockedWalk(k, p)); var out := ToSet(BlockedWalk(k, p));
            && (forall x: Pid :: x in out <==> BlockedChain(k.pcb, x, p))
            && k' == k.(queues := k'.queues, semds := k'.semds) && k'.queues.Keys == k.queues.Keys
            && (forall h: QueueHead :: h in k.queues ==> k'.queues[h] == Minus(k.queues[h], out))
            && (forall s: Semd :: s < |k.pcb| ==>
                  && (s in Semds(k', SemdFree) <==>
                        forall x: Pid :: x in Queue(k, ProcQ(s)) ==> BlockedChain(k.pcb, x, p))
                  && (s in Semds(k', Asl) <==> s !in Semds(k', SemdFree)))
            && (!IsBlocked(k.pcb, p) ==> k' == k)
  {
    var ds := BlockedWalk(k, p);
    WalkDroppable(k, p);
    DropAllInv(k, fl, ds);
    forall x: Pid ensures x in ds <==> BlockedChain(k.pcb, x, p) { WalkIsChain(k, p, x); }
    forall s: Semd | s < |k.pcb|
      ensures var k' := DropAll(k, ds);
              && (s in Semds(k', SemdFree) <==> forall x: Pid :: x in Queue(k, ProcQ(s)) ==> BlockedChain(k.pcb, x, p))
              && (s in Semds(k', Asl) <==> s !in Semds(k', SemdFree))
    {
      PoolAfterDrop(k, DropAll(k, ds), fl, ds, s);
    }
  }

  lemma PoolAfterDrop(k: State, k': State, fl: set<Pid>, ds: seq<Pid>, s: Semd)
    requires Inv(k, fl) && Dropped(k, k', fl, ds) && s < |k.pcb|
    ensures s in Semds(k', SemdFree) <==> forall x: Pid :: x in Queue(k, ProcQ(s)) ==> x in ds
    ensures s in Semds(k', Asl) <==> s !in Semds(k', SemdFree)
  {
    var kc := k'.(pcb := Cleared(k.pcb, ds));
    assert SemdsOk(kc, fl + ToSet(ds));
    var q' := Minus(k.queues[ProcQ(s)], ToSet(ds));
    assert kc.queues[ProcQ(s)] == q';
    if q' != [] {
      assert q'[0] in q';
    }
  }

  // ----- the documented effect

  /** Every blocked process below `p` is removed: what include/asl.h describes for a blocked `p`. */
  ghost predicate RemovesWholeTree(k: State, p: Pid) {
    forall x: Pid :: Descends(k.pcb, x, p) && IsBlocked(k.pcb, x) ==> BlockedChain(k.pcb, x, p)
  }

  /** No blocked process strictly below `p` has an unblocked parent. */
  ghost predicate NoGaps(k: State, p: Pid) {
    forall x: Pid :: x != p && Descends(k.pcb, x, p) && IsBlocked(k.pcb, x) ==>
                       x < |k.pcb| && k.pcb[x].parent.Some? && IsBlocked(k.pcb, k.pcb[x].parent.value)
  }

  lemma {:induction false} ChainExtends(k: State, x: Pid, p: Pid, n: nat)
    requires NoGaps(k, p) && Up(k.pcb, x, n) == Some(p) && IsBlocked(k.pcb, x)
    ensures BlockedChain(k.pcb, x, p)
    decreases n
  {
    assert Up(k.pcb, x, 0) == Some(x);
    if x == p {
      assert ChainOf(k.pcb, x, p, 0);
    } else {
      assert Descends(k.pcb, x, p);
      var y := k.pcb[x].parent.value;
      assert Up(k.pcb, x, 1) == Some(y);
      UpAdd(k.pcb, x, y, 1, n - 1);
      ChainExtends(k, y, p, n - 1);
      var m: nat :| ChainOf(k.pcb, y, p, m);
      ChainAbove(k.pcb, x, y, p, m);
    }
  }

  lemma ChainAbove(pcb: seq<Pcb>, x: Pid, y: Pid, p: Pid, n: nat)
    requires IsBlocked(pcb, x) && Up(pcb, x, 1) == Some(y) && ChainOf(pcb, y, p, n)
    ensures ChainOf(pcb, x, p, n + 1)
  {
    UpAdd(pcb, x, y, 1, n);
    forall m: nat | m <= n + 1
      ensures Up(pcb, x, m).Some? && IsBlocked(pcb, Up(pcb, x, m).value)
    {
      if m > 0 {
        UpAdd(pcb, x, y, 1, m - 1);
      }
    }
  }

  /** The code removes every blocked descendant iff no blocked one hangs below an unblocked one. */
  lemma DocumentedIff(k: State, p: Pid)
    requires TreeOk(k) && p < |k.pcb|
    ensures RemovesWholeTree(k, p) <==> NoGaps(k, p)
  {
    if RemovesWholeTree(k, p) {
      forall x: Pid | x != p && Descends(k.pcb, x, p) && IsBlocked(k.pcb, x)
        ensures k.pcb[x].parent.Some? && IsBlocked(k.pcb, k.pcb[x].parent.value)
      {
        var n: nat :| ChainOf(k.pcb, x, p, n);
        assert Up(k.pcb, x, 0) == Some(x);
        assert Up(k.pcb, x, 1) == k.pcb[x].parent;
      }
    }
    if NoGaps(k, p) {
      forall x: Pid | Descends(k.pcb, x, p) && IsBlocked(k.pcb, x)
        ensures BlockedChain(k.pcb, x, p)
      {
        var n: nat :| Up(k.pcb, x, n) == Some(p);
        ChainExtends(k, x, p, n);
      }
    }
  }
}
