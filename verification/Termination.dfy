/**
 What `kill_tree` does to the kernel: for a list of processes in which everybody
 comes after his children, finishing them one by one removes exactly them.
 */
module Termination {
  import opened Sequences
  import opened KernelState
  import opened Invariants
  import opened ActiveSemaphores

  /**
   `k'` is `k` without the processes `ds`: they left their parents, every queue and
   every descriptor, and head the free list in reverse order; nobody else moved.
   */
  ghost predicate Removed(k: State, k': State, ds: seq<Pid>) {
    && RemovedQueues(k, k', ds) && RemovedTree(k, k', ds)
    && k'.semKeys == k.semKeys && k'.current == k.current && k'.switchTick == k.switchTick
    && k'.words == k.words && k'.areas == k.areas && k'.cpu == k.cpu && k'.now == k.now && k'.delays == k.delays
    && k'.ledger == k.ledger
  }

  ghost predicate RemovedQueues(k: State, k': State, ds: seq<Pid>) {
    && PcbFree in k.queues && k'.queues.Keys == k.queues.Keys
    && k'.queues[PcbFree] == Reversed(ds) + k.queues[PcbFree]
    && forall h: QueueHead :: h in k.queues && h != PcbFree ==> k'.queues[h] == Minus(k.queues[h], ToSet(ds))
  }

  ghost predicate RemovedTree(k: State, k': State, ds: seq<Pid>) {
    && k'.children.Keys == k.children.Keys
    && (forall p: Pid :: p in k.children ==> k'.children[p] == Minus(k.children[p], ToSet(ds)))
    && |k'.pcb| == |k.pcb|
    && forall p: Pid :: p < |k.pcb| ==> k'.pcb[p] == if p in ds then k.pcb[p].(parent := None) else k.pcb[p]
  }

  // ----- leaving the parent

  /** Taking `p` out of the child list of its parent takes it out of every child list. */
  lemma NotElsewhere(k: State, ch': Children, p: Pid)
    requires TreeOk(k) && p < |k.pcb| && ch'.Keys == k.children.Keys
    requires forall q: Pid :: q in k.children ==>
               ch'[q] == if k.pcb[p].parent == Some(q) then Minus(k.children[q], {p}) else k.children[q]
    ensures forall q: Pid :: q in k.children ==> ch'[q] == Minus(k.children[q], {p})
    ensures forall q: Pid :: q in ch' ==> NoDup(ch'[q])
    ensures forall a: Pid, c: Pid :: IsChild(ch', a, c) <==> IsChild(k.children, a, c) && c != p
  {
    forall q: Pid | q in k.children ensures NoDup(Minus(k.children[q], {p})) { MinusNoDup(k.children[q], {p}); }
    forall q: Pid | q in k.children && k.pcb[p].parent != Some(q)
      ensures Minus(k.children[q], {p}) == k.children[q]
    {
      assert !IsChild(k.children, q, p);
      MinusNothing(k.children[q], {p});
    }
  }

  lemma OrphanTree(k: State, k': State, p: Pid)
    requires TreeOk(k) && p < |k.pcb| && k'.ledger.rank == k.ledger.rank && k'.queues == k.queues
    requires k'.children.Keys == k.children.Keys
    requires forall q: Pid :: q in k'.children ==> NoDup(k'.children[q])
    requires forall a: Pid, c: Pid :: IsChild(k'.children, a, c) <==> IsChild(k.children, a, c) && c != p
    requires k'.pcb == k.pcb[p := k.pcb[p].(parent := None)]
    ensures TreeOk(k')
  {
  }

  lemma LeaveParentTree(k: State, p: Pid)
    requires TreeOk(k) && p < |k.pcb|
    ensures var k' := LeaveParent(k, p);
            && TreeOk(k') && RemovedTree(k, k', [p])
            && (forall a: Pid, c: Pid :: IsChild(k'.children, a, c) <==> IsChild(k.children, a, c) && c != p)
            && k'.pcb == k.pcb[p := k.pcb[p].(parent := None)]
            && k' == k.(children := k'.children, pcb := k'.pcb)
  {
    var k' := LeaveParent(k, p);
    assert ToSet([p]) == {p};
    if k.pcb[p].parent == None {
      assert k.pcb[p] == k.pcb[p].(parent := None);
    } else {
      assert IsChild(k.children, k.pcb[p].parent.value, p);
    }
    NotElsewhere(k, k'.children, p);
    OrphanTree(k, k', p);
  }

  lemma OrphanRest(k: State, k': State, fl: set<Pid>, p: Pid)
    requires SemdsOk(k, fl) && OrderOk(k) && p < |k.pcb|
    requires k' == k.(children := k'.children, pcb := k.pcb[p := k.pcb[p].(parent := None)])
    ensures SemdsOk(k', fl) && OrderOk(k')
  {
  }

  lemma LeaveParentInv(k: State, fl: set<Pid>, p: Pid)
    requires Inv(k, fl) && p < |k.pcb|
    ensures Inv(LeaveParent(k, p), fl)
  {
    LeaveParentTree(k, p);
    OrphanRest(k, LeaveParent(k, p), fl, p);
  }

  // ----- leaving the queues

  /** `p` is off every queue, with nothing else changed in the queues. */
  ghost predicate OffQueues(k: State, k': State, p: Pid) {
    && k'.queues.Keys == k.queues.Keys
    && forall h: QueueHead :: h in k.queues ==> k'.queues[h] == Minus(k.queues[h], {p})
  }

  lemma OffOne(k: State, k': State, fl: set<Pid>, h: QueueHead, p: Pid)
    requires QueuesOk(k, fl) && On(k.queues, h, p)
    requires k'.queues == k.queues[h := Minus(k.queues[h], {p})]
    ensures OffQueues(k, k', p)
  {
    forall g: QueueHead | g in k.queues && g != h
      ensures Minus(k.queues[g], {p}) == k.queues[g]
    {
      assert !On(k.queues, g, p);
      MinusNothing(k.queues[g], {p});
    }
  }

  lemma OffNone(k: State, fl: set<Pid>, p: Pid)
    requires QueuesOk(k, fl) && p in fl
    ensures OffQueues(k, k, p)
  {
    forall g: QueueHead | g in k.queues
      ensures Minus(k.queues[g], {p}) == k.queues[g]
    {
      assert !On(k.queues, g, p);
      MinusNothing(k.queues[g], {p});
    }
  }

  function LeaveQueues(k: State, p: Pid): State {
    RemoveFromQueue(FindAndRemoveBlocked(k, p), Ready, p)
  }

  /** Only the queues and the descriptor lists change. */
  ghost predicate SameRest(k: State, k': State) {
    k' == k.(queues := k'.queues, semds := k'.semds)
  }

  lemma LeaveSemaphore(k: State, fl: set<Pid>, s: Semd, p: Pid)
    requires Inv(k, fl) && On(k.queues, ProcQ(s), p)
    ensures Unblocks(k, LeaveQueues(k, p), s, p) && SameRest(k, LeaveQueues(k, p))
  {
    assert s < |k.pcb| && p < |k.pcb| && s in k.semds[Asl];
    AslSemdIsLookup(k, fl, k.pcb[p].semKey, s);
    var k1 := FindAndRemoveBlocked(k, p);
    assert k1 == DropBlocked(k, s, p);
    assert !On(k.queues, Ready, p);
    assert k1.queues[Ready] == k.queues[Ready];
  }

  lemma LeaveReady(k: State, fl: set<Pid>, p: Pid)
    requires Inv(k, fl) && p < |k.pcb| && (On(k.queues, Ready, p) || p in fl)
    ensures LeaveQueues(k, p) == RemoveFromQueue(k, Ready, p)
  {
  }

  /** `k'` is `k` with `p` on no queue any more. */
  ghost predicate Left(k: State, k': State, fl: set<Pid>, p: Pid) {
    && QueuesOk(k', fl + {p}) && SemdsOk(k', fl) && TreeOk(k') && OrderOk(k')
    && OffQueues(k, k', p) && SameRest(k, k')
  }

  lemma FloatingLeaves(k: State, fl: set<Pid>, p: Pid)
    requires Inv(k, fl) && p in fl
    ensures Left(k, k, fl, p)
  {
    OffNone(k, fl, p);
    assert fl + {p} == fl;
  }

  lemma ReadyLeaves(k: State, k': State, fl: set<Pid>, p: Pid)
    requires Inv(k, fl) && On(k.queues, Ready, p)
    requires k' == k.(queues := k.queues[Ready := Minus(k.queues[Ready], {p})])
    ensures Left(k, k', fl, p)
  {
    assert k' == RemoveFromQueue(k, Ready, p);
    RemoveQueues(k, fl, Ready, p);
    assert !On(k.queues, PcbFree, p);
    SemdsFrame(k, k', fl, fl);
    TreeFrame(k, k');
    OffOne(k, k', fl, Ready, p);
  }

  lemma BlockedLeaves(k: State, k': State, fl: set<Pid>, s: Semd, p: Pid)
    requires Inv(k, fl) && On(k.queues, ProcQ(s), p) && Unblocks(k, k', s, p) && SameRest(k, k')
    ensures Left(k, k', fl, p)
  {
    UnblockedInv(k, k', fl, s, p);
    OffOne(k, k', fl, ProcQ(s), p);
  }

  lemma LeaveQueuesInv(k: State, fl: set<Pid>, p: Pid)
    requires Inv(k, fl) && p < |k.pcb| && !Free(k, p)
    ensures Left(k, LeaveQueues(k, p), fl, p)
  {
    if p in fl {
      LeaveReady(k, fl, p);
      assert !On(k.queues, Ready, p);
      FloatingLeaves(k, fl, p);
    } else {
      var h: QueueHead :| On(k.queues, h, p);
      if h == Ready {
        LeaveReady(k, fl, p);
        ReadyLeaves(k, LeaveQueues(k, p), fl, p);
      } else {
        LeaveSemaphore(k, fl, h.s, p);
        BlockedLeaves(k, LeaveQueues(k, p), fl, h.s, p);
      }
    }
  }

  // ----- one process, then all of them

  lemma ReleaseQueues(k: State, k': State, fl: set<Pid>, p: Pid)
    requires QueuesOk(k, fl) && OrderOk(k) && p in fl && |k'.pcb| == |k.pcb|
    requires k'.queues == k.queues[PcbFree := [p] + k.queues[PcbFree]]
    requires k'.pcb == k.pcb && k'.ledger.stamp == k.ledger.stamp && k'.ledger.stamps == k.ledger.stamps
    ensures QueuesOk(k', fl - {p}) && OrderOk(k')
    ensures forall g: QueueHead, x: Pid :: On(k'.queues, g, x) <==> On(k.queues, g, x) || (g == PcbFree && x == p)
  {
    assert !On(k.queues, PcbFree, p);
    QueueGains(k, k', PcbFree, p, fl);
  }

  lemma ReleaseTree(k: State, k': State, p: Pid)
    requires TreeOk(k) && p < |k.pcb| && k.pcb[p].parent == None
    requires forall c: Pid :: !IsChild(k.children, p, c)
    requires k'.pcb == k.pcb && k'.children == k.children && k'.ledger.rank == k.ledger.rank
    requires forall g: QueueHead, x: Pid :: On(k'.queues, g, x) <==> On(k.queues, g, x) || (g == PcbFree && x == p)
    ensures TreeOk(k')
  {
  }

  lemma ReleaseInv(k: State, k': State, fl: set<Pid>, p: Pid)
    requires QueuesOk(k, fl + {p}) && SemdsOk(k, fl) && TreeOk(k) && OrderOk(k)
    requires p < |k.pcb| && k.pcb[p].parent == None && forall c: Pid :: !IsChild(k.children, p, c)
    requires k' == k.(queues := k.queues[PcbFree := [p] + k.queues[PcbFree]])
    ensures Inv(k', fl - {p})
  {
    ReleaseQueues(k, k', fl + {p}, p);
    assert (fl + {p}) - {p} == fl - {p};
    ReleaseTree(k, k', p);
    SemdsFrame(k, k', fl, fl - {p});
  }

  /** `kill_tree` on a live process without children. */
  lemma FinishInv(k: State, fl: set<Pid>, p: Pid)
    requires Inv(k, fl) && p < |k.pcb| && !Free(k, p) && forall c: Pid :: !IsChild(k.children, p, c)
    ensures Inv(Finish(k, p), fl - {p}) && Removed(k, Finish(k, p), [p])
  {
    var k1 := LeaveParent(k, p);
    LeaveParentTree(k, p);
    LeaveParentInv(k, fl, p);
    assert !Free(k1, p);
    LeaveQueuesInv(k1, fl, p);
    var k2 := LeaveQueues(k1, p);
    var k' := Finish(k, p);
    FinishQueues(k1, k2, k', fl, p);
    ReleaseInv(k2, k', fl, p);
    assert RemovedQueues(k, k', [p]);
  }

  lemma FinishQueues(k: State, k2: State, k': State, fl: set<Pid>, p: Pid)
    requires QueuesOk(k, fl) && !On(k.queues, PcbFree, p) && OffQueues(k, k2, p)
    requires k'.queues == k2.queues[PcbFree := [p] + k2.queues[PcbFree]]
    ensures RemovedQueues(k, k', [p])
  {
    assert ToSet([p]) == {p};
    MinusNothing(k.queues[PcbFree], {p});
    assert Reversed([p]) == [p];
  }

  /** Nobody twice, nobody free, everybody after his children. */
  ghost predicate Killable(k: State, ds: seq<Pid>) {
    && NoDup(ds)
    && (forall x: Pid :: x in ds ==> x < |k.pcb| && !Free(k, x))
    && forall i: nat, c: Pid :: i < |ds| && IsChild(k.children, ds[i], c) ==> c in ds[..i]
  }

  lemma KillableTail(k: State, k': State, ds: seq<Pid>)
    requires ds != [] && Killable(k, ds) && Removed(k, k', [ds[0]])
    ensures Killable(k', ds[1..])
  {
    NoDupTail(ds);
    assert ToSet([ds[0]]) == {ds[0]};
    assert Reversed([ds[0]]) == [ds[0]];
    forall x: Pid | x in ds[1..]
      ensures x < |k'.pcb| && !Free(k', x)
    {
      assert x in ds && x != ds[0];
    }
    forall i: nat, c: Pid | i < |ds[1..]| && IsChild(k'.children, ds[1..][i], c)
      ensures c in ds[1..][..i]
    {
      assert IsChild(k.children, ds[i + 1], c) && c != ds[0];
      assert ds[..i + 1] == [ds[0]] + ds[1..][..i];
    }
  }

  lemma RemovedNothing(k: State)
    requires PcbFree in k.queues
    ensures Removed(k, k, [])
  {
    forall h: QueueHead | h in k.queues ensures Minus(k.queues[h], {}) == k.queues[h] { MinusNothing(k.queues[h], {}); }
    forall p: Pid | p in k.children
      ensures Minus(k.children[p], {}) == k.children[p]
    {
      MinusNothing(k.children[p], {});
    }
    assert ToSet<Pid>([]) == {};
  }

  lemma {:induction false} ReversedConcat<T(!new)>(a: seq<T>, b: seq<T>)
    ensures Reversed(a + b) == Reversed(b) + Reversed(a)
  {
    if a == [] {
      assert a + b == b;
    } else {
      assert (a + b)[1..] == a[1..] + b;
      ReversedConcat(a[1..], b);
    }
  }

  lemma RemovedTwice(k: State, k1: State, k2: State, a: seq<Pid>, b: seq<Pid>)
    requires Removed(k, k1, a) && Removed(k1, k2, b)
    ensures Removed(k, k2, a + b)
  {
    assert ToSet(a + b) == ToSet(a) + ToSet(b);
    RemovedTwiceQueues(k, k1, k2, a, b);
    RemovedTwiceTree(k, k1, k2, a, b);
  }

  lemma RemovedTwiceQueues(k: State, k1: State, k2: State, a: seq<Pid>, b: seq<Pid>)
    requires RemovedQueues(k, k1, a) && RemovedQueues(k1, k2, b)
    ensures RemovedQueues(k, k2, a + b)
  {
    FreeTwice(a, b, k.queues[PcbFree]);
    forall h: QueueHead | h in k.queues && h != PcbFree
      ensures k2.queues[h] == Minus(k.queues[h], ToSet(a + b))
    {
      LessTwice(k.queues[h], a, b);
    }
  }

  lemma FreeTwice(a: seq<Pid>, b: seq<Pid>, free: seq<Pid>)
    ensures Reversed(b) + (Reversed(a) + free) == Reversed(a + b) + free
  {
    ReversedConcat(a, b);
  }

  lemma LessTwice(s: seq<Pid>, a: seq<Pid>, b: seq<Pid>)
    ensures Minus(Minus(s, ToSet(a)), ToSet(b)) == Minus(s, ToSet(a + b))
  {
    assert ToSet(a + b) == ToSet(a) + ToSet(b);
    MinusTwice(s, ToSet(a), ToSet(b));
  }

  lemma RemovedTwiceTree(k: State, k1: State, k2: State, a: seq<Pid>, b: seq<Pid>)
    requires RemovedTree(k, k1, a) && RemovedTree(k1, k2, b)
    ensures RemovedTree(k, k2, a + b)
  {
    assert ToSet(a + b) == ToSet(a) + ToSet(b);
    forall p: Pid | p in k.children
      ensures k2.children[p] == Minus(k.children[p], ToSet(a + b))
    {
      MinusTwice(k.children[p], ToSet(a), ToSet(b));
    }
  }

  lemma KillableHead(k: State, ds: seq<Pid>)
    requires ds != [] && Killable(k, ds)
    ensures ds[0] < |k.pcb| && !Free(k, ds[0]) && forall c: Pid :: !IsChild(k.children, ds[0], c)
  {
  }

  lemma SetOfTail(ds: seq<Pid>, fl: set<Pid>)
    requires ds != []
    ensures (fl - {ds[0]}) - ToSet(ds[1..]) == fl - ToSet(ds)
    ensures [ds[0]] + ds[1..] == ds
  {
  }

  /** Finishing a killable list removes exactly its members and keeps the invariant. */
  lemma {:induction false} FinishAllInv(k: State, fl: set<Pid>, ds: seq<Pid>)
    requires Inv(k, fl) && Killable(k, ds)
    ensures Inv(FinishAll(k, ds), fl - ToSet(ds))
    ensures Removed(k, FinishAll(k, ds), ds)
    decreases |ds|
  {
    if ds == [] {
      RemovedNothing(k);
      assert fl - ToSet(ds) == fl;
    } else {
      hide Inv, Removed, Killable;
      var k1 := Finish(k, ds[0]);
      KillableHead(k, ds);
      FinishInv(k, fl, ds[0]);
      KillableTail(k, k1, ds);
      FinishAllInv(k1, fl - {ds[0]}, ds[1..]);
      SetOfTail(ds, fl);
      RemovedTwice(k, k1, FinishAll(k, ds), [ds[0]], ds[1..]);
    }
  }
}
