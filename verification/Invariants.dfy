/**
 What the kernel keeps true of its tables and lists, and what each routine does to
 it.  `fl` is the set of PCBs that are on no `p_next` list at that moment: between
 kernel steps it is just the running process.
 */
module Invariants {
  import opened Sequences
  import opened KernelState

  type Queues = map<QueueHead, seq<Pid>>

  ghost predicate On(qs: Queues, h: QueueHead, p: Pid) {
    h in qs && p in qs[h]
  }

  ghost predicate IsChild(children: map<Pid, seq<Pid>>, p: Pid, c: Pid) {
    p in children && c in children[p]
  }

  ghost predicate Free(k: State, p: Pid) {
    On(k.queues, PcbFree, p)
  }

  /** Every PCB outside `fl` is on exactly one `p_next` list, once; those of `fl` are on none. */
  ghost predicate QueuesOk(k: State, fl: set<Pid>) {
    && PcbFree in k.queues && Ready in k.queues
    && (forall s: Semd :: s < |k.pcb| ==> ProcQ(s) in k.queues)
    && (forall h: QueueHead :: h in k.queues && h.ProcQ? ==> h.s < |k.pcb|)
    && (forall h: QueueHead :: h in k.queues ==> NoDup(k.queues[h]))
    && (forall h: QueueHead, g: QueueHead, p: Pid :: On(k.queues, h, p) && On(k.queues, g, p) ==> h == g)
    && (forall h: QueueHead, p: Pid :: On(k.queues, h, p) ==> p < |k.pcb| && p !in fl)
    && (forall p: Pid :: p in fl ==> p < |k.pcb|)
    && (forall p: Pid :: p < |k.pcb| && p !in fl ==> exists h: QueueHead :: On(k.queues, h, p))
  }

  /**
   The descriptors are split between the pool and the active list; exactly those
   with waiters are active, under pairwise different keys; `p_semkey` names the
   queue a live process is on.
   */
  ghost predicate SemdsOk(k: State, fl: set<Pid>) {
    && |k.semKeys| == |k.pcb|
    && SemdFree in k.semds && Asl in k.semds
    && NoDup(k.semds[SemdFree]) && NoDup(k.semds[Asl])
    && (forall s: Semd :: s in k.semds[SemdFree] ==> s < |k.pcb| && s !in k.semds[Asl])
    && (forall s: Semd :: s in k.semds[Asl] ==> s < |k.pcb|)
    && (forall s: Semd :: s < |k.pcb| ==> s in k.semds[SemdFree] || s in k.semds[Asl])
    && (forall s: Semd :: s < |k.pcb| ==> ProcQ(s) in k.queues)
    && (forall s: Semd :: s < |k.pcb| ==> (s in k.semds[Asl] <==> k.queues[ProcQ(s)] != []))
    && (forall s: Semd :: s in k.semds[Asl] ==> k.semKeys[s].Some?)
    && (forall s: Semd, r: Semd :: s in k.semds[Asl] && r in k.semds[Asl] && k.semKeys[s] == k.semKeys[r] ==> s == r)
    && (forall s: Semd, p: Pid :: s < |k.pcb| && p < |k.pcb| && On(k.queues, ProcQ(s), p) ==>
          k.pcb[p].semKey == k.semKeys[s])
    && (forall p: Pid :: p < |k.pcb| && (On(k.queues, Ready, p) || p in fl) ==> k.pcb[p].semKey == None)
  }

  /** The parent fields and the child lists describe one forest over the live PCBs. */
  ghost predicate TreeOk(k: State) {
    && |k.ledger.rank| == |k.pcb|
    && (forall p: Pid :: p in k.children ==> p < |k.pcb| && NoDup(k.children[p]))
    && (forall p: Pid, c: Pid :: IsChild(k.children, p, c) ==>
          p < |k.pcb| && c < |k.pcb| && k.pcb[c].parent == Some(p) && k.ledger.rank[c] < k.ledger.rank[p])
    && (forall c: Pid :: c < |k.pcb| && k.pcb[c].parent.Some? ==> IsChild(k.children, k.pcb[c].parent.value, c))
    && (forall p: Pid :: p < |k.pcb| && !Free(k, p) ==> p in k.children)
    && (forall p: Pid :: p < |k.pcb| && Free(k, p) ==>
          k.pcb[p].parent == None && forall c: Pid :: !IsChild(k.children, p, c))
  }

  /** `a` is served before `b`: higher priority, or equal and queued earlier. */
  ghost predicate Before(pcb: seq<Pcb>, stamp: seq<nat>, a: Pid, b: Pid) {
    && a < |pcb| && b < |pcb| && a < |stamp| && b < |stamp|
    && (pcb[a].priority > pcb[b].priority || (pcb[a].priority == pcb[b].priority && stamp[a] < stamp[b]))
  }

  ghost predicate Ordered(pcb: seq<Pcb>, stamp: seq<nat>, s: seq<Pid>) {
    forall i, j :: 0 <= i < j < |s| ==> Before(pcb, stamp, s[i], s[j])
  }

  /** The ready queue and every semaphore queue are in service order. */
  ghost predicate OrderOk(k: State) {
    && |k.ledger.stamp| == |k.pcb|
    && (forall p: Pid :: p < |k.pcb| ==> k.ledger.stamp[p] < k.ledger.stamps)
    && (forall h: QueueHead :: h in k.queues && h != PcbFree ==> Ordered(k.pcb, k.ledger.stamp, k.queues[h]))
  }

  ghost predicate Inv(k: State, fl: set<Pid>) {
    QueuesOk(k, fl) && SemdsOk(k, fl) && TreeOk(k) && OrderOk(k)
  }

  // ----- what a part of the invariant does not look at

  lemma SemdsFrame(k: State, k': State, fl: set<Pid>, fl': set<Pid>)
    requires SemdsOk(k, fl) && k'.semds == k.semds && k'.semKeys == k.semKeys && |k'.pcb| == |k.pcb|
    requires forall p: Pid :: p < |k.pcb| ==> k'.pcb[p].semKey == k.pcb[p].semKey
    requires forall s: Semd :: s < |k.pcb| ==> ProcQ(s) in k'.queues && k'.queues[ProcQ(s)] == k.queues[ProcQ(s)]
    requires forall p: Pid :: On(k'.queues, Ready, p) || p in fl' ==> On(k.queues, Ready, p) || p in fl
    ensures SemdsOk(k', fl')
  {
  }

  lemma TreeFrame(k: State, k': State)
    requires TreeOk(k) && k'.children == k.children && k'.ledger.rank == k.ledger.rank && |k'.pcb| == |k.pcb|
    requires forall p: Pid :: p < |k.pcb| ==> k'.pcb[p].parent == k.pcb[p].parent
    requires forall p: Pid :: Free(k', p) <==> Free(k, p)
    ensures TreeOk(k')
  {
  }

  lemma OrderedFrame(k: State, k': State, s: seq<Pid>)
    requires Ordered(k.pcb, k.ledger.stamp, s) && |k'.pcb| == |k.pcb| && |k'.ledger.stamp| == |k.ledger.stamp|
    requires forall p: Pid :: p in s && p < |k.pcb| ==> k'.pcb[p].priority == k.pcb[p].priority
    requires forall p: Pid :: p in s && p < |k.ledger.stamp| ==> k'.ledger.stamp[p] == k.ledger.stamp[p]
    ensures Ordered(k'.pcb, k'.ledger.stamp, s)
  {
  }

  lemma OrderFrame(k: State, k': State)
    requires OrderOk(k) && k'.queues == k.queues && |k'.pcb| == |k.pcb|
    requires k'.ledger.stamp == k.ledger.stamp && k'.ledger.stamps == k.ledger.stamps
    requires forall p: Pid :: p < |k.pcb| ==> k'.pcb[p].priority == k.pcb[p].priority
    ensures OrderOk(k')
  {
  }

  /** Two states with the same lists and the same list-relevant fields. */
  ghost predicate Alike(k: State, k': State) {
    && k'.queues == k.queues && k'.children == k.children && k'.semds == k.semds && k'.semKeys == k.semKeys
    && |k'.pcb| == |k.pcb|
    && (forall p: Pid :: p < |k.pcb| ==>
          && k'.pcb[p].priority == k.pcb[p].priority && k'.pcb[p].semKey == k.pcb[p].semKey
          && k'.pcb[p].parent == k.pcb[p].parent)
    && k'.ledger.stamp == k.ledger.stamp && k'.ledger.stamps == k.ledger.stamps && k'.ledger.rank == k.ledger.rank
  }

  lemma AlikeInv(k: State, k': State, fl: set<Pid>)
    requires Inv(k, fl) && Alike(k, k')
    ensures Inv(k', fl)
  {
    SemdsFrame(k, k', fl, fl);
    TreeFrame(k, k');
    OrderFrame(k, k');
  }

  // ----- a PCB moves onto a list, or off one

  lemma QueueGains(k: State, k': State, h: QueueHead, p: Pid, fl: set<Pid>)
    requires QueuesOk(k, fl) && h in k.queues && p in fl
    requires h in k'.queues && k'.queues == k.queues[h := k'.queues[h]] && |k'.pcb| == |k.pcb|
    requires NoDup(k'.queues[h])
    requires forall x: Pid :: x in k'.queues[h] <==> x in k.queues[h] || x == p
    ensures forall g: QueueHead, x: Pid :: On(k'.queues, g, x) <==> On(k.queues, g, x) || (g == h && x == p)
    ensures QueuesOk(k', fl - {p})
  {
    forall x: Pid | x < |k'.pcb| && x !in fl - {p}
      ensures exists g: QueueHead :: On(k'.queues, g, x)
    {
      if x == p {
        assert On(k'.queues, h, x);
      } else {
        var g: QueueHead :| On(k.queues, g, x);
        assert On(k'.queues, g, x);
      }
    }
  }

  lemma QueueLoses(k: State, k': State, h: QueueHead, p: Pid, fl: set<Pid>)
    requires QueuesOk(k, fl) && On(k.queues, h, p)
    requires h in k'.queues && k'.queues == k.queues[h := k'.queues[h]] && |k'.pcb| == |k.pcb|
    requires NoDup(k'.queues[h])
    requires forall x: Pid :: x in k'.queues[h] <==> x in k.queues[h] && x != p
    ensures forall g: QueueHead, x: Pid :: On(k'.queues, g, x) <==> On(k.queues, g, x) && x != p
    ensures QueuesOk(k', fl + {p})
  {
    forall g: QueueHead, x: Pid
      ensures On(k'.queues, g, x) <==> On(k.queues, g, x) && x != p
    {
      if On(k.queues, g, x) && x == p {
        assert g == h;
      }
    }
    forall x: Pid | x < |k'.pcb| && x !in fl + {p}
      ensures exists g: QueueHead :: On(k'.queues, g, x)
    {
      var g: QueueHead :| On(k.queues, g, x);
      assert On(k'.queues, g, x);
    }
  }

  // ----- order

  lemma {:induction false} InsertIndexFacts(pcb: seq<Pcb>, s: seq<Pid>, x: int)
    requires forall j :: 0 <= j < |s| ==> s[j] < |pcb|
    ensures var i := InsertIndex(pcb, s, x);
            && (forall j :: 0 <= j < i ==> pcb[s[j]].priority >= x)
            && (i < |s| ==> pcb[s[i]].priority < x)
  {
    if s != [] && pcb[s[0]].priority >= x {
      InsertIndexFacts(pcb, s[1..], x);
      var i := InsertIndex(pcb, s[1..], x);
      forall j | 0 <= j < i + 1
        ensures pcb[s[j]].priority >= x
      {
        if j > 0 {
          assert s[j] == s[1..][j - 1];
        }
      }
    }
  }

  lemma {:induction false} OrderedMinus(pcb: seq<Pcb>, stamp: seq<nat>, s: seq<Pid>, ds: set<Pid>)
    requires Ordered(pcb, stamp, s)
    ensures Ordered(pcb, stamp, Minus(s, ds))
  {
    if s != [] {
      OrderedMinus(pcb, stamp, s[1..], ds);
      var r := Minus(s[1..], ds);
      forall j | 0 <= j < |r|
        ensures Before(pcb, stamp, s[0], r[j])
      {
        assert r[j] in s[1..];
        var m :| 0 <= m < |s[1..]| && s[1..][m] == r[j];
        assert Before(pcb, stamp, s[0], s[m + 1]);
      }
    }
  }

  /** Everyone from the insertion index on has a lower priority than the new process. */
  lemma StrictlyBelow(pcb: seq<Pcb>, stamp: seq<nat>, s: seq<Pid>, i: nat, b: nat, x: int)
    requires Ordered(pcb, stamp, s) && i <= b < |s| && s[i] < |pcb| && s[b] < |pcb|
    requires pcb[s[i]].priority < x
    ensures pcb[s[b]].priority < x
  {
  }

  /** A process goes in behind those it follows and before those it precedes. */
  lemma OrderedSplice(pcb: seq<Pcb>, stamp: seq<nat>, s: seq<Pid>, i: nat, p: Pid)
    requires Ordered(pcb, stamp, s) && i <= |s|
    requires forall j :: 0 <= j < i ==> Before(pcb, stamp, s[j], p)
    requires forall j :: i <= j < |s| ==> Before(pcb, stamp, p, s[j])
    ensures Ordered(pcb, stamp, InsertAt(s, i, p))
  {
  }

  /** A priority insertion with a new stamp keeps the service order of that queue. */
  lemma OrderedInsert(pcb: seq<Pcb>, stamp: seq<nat>, top: nat, s: seq<Pid>, p: Pid)
    requires Ordered(pcb, stamp, s) && |stamp| == |pcb| && p < |pcb| && p !in s
    requires forall q: Pid :: q < |pcb| ==> stamp[q] < top
    requires forall j :: 0 <= j < |s| ==> s[j] < |pcb|
    ensures Ordered(pcb, stamp[p := top], InsertAt(s, InsertIndex(pcb, s, pcb[p].priority), p))
  {
    var x := pcb[p].priority;
    var i := InsertIndex(pcb, s, x);
    InsertIndexFacts(pcb, s, x);
    var stamp' := stamp[p := top];
    forall a, b | 0 <= a < b < |s|
      ensures Before(pcb, stamp', s[a], s[b])
    {
      assert Before(pcb, stamp, s[a], s[b]) && s[a] in s && s[b] in s;
    }
    forall j | 0 <= j < i
      ensures Before(pcb, stamp', s[j], p)
    {
      assert s[j] in s;
    }
    forall j | i <= j < |s|
      ensures Before(pcb, stamp', p, s[j])
    {
      StrictlyBelow(pcb, stamp, s, i, j, x);
    }
    OrderedSplice(pcb, stamp', s, i, p);
  }

  // ----- allocation and release

  lemma AllocInv(k: State, fl: set<Pid>)
    requires Inv(k, fl) && Queue(k, PcbFree) != []
    ensures var p := Queue(k, PcbFree)[0]; var k' := AllocPcb(k);
            && p < |k.pcb| && p !in fl && Inv(k', fl + {p})
            && k'.children == k.children[p := []] && Proc(k', p) == ZERO_PCB
            && forall q: Pid :: Free(k', q) <==> Free(k, q) && q != p
  {
    var free := k.queues[PcbFree];
    var p := free[0];
    var k' := AllocPcb(k);
    assert On(k.queues, PcbFree, p);
    NoDupTail(free);
    QueueLoses(k, k', PcbFree, p, fl);
    AllocSemds(k, k', fl, p);
    AllocTree(k, k', p);
    forall h: QueueHead | h in k'.queues && h != PcbFree
      ensures Ordered(k'.pcb, k'.ledger.stamp, k'.queues[h])
    {
      forall q: Pid | q in k'.queues[h] ensures q != p { assert On(k'.queues, h, q); }
      OrderedFrame(k, k', k'.queues[h]);
    }
  }

  lemma AllocSemds(k: State, k': State, fl: set<Pid>, p: Pid)
    requires SemdsOk(k, fl) && k'.semds == k.semds && k'.semKeys == k.semKeys
    requires p < |k.pcb| && k'.pcb == k.pcb[p := ZERO_PCB]
    requires forall g: QueueHead, x: Pid :: On(k'.queues, g, x) <==> On(k.queues, g, x) && x != p
    requires forall s: Semd :: s < |k.pcb| ==> ProcQ(s) in k'.queues && k'.queues[ProcQ(s)] == k.queues[ProcQ(s)]
    ensures SemdsOk(k', fl + {p})
  {
  }

  lemma AllocTree(k: State, k': State, p: Pid)
    requires TreeOk(k) && p < |k.pcb| && Free(k, p)
    requires k'.children == k.children[p := []] && k'.ledger.rank == k.ledger.rank && k'.pcb == k.pcb[p := ZERO_PCB]
    requires forall q: Pid :: Free(k', q) <==> Free(k, q) && q != p
    ensures TreeOk(k')
  {
    assert forall q: Pid, c: Pid :: IsChild(k'.children, q, c) <==> IsChild(k.children, q, c);
  }

  // ----- queue insertion and removal

  lemma InsertQueues(k: State, fl: set<Pid>, h: QueueHead, p: Pid)
    requires QueuesOk(k, fl) && OrderOk(k) && p in fl && h in k.queues && h != PcbFree
    ensures var k' := InsertInQueue(k, h, p);
            && QueuesOk(k', fl - {p}) && OrderOk(k')
            && (forall g: QueueHead, x: Pid :: On(k'.queues, g, x) <==> On(k.queues, g, x) || (g == h && x == p))
  {
    var k' := InsertInQueue(k, h, p);
    var s := k.queues[h];
    assert !On(k.queues, h, p);
    InsertAtFacts(s, InsertIndex(k.pcb, s, Proc(k, p).priority), p);
    QueueGains(k, k', h, p, fl);
    forall g: QueueHead | g in k'.queues && g != PcbFree
      ensures Ordered(k'.pcb, k'.ledger.stamp, k'.queues[g])
    {
      if g == h {
        forall j | 0 <= j < |s| ensures s[j] < |k.pcb| { assert On(k.queues, h, s[j]); }
        OrderedInsert(k.pcb, k.ledger.stamp, k.ledger.stamps, s, p);
      } else {
        forall q: Pid | q in k.queues[g] ensures q != p { assert On(k.queues, g, q); }
        OrderedFrame(k, k', k.queues[g]);
      }
    }
  }

  lemma RemoveQueues(k: State, fl: set<Pid>, h: QueueHead, p: Pid)
    requires QueuesOk(k, fl) && OrderOk(k) && On(k.queues, h, p)
    ensures var k' := RemoveFromQueue(k, h, p);
            && QueuesOk(k', fl + {p}) && OrderOk(k')
            && (forall g: QueueHead, x: Pid :: On(k'.queues, g, x) <==> On(k.queues, g, x) && x != p)
  {
    var k' := RemoveFromQueue(k, h, p);
    MinusNoDup(k.queues[h], {p});
    QueueLoses(k, k', h, p, fl);
    forall g: QueueHead | g in k'.queues && g != PcbFree
      ensures Ordered(k'.pcb, k'.ledger.stamp, k'.queues[g])
    {
      OrderedMinus(k.pcb, k.ledger.stamp, k.queues[g], {p});
    }
  }

  /** Rewriting the priority of a process that is on no queue. */
  lemma PriorityInv(k: State, fl: set<Pid>, p: Pid, x: int)
    requires Inv(k, fl) && p in fl
    ensures Inv(SetProc(k, p, Proc(k, p).(priority := x)), fl)
  {
    var k' := SetProc(k, p, Proc(k, p).(priority := x));
    SemdsFrame(k, k', fl, fl);
    TreeFrame(k, k');
    forall h: QueueHead | h in k'.queues && h != PcbFree
      ensures Ordered(k'.pcb, k'.ledger.stamp, k'.queues[h])
    {
      forall q: Pid | q in k.queues[h] ensures q != p { assert On(k.queues, h, q); }
      OrderedFrame(k, k', k.queues[h]);
    }
  }

  lemma EnqueueInv(k: State, fl: set<Pid>, p: Pid)
    requires Inv(k, fl) && p in fl
    ensures var k' := EnqueueProcess(k, p);
            && Inv(k', fl - {p})
            && (forall g: QueueHead, x: Pid :: On(k'.queues, g, x) <==> On(k.queues, g, x) || (g == Ready && x == p))
  {
    var k1 := SetProc(k, p, Proc(k, p).(priority := Proc(k, p).originalPriority));
    PriorityInv(k, fl, p, Proc(k, p).originalPriority);
    InsertQueues(k1, fl, Ready, p);
    var k' := InsertInQueue(k1, Ready, p);
    SemdsFrame(k1, k', fl, fl - {p});
    TreeFrame(k1, k');
  }

  /** A process leaves the ready queue and starts floating. */
  lemma TakeReadyInv(k: State, fl: set<Pid>, p: Pid)
    requires Inv(k, fl) && On(k.queues, Ready, p)
    ensures var k' := RemoveFromQueue(k, Ready, p);
            && Inv(k', fl + {p})
            && (forall g: QueueHead, x: Pid :: On(k'.queues, g, x) <==> On(k.queues, g, x) && x != p)
  {
    var k' := RemoveFromQueue(k, Ready, p);
    RemoveQueues(k, fl, Ready, p);
    assert !On(k.queues, PcbFree, p);
    SemdsFrame(k, k', fl, fl + {p});
    TreeFrame(k, k');
  }

  lemma AgingInv(k: State, fl: set<Pid>)
    requires Inv(k, fl)
    ensures Inv(Aging(k), fl)
  {
    var k' := Aging(k);
    SemdsFrame(k, k', fl, fl);
    TreeFrame(k, k');
    forall h: QueueHead | h in k'.queues && h != PcbFree
      ensures Ordered(k'.pcb, k'.ledger.stamp, k'.queues[h])
    {
      AgingOrder(k, fl, h);
    }
  }

  /** Aging moves the whole ready queue up together and no other queue at all. */
  lemma AgingOrder(k: State, fl: set<Pid>, h: QueueHead)
    requires QueuesOk(k, fl) && OrderOk(k) && h in k.queues && h != PcbFree
    ensures Ordered(Aging(k).pcb, k.ledger.stamp, k.queues[h])
  {
    var pcb' := Aging(k).pcb;
    var s := k.queues[h];
    forall i, j | 0 <= i < j < |s|
      ensures Before(pcb', k.ledger.stamp, s[i], s[j])
    {
      assert Before(k.pcb, k.ledger.stamp, s[i], s[j]);
      assert On(k.queues, h, s[i]) && On(k.queues, h, s[j]);
      assert On(k.queues, Ready, s[i]) <==> h == Ready;
      assert On(k.queues, Ready, s[j]) <==> h == Ready;
    }
  }
}
