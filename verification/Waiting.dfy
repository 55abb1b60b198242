/**
 Bounded waiting.  Aging adds one to every ready process at each slice expiry, and
 nobody enters the ready queue above his original priority.  So if no original
 priority exceeds `top`, a ready process that has aged to `top` is never overtaken
 again, and it is dispatched after a bounded number of slice expiries.
 */
module Waiting {
  import opened Sequences
  import opened KernelState
  import opened KernelSteps
  import opened Invariants
  import opened ActiveSemaphores
  import opened Termination
  import opened ProcessTree
  import opened KernelRuns
  import Semaphores

  ghost predicate IsReady(k: State, p: Pid) {
    On(k.queues, Ready, p)
  }

  function Place(k: State, p: Pid): nat {
    Ahead(Queue(k, Ready), p)
  }

  /** No live process has an original priority above `top`. */
  ghost predicate Bounded(k: State, top: int) {
    forall p: Pid :: p < |k.pcb| && !Free(k, p) ==> k.pcb[p].originalPriority <= top
  }

  /** The live processes of `k'` lived in `k`, with the same original priority. */
  ghost predicate Tame(k: State, k': State) {
    && |k'.pcb| == |k.pcb|
    && forall p: Pid :: p < |k.pcb| && !Free(k', p) ==>
         !Free(k, p) && k'.pcb[p].originalPriority == k.pcb[p].originalPriority
  }

  /** `p` stays ready with the same priority and, once it has reached `top`, nobody passes it. */
  ghost predicate Holds(k: State, k': State, p: Pid, top: int) {
    && IsReady(k, p) && IsReady(k', p) && p < |k.pcb| == |k'.pcb|
    && k'.pcb[p].priority == k.pcb[p].priority
    && (k.pcb[p].priority >= top ==> Place(k', p) <= Place(k, p))
  }

  lemma HoldsTrans(k: State, k1: State, k2: State, p: Pid, top: int)
    requires Holds(k, k1, p, top) && Holds(k1, k2, p, top)
    ensures Holds(k, k2, p, top)
  {
  }

  lemma TameTrans(k: State, k1: State, k2: State)
    requires Tame(k, k1) && Tame(k1, k2)
    ensures Tame(k, k2)
  {
  }

  lemma TameBounded(k: State, k': State, top: int)
    requires Tame(k, k') && Bounded(k, top)
    ensures Bounded(k', top)
  {
  }

  /** Ready queue, free list and priorities are as before. */
  lemma SameHolds(k: State, k': State, p: Pid, top: int)
    requires IsReady(k, p) && p < |k.pcb| == |k'.pcb| && k'.queues == k.queues
    requires k'.pcb[p].priority == k.pcb[p].priority
    ensures Holds(k, k', p, top)
  {
  }

  lemma SameTame(k: State, k': State)
    requires |k'.pcb| == |k.pcb| && (forall x: Pid :: Free(k', x) <==> Free(k, x))
    requires forall x: Pid :: x < |k.pcb| ==> k'.pcb[x].originalPriority == k.pcb[x].originalPriority
    ensures Tame(k, k')
  {
  }

  lemma ReadyLive(k: State, fl: set<Pid>, p: Pid)
    requires Inv(k, fl) && IsReady(k, p)
    ensures p < |k.pcb| && p !in fl && !Free(k, p) && k.pcb[p].semKey == None
  {
  }

  // ----- the operations on the ready queue

  /** Somebody of original priority at most `top` is enqueued behind whoever has reached `top`. */
  lemma EnqueueHolds(k: State, fl: set<Pid>, q: Pid, p: Pid, top: int)
    requires Inv(k, fl) && q in fl && IsReady(k, p) && k.pcb[q].originalPriority <= top
    ensures Holds(k, EnqueueProcess(k, q), p, top) && Tame(k, EnqueueProcess(k, q))
  {
    ReadyLive(k, fl, p);
    EnqueueInv(k, fl, q);
    EnqueueTame(k, q);
    EnqueuePriority(k, q, p);
    if k.pcb[p].priority >= top {
      var x := k.pcb[q].originalPriority;
      var k1 := SetProc(k, q, k.pcb[q].(priority := x));
      assert OrderOk(k1) by { PriorityInv(k, fl, q, x); }
      forall y: Pid | y in k.queues[Ready] ensures y < |k.pcb| { assert On(k.queues, Ready, y); }
      hide Inv;
      EnqueuePlace(k1, k.queues[Ready], q, p, top);
    }
  }

  lemma EnqueuePriority(k: State, q: Pid, p: Pid)
    requires p < |k.pcb| && p != q
    ensures EnqueueProcess(k, q).pcb[p] == k.pcb[p]
  {
  }

  lemma EnqueueTame(k: State, q: Pid)
    ensures Tame(k, EnqueueProcess(k, q))
  {
  }

  lemma EnqueuePlace(k: State, s: seq<Pid>, q: Pid, p: Pid, top: int)
    requires OrderOk(k) && Ready in k.queues && s == k.queues[Ready] && p in s && q < |k.pcb| && p < |k.pcb|
    requires forall x: Pid :: x in s ==> x < |k.pcb|
    requires k.pcb[q].priority <= top <= k.pcb[p].priority
    ensures Place(InsertInQueue(k, Ready, q), p) == Place(k, p)
  {
    var x := k.pcb[q].priority;
    var i := InsertIndex(k.pcb, s, x);
    forall j | 0 <= j < |s| ensures s[j] < |k.pcb| { assert s[j] in s; }
    InsertIndexFacts(k.pcb, s, x);
    var j :| 0 <= j < |s| && s[j] == p;
    if i <= j {
      StrictlyBelow(k.pcb, k.ledger.stamp, s, i, j, x);
    }
    assert s[..i][j] == p;
    AheadInsert(s, i, p, q);
  }

  /** The head of the ready queue leaves: everybody else moves up. */
  lemma RunPlace(k: State, p: Pid)
    requires Queue(k, Ready) != [] && IsReady(Run(k), p) && NoDup(Queue(k, Ready))
    ensures IsReady(k, p) && Place(Run(k), p) < Place(k, p)
  {
    var s := Queue(k, Ready);
    RunQueues(k);
    AheadMinus(s, {s[0]}, p);
  }

  lemma RunQueues(k: State)
    requires Queue(k, Ready) != []
    ensures Run(k).queues == k.queues[Ready := Minus(Queue(k, Ready), {Queue(k, Ready)[0]})]
  {
  }

  lemma RunFields(k: State, p: Pid)
    requires p < |k.pcb|
    ensures |Run(k).pcb| == |k.pcb| && Run(k).pcb[p].priority == k.pcb[p].priority
    ensures Run(k).pcb[p].originalPriority == k.pcb[p].originalPriority
  {
  }

  lemma DispatchHolds(k: State, fl: set<Pid>, p: Pid, top: int)
    requires Inv(k, fl) && IsReady(Dispatch(k), p)
    ensures Holds(k, Dispatch(k), p, top) && Tame(k, Dispatch(k))
    ensures Dispatch(k).cpu.Running? && Place(Dispatch(k), p) < Place(k, p)
  {
    if Queue(k, Ready) != [] {
      assert Dispatch(k) == Run(k) && Run(k).cpu.Running? by { RunCpu(k); }
      RunPlace(k, p);
      assert p < |k.pcb|;
      RunTame(k);
      hide Run;
      RunFields(k, p);
    }
  }

  lemma RunCpu(k: State)
    requires Queue(k, Ready) != []
    ensures Run(k).cpu.Running?
  {
  }

  lemma RunTame(k: State)
    ensures Tame(k, Run(k))
  {
  }

  lemma DispatchTame(k: State)
    ensures Tame(k, Dispatch(k))
  {
    hide Run;
    if Queue(k, Ready) != [] {
      RunTame(k);
    }
  }

  // ----- the steps of scheduler_resume

  /** Without an expired slice, a process still ready afterwards was only moved up. */
  lemma ResumeHolds(k: State, s: Context, p: Pid, top: int)
    requires Inv(k, Floating(k)) && IsReady(Resume(k, false, s), p)
    ensures var k' := Resume(k, false, s); Holds(k, k', p, top) && (k'.cpu.Running? ==> Place(k', p) < Place(k, p))
  {
    if k.current == None {
      DispatchHolds(k, {}, p, top);
    } else {
      var k' := Resume(k, false, s);
      hide AccountTime;
      assert k'.queues == k.queues;
      ReadyLive(k, Floating(k), p);
    }
  }

  lemma ResumeTame(k: State, sliceEnded: bool, s: Context)
    ensures Tame(k, Resume(k, sliceEnded, s))
  {
    hide AccountTime, Dispatch, EnqueueProcess, SaveContext, Tame;
    if k.current == None {
      DispatchTame(k);
    } else {
      var p, k1 := k.current.value, AccountTime(k, true);
      SameTame(k, k1);
      if sliceEnded {
        var k2 := SaveContext(Aging(k1), p, s);
        SameTame(k1, k2);
        TameTrans(k, k1, k2);
        EnqueueTame(k2, p);
        TameTrans(k, k2, EnqueueProcess(k2, p));
        DispatchTame(EnqueueProcess(k2, p));
        TameTrans(k, EnqueueProcess(k2, p), Dispatch(EnqueueProcess(k2, p)));
      } else {
        SameTame(k1, k1.(cpu := Resumed(s)));
        TameTrans(k, k1, k1.(cpu := Resumed(s)));
      }
    }
  }

  /** At an expiry every process that stays ready gains one, and moves up once it is at `top`. */
  lemma ExpiryAges(k: State, s: Context, p: Pid, top: int)
    requires Inv(k, Floating(k)) && k.current.Some? && Bounded(k, top)
    requires IsReady(k, p) && IsReady(Resume(k, true, s), p)
    ensures var k' := Resume(k, true, s);
            && p < |k.pcb| == |k'.pcb| && k'.pcb[p].priority == k.pcb[p].priority + 1
            && (k.pcb[p].priority >= top ==> Place(k', p) < Place(k, p))
  {
    var q := k.current.value;
    ReadyLive(k, {q}, p);
    CurrentLive(k, q);
    hide Inv, AccountTime, Aging, SaveContext, EnqueueProcess, Dispatch;
    AccountInv(k, {q}, true);
    var k1 := AccountTime(k, true);
    AgedSaved(k1, q, p, s);
    var k2 := SaveContext(Aging(k1), q, s);
    assert Inv(k2, {q}) by {
      AgingInv(k1, {q});
      SaveContextInv(Aging(k1), {q}, q, s);
    }
    hide Bounded;
    ExpiryEnd(k2, q, p, top);
  }

  lemma ExpiryEnd(k: State, q: Pid, p: Pid, top: int)
    requires Inv(k, {q}) && IsReady(k, p) && q < |k.pcb| && k.pcb[q].originalPriority <= top
    requires IsReady(Dispatch(EnqueueProcess(k, q)), p)
    ensures var k' := Dispatch(EnqueueProcess(k, q));
            && p < |k.pcb| == |k'.pcb| && k'.pcb[p].priority == k.pcb[p].priority
            && (k.pcb[p].priority >= top ==> Place(k', p) < Place(k, p))
  {
    hide Inv, EnqueueProcess, Dispatch;
    EnqueueHolds(k, {q}, q, p, top);
    EnqueueInv(k, {q}, q);
    DispatchHolds(EnqueueProcess(k, q), {q} - {q}, p, top);
  }

  lemma AgedSaved(k: State, q: Pid, p: Pid, s: Context)
    requires IsReady(k, p) && p < |k.pcb| && q < |k.pcb| && p != q
    ensures var k2 := SaveContext(Aging(k), q, s);
            && k2.queues == k.queues && |k2.pcb| == |k.pcb| && k2.pcb[p].priority == k.pcb[p].priority + 1
            && k2.pcb[q].originalPriority == k.pcb[q].originalPriority
  {
  }

  // ----- everything that happens before scheduler_resume

  lemma AccountHolds(k: State, fl: set<Pid>, kernel: bool, p: Pid, top: int)
    requires Inv(k, fl) && IsReady(k, p)
    ensures Holds(k, AccountTime(k, kernel), p, top) && Tame(k, AccountTime(k, kernel))
  {
  }

  lemma WakeHolds(k: State, fl: set<Pid>, key: Key, p: Pid, top: int)
    requires Inv(k, fl) && IsReady(k, p) && Waiters(k, key) != [] && Bounded(k, top)
    ensures var k' := EnqueueProcess(RemoveBlocked(k, key), Waiters(k, key)[0]); Holds(k, k', p, top) && Tame(k, k')
  {
    var q, k1 := Waiters(k, key)[0], RemoveBlocked(k, key);
    ReadyLive(k, fl, p);
    RemoveBlockedInv(k, fl, key);
    Semaphores.WokenKeys(k, fl, key);
    WokenReady(k, fl, key);
    hide Inv, RemoveBlocked, EnqueueProcess, Waiters;
    SameTame(k, k1);
    EnqueueHolds(k1, fl + {q}, q, p, top);
    TameTrans(k, k1, EnqueueProcess(k1, q));
  }

  lemma WokenReady(k: State, fl: set<Pid>, key: Key)
    requires Inv(k, fl) && Waiters(k, key) != []
    ensures Queue(RemoveBlocked(k, key), Ready) == Queue(k, Ready) && !IsReady(k, Waiters(k, key)[0])
    ensures forall p: Pid :: IsReady(RemoveBlocked(k, key), p) <==> IsReady(k, p)
  {
  }

  lemma UnblockHolds(k: State, fl: set<Pid>, c: Completion, p: Pid, top: int)
    requires Inv(k, fl) && IsReady(k, p) && Bounded(k, top)
    ensures Holds(k, Unblock(k, c), p, top) && Tame(k, Unblock(k, c))
  {
    ReadyLive(k, fl, p);
    hide Inv, RemoveBlocked, EnqueueProcess, Waiters;
    var s := Waiters(k, c.key);
    if s == [] {
      SameHolds(k, k, p, top);
      SameTame(k, k);
    } else {
      WakeHolds(k, fl, c.key, p, top);
      var k1 := EnqueueProcess(RemoveBlocked(k, c.key), s[0]);
      var k' := Unblock(k, c);
      SameHolds(k1, k', p, top);
      SameTame(k1, k');
      TameTrans(k, k1, k');
    }
  }

  lemma {:induction false} UnblockAllHolds(k: State, fl: set<Pid>, cs: seq<Completion>, p: Pid, top: int)
    requires Inv(k, fl) && IsReady(k, p) && Bounded(k, top)
    ensures Holds(k, UnblockAll(k, cs), p, top) && Tame(k, UnblockAll(k, cs))
    decreases |cs|
  {
    if cs == [] {
      ReadyLive(k, fl, p);
    } else {
      hide Inv, Unblock;
      var k1 := Unblock(k, cs[0]);
      UnblockHolds(k, fl, cs[0], p, top);
      UnblockInv(k, fl, cs[0]);
      TameBounded(k, k1, top);
      UnblockAllHolds(k1, fl, cs[1..], p, top);
      HoldsTrans(k, k1, UnblockAll(k, cs), p, top);
      TameTrans(k, k1, UnblockAll(k, cs));
    }
  }

  lemma VerhogenHolds(k: State, key: Key, p: Pid, top: int)
    requires Inv(k, Floating(k)) && k.current.Some? && IsReady(k, p) && Bounded(k, top)
    ensures Holds(k, DoVerhogen(k, key), p, top) && Tame(k, DoVerhogen(k, key))
  {
    ReadyLive(k, Floating(k), p);
    hide Inv, RemoveBlocked, EnqueueProcess, Waiters, Holds, Tame, Bounded;
    if Waiters(k, key) == [] {
      SameHolds(k, DoVerhogen(k, key), p, top);
      SameTame(k, DoVerhogen(k, key));
    } else {
      WakeHolds(k, Floating(k), key, p, top);
    }
  }

  lemma BlockHolds(k: State, key: Key, s: Context, p: Pid, top: int)
    requires Inv(k, Floating(k)) && k.current.Some? && IsReady(k, p)
    ensures Holds(k, BlockCurrent(k, key, s), p, top) && Tame(k, BlockCurrent(k, key, s))
  {
    var q := k.current.value;
    ReadyLive(k, Floating(k), p);
    hide Inv, AccountTime, SaveContext, InsertBlocked, Holds, Tame;
    SaveContextInv(k, {q}, q, s);
    var k1 := SaveContext(k, q, s);
    SameHolds(k, k1, p, top);
    SameTame(k, k1);
    AccountInv(k1, {q}, true);
    AccountHolds(k1, {q}, true, p, top);
    var k2, k' := AccountTime(k1, true), BlockCurrent(k, key, s);
    BlockedHolds(k2, key, q, p, top);
    HoldsTrans(k, k1, k2, p, top);
    HoldsTrans(k, k2, k', p, top);
    TameTrans(k, k1, k2);
    TameTrans(k, k2, k');
  }

  lemma BlockedHolds(k: State, key: Key, q: Pid, p: Pid, top: int)
    requires Inv(k, {q}) && IsReady(k, p)
    ensures var k' := InsertBlocked(k, key, q).(current := None); Holds(k, k', p, top) && Tame(k, k')
  {
    ReadyLive(k, {q}, p);
    Semaphores.BlockedKeys(k, {q}, key, q);
    BlockedReady(k, {q}, key, q);
    InsertBlockedInv(k, {q}, key, q);
    hide Inv, InsertBlocked;
  }

  lemma BlockedReady(k: State, fl: set<Pid>, key: Key, q: Pid)
    requires Inv(k, fl) && q in fl
    ensures Queue(InsertBlocked(k, key, q), Ready) == Queue(k, Ready)
  {
  }

  lemma PasserenHolds(k: State, key: Key, s: Context, p: Pid, top: int)
    requires Inv(k, Floating(k)) && k.current.Some? && IsReady(k, p)
    ensures Holds(k, DoPasseren(k, key, s), p, top) && Tame(k, DoPasseren(k, key, s))
  {
    ReadyLive(k, Floating(k), p);
    hide Inv, BlockCurrent;
    if Word(k, key) == 0 {
      BlockHolds(k, key, s, p, top);
    }
  }

  /** A cleared PCB is filled in and queued behind whoever has reached `top`. */
  lemma NewcomerHolds(k: State, c: Pid, start: Context, priority: int, p: Pid, top: int)
    requires Inv(k, {c}) && IsReady(k, p) && Bounded(k, top) && priority <= top && Queue(k, PcbFree) != []
    ensures var q := Queue(k, PcbFree)[0]; var k1 := AllocPcb(k);
            var k2 := SetProc(k1, q, Proc(k1, q).(ps := start, originalPriority := priority));
            && Inv(k2, {c, q}) && Holds(k, k2, p, top) && Bounded(k2, top)
            && q < |k2.pcb| && k2.pcb[q].originalPriority <= top
  {
    var q := Queue(k, PcbFree)[0];
    ReadyLive(k, {c}, p);
    AllocInv(k, {c});
    AllocReady(k, q, p);
    hide Inv, AllocPcb;
    var k1 := AllocPcb(k);
    var k2 := SetProc(k1, q, Proc(k1, q).(ps := start, originalPriority := priority));
    assert {c} + {q} == {c, q};
    AlikeInv(k1, k2, {c, q});
  }

  lemma CreateHolds(k: State, start: Context, priority: int, p: Pid, top: int)
    requires Inv(k, Floating(k)) && k.current.Some? && IsReady(k, p) && Bounded(k, top) && priority <= top
    ensures Holds(k, Create(k, start, priority), p, top) && Bounded(Create(k, start, priority), top)
  {
    ReadyLive(k, Floating(k), p);
    hide Inv, AllocPcb, EnqueueProcess, Raised, Bounded, Tame;
    if Queue(k, PcbFree) != [] {
      var q, c := Queue(k, PcbFree)[0], k.current.value;
      NewcomerHolds(k, c, start, priority, p, top);
      var k1 := AllocPcb(k);
      var k2 := SetProc(k1, q, Proc(k1, q).(ps := start, originalPriority := priority));
      EnqueueHolds(k2, {c, q}, q, p, top);
      var k3 := EnqueueProcess(k2, q);
      TameBounded(k2, k3, top);
      var k4 := InsertChild(k3, c, q);
      SameTame(k3, k4);
      TameBounded(k3, k4, top);
      SameHolds(k3, k4, p, top);
    }
  }

  lemma AllocReady(k: State, q: Pid, p: Pid)
    requires Queue(k, PcbFree) != [] && q == Queue(k, PcbFree)[0] && p != q && p < |k.pcb|
    ensures Queue(AllocPcb(k), Ready) == Queue(k, Ready) && AllocPcb(k).pcb[p] == k.pcb[p]
    ensures forall x: Pid :: IsReady(AllocPcb(k), x) <==> IsReady(k, x)
    ensures forall x: Pid :: x < |k.pcb| && x != q ==> AllocPcb(k).pcb[x] == k.pcb[x]
  {
  }

  lemma RemovedHolds(k: State, k': State, ds: seq<Pid>, p: Pid, top: int)
    requires Removed(k, k', ds) && p < |k.pcb| && IsReady(k', p) && Ready in k.queues
    ensures Holds(k, k', p, top)
  {
    AheadMinus(k.queues[Ready], ToSet(ds), p);
  }

  lemma RemovedTame(k: State, k': State, ds: seq<Pid>)
    requires Removed(k, k', ds)
    ensures Tame(k, k')
  {
  }

  lemma KillHolds(k: State, v: Pid, p: Pid, top: int)
    requires Inv(k, Floating(k)) && k.current.Some? && v < |k.pcb| && !Free(k, v)
    ensures Tame(k, KillProcess(k, v))
    ensures IsReady(KillProcess(k, v), p) && p < |k.pcb| ==> Holds(k, KillProcess(k, v), p, top)
  {
    var q := k.current.value;
    var k1 := if k.current == Some(v) then k.(current := None) else k;
    AlikeInv(k, k1, {q});
    SameTame(k, k1);
    assert Ready in k1.queues;
    hide Inv, KillTree, Tame, Holds;
    KillTreeTheorem(k1, {q}, v);
    var ds := Post(k1.children, k1.ledger.rank, v);
    RemovedTame(k1, KillTree(k1, v), ds);
    TameTrans(k, k1, KillTree(k1, v));
    if IsReady(KillTree(k1, v), p) && p < |k.pcb| {
      RemovedHolds(k1, KillTree(k1, v), ds, p, top);
      HoldsFromSame(k, k1, KillTree(k1, v), p, top);
    }
  }

  lemma HoldsFromSame(k: State, k1: State, k2: State, p: Pid, top: int)
    requires k1 == k.(current := k1.current) && Holds(k1, k2, p, top)
    ensures Holds(k, k2, p, top)
  {
  }

  // ----- steps

  lemma TerminateHolds(k: State, pid: Option<Pid>, p: Pid, top: int)
    requires Inv(k, Floating(k)) && k.current.Some? && (pid.Some? ==> pid.value < |k.pcb|)
    requires IsReady(k, p) && p < |k.pcb| && Bounded(k, top)
    ensures Bounded(Terminate(k, Victim(k, pid)), top)
    ensures IsReady(Terminate(k, Victim(k, pid)), p) ==> Holds(k, Terminate(k, Victim(k, pid)), p, top)
  {
    var v := Victim(k, pid);
    CurrentLive(k, k.current.value);
    hide Inv, KillProcess, Tame, Bounded, Holds;
    SameHolds(k, k, p, top);
    if v !in Queue(k, PcbFree) {
      KillHolds(k, v, p, top);
      TameBounded(k, KillProcess(k, v), top);
    }
  }

  lemma PassUpHolds(k: State, kind: nat, oldArea: nat, newArea: nat, p: Pid, top: int)
    requires Inv(k, Floating(k)) && k.current.Some? && IsReady(k, p) && p < |k.pcb| && Bounded(k, top)
    ensures var k' := DoSpecPassUp(k, k.current.value, kind, oldArea, newArea);
            Bounded(k', top) && (IsReady(k', p) ==> Holds(k, k', p, top))
  {
    var q := k.current.value;
    CurrentLive(k, q);
    hide Inv, KillProcess, RegisterPassUp, Tame, Bounded, Holds;
    KillHolds(k, q, p, top);
    TameBounded(k, KillProcess(k, q), top);
    var k' := RegisterPassUp(k, q, kind, oldArea, newArea);
    SameHolds(k, k', p, top);
    SameTame(k, k');
    TameBounded(k, k', top);
  }

  lemma ServedHolds(k: State, call: Call, s: Context, p: Pid, top: int)
    requires Inv(k, Floating(k)) && k.current.Some? && IsReady(k, p) && Bounded(k, top)
    requires call.TerminateProcess? && call.pid.Some? ==> call.pid.value < |k.pcb|
    requires call.CreateProcess? ==> call.priority <= top
    ensures Bounded(Served(k, call, s), top)
    ensures IsReady(Served(k, call, s), p) ==> Holds(k, Served(k, call, s), p, top)
  {
    ReadyLive(k, Floating(k), p);
    hide Inv, AccountTime, Create, DoVerhogen, DoPasseren, BlockCurrent, Terminate, DoSpecPassUp;
    hide Tame, Bounded, Holds;
    SameHolds(k, k, p, top);
    match call {
      case GetCpuTime =>
        AccountHolds(k, Floating(k), true, p, top);
        TameBounded(k, AccountTime(k, true), top);
      case CreateProcess(start, priority) =>
        CreateHolds(k, start, priority, p, top);
      case TerminateProcess(pid) => TerminateHolds(k, pid, p, top);
      case Verhogen(key) =>
        VerhogenHolds(k, key, p, top);
        TameBounded(k, DoVerhogen(k, key), top);
      case Passeren(key) =>
        PasserenHolds(k, key, s, p, top);
        TameBounded(k, DoPasseren(k, key, s), top);
      case WaitIo(dev, reception) =>
        BlockHolds(k, DeviceKey(dev, reception), s, p, top);
        TameBounded(k, BlockCurrent(k, DeviceKey(dev, reception), s), top);
      case SpecPassUp(kind, oldArea, newArea) => PassUpHolds(k, kind, oldArea, newArea, p, top);
      case GetPid =>
      case OtherCall =>
    }
  }

  /** The slice of a running process ends with this step. */
  predicate Expiry(k: State, e: Event) {
    e.entry.Interrupt? && e.entry.timer && k.current.Some?
  }

  /** The step creates nobody of original priority above `top`. */
  predicate Modest(e: Event, top: int) {
    e.entry.Syscall? && e.entry.call.CreateProcess? ==> e.entry.call.priority <= top
  }

  /** What one step does to a process that is ready before and after it. */
  ghost predicate Waits(k: State, k': State, expiry: bool, p: Pid, top: int) {
    && p < |k.pcb| == |k'.pcb|
    && k'.pcb[p].priority == k.pcb[p].priority + (if expiry then 1 else 0)
    && (k.pcb[p].priority >= top ==> Place(k', p) + (if k'.cpu.Running? then 1 else 0) <= Place(k, p))
    && (expiry ==> k'.cpu.Running?)
  }

  /** A prefix that holds `p`, and then a `scheduler_resume` without expiry. */
  lemma ThenResume(k: State, k1: State, s: Context, p: Pid, top: int)
    requires Inv(k1, Floating(k1)) && IsReady(Resume(k1, false, s), p)
    requires IsReady(k1, p) ==> Holds(k, k1, p, top)
    ensures Waits(k, Resume(k1, false, s), false, p, top)
  {
    hide Inv, Resume;
    ResumeHolds(k1, s, p, top);
  }

  lemma ExpiryRuns(k: State, s: Context)
    requires k.current.Some?
    ensures Resume(k, true, s).cpu.Running?
  {
  }

  lemma InterruptWaits(k: State, cs: seq<Completion>, timer: bool, s: Context, p: Pid, top: int)
    requires Inv(k, Floating(k)) && IsReady(k, p) && Bounded(k, top)
    requires IsReady(Resume(UnblockAll(k, cs), timer, s), p)
    ensures var k' := Resume(UnblockAll(k, cs), timer, s);
            Bounded(k', top) && Waits(k, k', timer && k.current.Some?, p, top)
  {
    hide Inv, Resume, UnblockAll, Tame, Bounded;
    var k1 := UnblockAll(k, cs);
    UnblockAllInv(k, Floating(k), cs);
    UnblockAllHolds(k, Floating(k), cs, p, top);
    TameBounded(k, k1, top);
    ResumeTame(k1, timer, s);
    TameBounded(k1, Resume(k1, timer, s), top);
    if timer && k.current.Some? {
      ExpiryAges(k1, s, p, top);
      ExpiryRuns(k1, s);
    } else if timer {
      IdleTimer(k1, s);
      ThenResume(k, k1, s, p, top);
    } else {
      ThenResume(k, k1, s, p, top);
    }
  }

  /** Without a running process the timer makes no difference. */
  lemma IdleTimer(k: State, s: Context)
    requires k.current == None
    ensures Resume(k, true, s) == Resume(k, false, s)
  {
  }

  lemma ExceptionWaits(k: State, kind: nat, s: Context, p: Pid, top: int)
    requires Inv(k, Floating(k)) && k.current.Some? && IsReady(k, p) && Bounded(k, top)
    requires IsReady(HandleException(k, kind, s), p)
    ensures Bounded(HandleException(k, kind, s), top) && Waits(k, HandleException(k, kind, s), false, p, top)
  {
    hide Inv, AccountTime, KillProcess, Resume, Tame, Bounded;
    var q := k.current.value;
    AccountInv(k, {q}, false);
    AccountHolds(k, {q}, false, p, top);
    var k1 := AccountTime(k, false);
    TameBounded(k, k1, top);
    if Area(Proc(k1, q).newAreas, kind) != 0 {
      var k' := HandleException(k, kind, s);
      SameTame(k1, k');
      TameBounded(k1, k', top);
    } else {
      CurrentLive(k1, q);
      KillHolds(k1, q, p, top);
      KillCurrentInv(k1);
      var k2 := KillProcess(k1, q);
      TameBounded(k1, k2, top);
      ResumeTame(k2, false, ZERO_CONTEXT);
      TameBounded(k2, Resume(k2, false, ZERO_CONTEXT), top);
      if IsReady(k2, p) {
        HoldsTrans(k, k1, k2, p, top);
      }
      ThenResume(k, k2, ZERO_CONTEXT, p, top);
    }
  }

  lemma SyscallWaits(k: State, call: Call, s: Context, p: Pid, top: int)
    requires Inv(k, Floating(k)) && k.current.Some? && IsReady(k, p) && Bounded(k, top) && !call.OtherCall?
    requires call.TerminateProcess? && call.pid.Some? ==>
               call.pid.value < |k.pcb| && !ProperAncestor(k.pcb, call.pid.value, k.current.value)
    requires call.CreateProcess? ==> call.priority <= top
    requires IsReady(DoSyscall(k, call, s), p)
    ensures Bounded(DoSyscall(k, call, s), top) && Waits(k, DoSyscall(k, call, s), false, p, top)
  {
    hide Inv, Served, Resume, Tame, Bounded;
    var k1 := Served(k, call, s);
    ServedInv(k, call, s);
    ServedHolds(k, call, s, p, top);
    ResumeTame(k1, false, Answer(k, call, s));
    TameBounded(k1, DoSyscall(k, call, s), top);
    ThenResume(k, k1, Answer(k, call, s), p, top);
  }

  lemma WaitsAfter(k: State, k1: State, k': State, expiry: bool, p: Pid, top: int)
    requires Holds(k, k1, p, top) && Waits(k1, k', expiry, p, top)
    ensures Waits(k, k', expiry, p, top)
  {
  }

  /** One step: a process that stays ready ages exactly at expiries and, at `top`, only moves up. */
  lemma StepWaits(target: Target, k: State, e: Event, p: Pid, top: int)
    requires KernelInv(k) && Enabled(k, e) && Bounded(k, top) && Modest(e, top)
    requires IsReady(k, p) && IsReady(Step(target, k, e), p)
    ensures Bounded(Step(target, k, e), top) && Waits(k, Step(target, k, e), Expiry(k, e), p, top)
  {
    hide Inv, AccountTime, Resume, DoSyscall, HandleException, UnblockAll, Bounded, Tame, Holds, Waits;
    EntryHolds(k, e.delays, p, top);
    var k0 := k.(delays := e.delays);
    var k1, k' := AccountTime(k0, false), Step(target, k, e);
    match e.entry {
      case Syscall(call) =>
        var s := SyscallContext(target, e.saved);
        if call.OtherCall? {
          assert DoSyscall(k1, call, s) == HandleException(k1, 0, s) by { OtherIsException(k1, s); }
          ExceptionWaits(k1, 0, s, p, top);
        } else {
          if call.TerminateProcess? && call.pid.Some? {
            AncestorFrame(k.pcb, k1.pcb, call.pid.value, k.current.value);
          }
          SyscallWaits(k1, call, s, p, top);
        }
        WaitsAfter(k, k1, k', false, p, top);
      case Breakpoint =>
        ResumeTame(k1, false, e.saved);
        TameBounded(k1, k', top);
        SelfHolds(k1, p, top);
        ThenResume(k1, k1, e.saved, p, top);
        WaitsAfter(k, k1, k', false, p, top);
      case Trap(kind) =>
        ExceptionWaits(k0, kind, e.saved, p, top);
        WaitsAfter(k, k0, k', false, p, top);
      case Interrupt(timer, _, _, _, _, _) =>
        InterruptWaits(k1, AllDone(e.entry), timer, InterruptContext(target, e.saved), p, top);
        WaitsAfter(k, k1, k', Expiry(k, e), p, top);
    }
  }

  /** Entering the kernel and charging user time moves nobody. */
  lemma EntryHolds(k: State, delays: seq<nat>, p: Pid, top: int)
    requires KernelInv(k) && IsReady(k, p) && Bounded(k, top)
    ensures var k0 := k.(delays := delays); var k1 := AccountTime(k0, false);
            && Inv(k0, Floating(k)) && Inv(k1, Floating(k)) && Bounded(k0, top) && Bounded(k1, top)
            && Holds(k, k0, p, top) && Holds(k, k1, p, top) && IsReady(k0, p) && IsReady(k1, p) && p < |k1.pcb|
  {
    ReadyLive(k, Floating(k), p);
    hide Inv, AccountTime;
    var k0 := k.(delays := delays);
    AlikeInv(k, k0, Floating(k));
    AccountInv(k0, Floating(k), false);
    AccountHolds(k0, Floating(k), false, p, top);
    TameBounded(k0, AccountTime(k0, false), top);
  }

  lemma SelfHolds(k: State, p: Pid, top: int)
    requires p < |k.pcb|
    ensures IsReady(k, p) ==> Holds(k, k, p, top)
  {
  }

  lemma OtherIsException(k: State, s: Context)
    requires k.current.Some?
    ensures DoSyscall(k, OtherCall, s) == HandleException(k, 0, s)
  {
  }

  // ----- runs

  function Expiries(target: Target, k: State, es: seq<Event>): nat
    decreases |es|
  {
    if es == [] then 0 else (if Expiry(k, es[0]) then 1 else 0) + Expiries(target, Step(target, k, es[0]), es[1..])
  }

  function Dispatches(target: Target, k: State, es: seq<Event>): nat
    decreases |es|
  {
    if es == [] then 0
    else
      var k' := Step(target, k, es[0]);
      (if k'.cpu.Running? then 1 else 0) + Dispatches(target, k', es[1..])
  }

  /** `p` is ready, neither dispatched nor killed, from the first state of the run to the last. */
  ghost predicate ReadyThroughout(target: Target, k: State, es: seq<Event>, p: Pid)
    decreases |es|
  {
    IsReady(k, p) && (es == [] || ReadyThroughout(target, Step(target, k, es[0]), es[1..], p))
  }

  predicate ModestRun(es: seq<Event>, top: int) {
    forall i :: 0 <= i < |es| ==> Modest(es[i], top)
  }

  /** The most slice expiries a process can still live through in the ready queue. */
  function Patience(k: State, p: Pid, top: int): int {
    if Proc(k, p).priority < top then top - Proc(k, p).priority + |k.pcb| - 1 else Place(k, p)
  }

  lemma PlaceBelow(k: State, fl: set<Pid>, p: Pid)
    requires Inv(k, fl) && IsReady(k, p)
    ensures Place(k, p) <= |k.pcb| - 1
  {
    forall x: Pid | x in k.queues[Ready] ensures x in Below(|k.pcb|) { assert On(k.queues, Ready, x); }
    PigeonHole(k.queues[Ready], Below(|k.pcb|));
  }

  lemma ReadyFacts(k: State, p: Pid)
    requires KernelInv(k) && IsReady(k, p)
    ensures p < |k.pcb| && Place(k, p) <= |k.pcb| - 1
  {
    ReadyLive(k, Floating(k), p);
    PlaceBelow(k, Floating(k), p);
  }

  lemma PatienceDrops(k: State, k': State, expiry: bool, p: Pid, top: int)
    requires KernelInv(k') && IsReady(k', p) && Waits(k, k', expiry, p, top)
    ensures Patience(k', p, top) + (if expiry then 1 else 0) <= Patience(k, p, top)
  {
    PlaceBelow(k', Floating(k'), p);
    hide Inv;
  }

  /**
   Bounded waiting.  While a process stays ready its priority is what it was plus
   the slice expiries it has seen; once at `top` it sees no more dispatches than
   there are processes ahead of it; and in all it sees at most
   max(0, top - priority) + N - 1 slice expiries before it runs.
   */
  lemma {:induction false} BoundedWaiting(target: Target, k: State, es: seq<Event>, p: Pid, top: int)
    requires KernelInv(k) && EnabledRun(target, k, es) && Bounded(k, top) && ModestRun(es, top)
    requires ReadyThroughout(target, k, es, p)
    ensures p < |k.pcb| && var k' := RunSteps(target, k, es);
            && p < |k'.pcb| && k'.pcb[p].priority == k.pcb[p].priority + Expiries(target, k, es)
            && (k.pcb[p].priority >= top ==> Dispatches(target, k, es) <= Place(k, p))
    ensures Expiries(target, k, es) <= Patience(k, p, top)
    ensures Patience(k, p, top) <= (if k.pcb[p].priority < top then top - k.pcb[p].priority else 0) + |k.pcb| - 1
    decreases |es|
  {
    hide KernelInv, Step, Bounded;
    ReadyFacts(k, p);
    if es != [] {
      var k1 := Step(target, k, es[0]);
      StepInv(target, k, es[0]);
      assert IsReady(k1, p);
      StepWaits(target, k, es[0], p, top);
      PatienceDrops(k, k1, Expiry(k, es[0]), p, top);
      assert ModestRun(es[1..], top);
      BoundedWaiting(target, k1, es[1..], p, top);
    }
  }
}
