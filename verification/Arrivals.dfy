/**
 The priority with which a process enters the ready queue, and the bound on its wait
 in terms of the priority it was created with.
 */
module Arrivals {
  import opened Sequences
  import opened KernelState
  import opened KernelSteps
  import opened Invariants
  import opened ActiveSemaphores
  import opened Termination
  import opened ProcessTree
  import opened KernelRuns
  import opened Waiting
  import Contexts
  import Semaphores
  import Wakeups

  /** If `p` is ready, its priority is `a` above the original one. */
  ghost predicate Above(k: State, p: Pid, a: int) {
    IsReady(k, p) ==> p < |k.pcb| && k.pcb[p].priority == k.pcb[p].originalPriority + a
  }

  /** Nobody joins the ready queue and the priorities of `p` are as they were. */
  lemma AboveFrame(k: State, k': State, p: Pid, a: int)
    requires Above(k, p, a) && |k'.pcb| == |k.pcb| && (IsReady(k', p) ==> IsReady(k, p))
    requires p < |k.pcb| ==>
               k'.pcb[p].priority == k.pcb[p].priority && k'.pcb[p].originalPriority == k.pcb[p].originalPriority
    ensures Above(k', p, a)
  {
  }

  // ----- the ready queue

  /** A process is enqueued at its original priority, and changes nothing for the others. */
  lemma EnqueueAbove(k: State, q: Pid, p: Pid, a: int)
    requires Above(k, p, a) && q < |k.pcb| && (q == p ==> a == 0)
    ensures Above(EnqueueProcess(k, q), p, a)
  {
    var k1 := SetProc(k, q, Proc(k, q).(priority := Proc(k, q).originalPriority));
    var s := Queue(k1, Ready);
    InsertAtFacts(s, InsertIndex(k1.pcb, s, Proc(k1, q).priority), q);
  }

  lemma DispatchAbove(k: State, p: Pid, a: int)
    requires Above(k, p, a)
    ensures Above(Dispatch(k), p, a)
  {
    if Queue(k, Ready) != [] {
      RunQueues(k);
      if p < |k.pcb| {
        RunFields(k, p);
      }
    }
    hide Run;
  }

  lemma ResumeAbove(k: State, s: Context, p: Pid)
    requires Above(k, p, 0)
    ensures Above(Resume(k, false, s), p, 0)
  {
    hide AccountTime, Dispatch;
    if k.current == None {
      DispatchAbove(k, p, 0);
    } else {
      AboveFrame(k, Resume(k, false, s), p, 0);
    }
  }

  /** At the end of a slice the ready processes age, and the preempted one joins them as it is. */
  lemma ExpiryAbove(k: State, s: Context, p: Pid, q: Pid)
    requires Above(k, p, 0) && k.current == Some(q) && !IsReady(k, q) && q < |k.pcb|
    ensures Above(Resume(k, true, s), p, if q == p then 0 else 1)
  {
    hide AccountTime, Dispatch, EnqueueProcess;
    var a := if q == p then 0 else 1;
    var k1 := AccountTime(k, true);
    var k2 := SaveContext(Aging(k1), q, s);
    assert Above(k2, p, a);
    EnqueueAbove(k2, q, p, a);
    DispatchAbove(EnqueueProcess(k2, q), p, a);
  }

  // ----- the handlers

  lemma WakeAbove(k: State, fl: set<Pid>, key: Key, p: Pid)
    requires Inv(k, fl) && Waiters(k, key) != [] && Above(k, p, 0)
    ensures Above(EnqueueProcess(RemoveBlocked(k, key), Waiters(k, key)[0]), p, 0)
  {
    hide Inv, RemoveBlocked, EnqueueProcess, Waiters;
    Semaphores.WokenKeys(k, fl, key);
    WokenReady(k, fl, key);
    var k1 := RemoveBlocked(k, key);
    AboveFrame(k, k1, p, 0);
    EnqueueAbove(k1, Waiters(k, key)[0], p, 0);
  }

  lemma UnblockAbove(k: State, fl: set<Pid>, c: Completion, p: Pid)
    requires Inv(k, fl) && Above(k, p, 0)
    ensures Above(Unblock(k, c), p, 0)
  {
    hide Inv, RemoveBlocked, EnqueueProcess, Waiters, Above;
    if Waiters(k, c.key) != [] {
      WakeAbove(k, fl, c.key, p);
      SaveAbove(EnqueueProcess(RemoveBlocked(k, c.key), Waiters(k, c.key)[0]), Unblock(k, c), p, 0);
    }
  }

  /** Only contexts, keys or accounts differ. */
  lemma SaveAbove(k: State, k': State, p: Pid, a: int)
    requires Above(k, p, a) && k'.queues == k.queues && |k'.pcb| == |k.pcb|
    requires forall x: Pid :: x < |k.pcb| ==>
               k'.pcb[x].priority == k.pcb[x].priority && k'.pcb[x].originalPriority == k.pcb[x].originalPriority
    ensures Above(k', p, a)
  {
  }

  lemma {:induction false} UnblockAllAbove(k: State, fl: set<Pid>, cs: seq<Completion>, p: Pid)
    requires Inv(k, fl) && Above(k, p, 0)
    ensures Above(UnblockAll(k, cs), p, 0)
    decreases |cs|
  {
    hide Inv, Unblock, Above;
    if cs != [] {
      UnblockAbove(k, fl, cs[0], p);
      UnblockInv(k, fl, cs[0]);
      UnblockAllAbove(Unblock(k, cs[0]), fl, cs[1..], p);
    }
  }

  lemma VerhogenAbove(k: State, key: Key, p: Pid)
    requires Inv(k, Floating(k)) && k.current.Some? && Above(k, p, 0)
    ensures Above(DoVerhogen(k, key), p, 0)
  {
    hide Inv, RemoveBlocked, EnqueueProcess, Waiters, Above;
    if Waiters(k, key) == [] {
      SaveAbove(k, DoVerhogen(k, key), p, 0);
    } else {
      WakeAbove(k, Floating(k), key, p);
    }
  }

  lemma BlockAbove(k: State, key: Key, s: Context, p: Pid)
    requires Inv(k, Floating(k)) && k.current.Some? && Above(k, p, 0)
    ensures Above(BlockCurrent(k, key, s), p, 0)
  {
    hide Inv, AccountTime, SaveContext, InsertBlocked, Above;
    var q := k.current.value;
    var k1 := SaveContext(k, q, s);
    var k2 := AccountTime(k1, true);
    SaveContextInv(k, {q}, q, s);
    AccountInv(k1, {q}, true);
    SaveAbove(k, k2, p, 0);
    InsertAbove(k2, key, q, p);
  }

  lemma InsertAbove(k: State, key: Key, q: Pid, p: Pid)
    requires Inv(k, {q}) && Above(k, p, 0)
    ensures Above(InsertBlocked(k, key, q).(current := None), p, 0)
  {
    CurrentLive(k, q);
    Semaphores.BlockedKeys(k, {q}, key, q);
    BlockedReady(k, {q}, key, q);
    InsertBlockedInv(k, {q}, key, q);
    hide Inv, InsertBlocked;
  }

  lemma CreateAbove(k: State, start: Context, priority: int, p: Pid)
    requires Inv(k, Floating(k)) && k.current.Some? && Above(k, p, 0)
    ensures Above(Create(k, start, priority), p, 0)
  {
    if Queue(k, PcbFree) != [] {
      var q, c := Queue(k, PcbFree)[0], k.current.value;
      AllocAbove(k, q, p);
      hide Inv, AllocPcb, EnqueueProcess, Raised;
      var k1 := AllocPcb(k);
      var k2 := SetProc(k1, q, Proc(k1, q).(ps := start, originalPriority := priority));
      assert Above(k2, p, 0);
      EnqueueAbove(k2, q, p, 0);
      SaveAbove(EnqueueProcess(k2, q), Create(k, start, priority), p, 0);
    }
  }

  lemma AllocAbove(k: State, q: Pid, p: Pid)
    requires Inv(k, Floating(k)) && Queue(k, PcbFree) != [] && q == Queue(k, PcbFree)[0] && Above(k, p, 0)
    ensures q < |k.pcb| && Above(AllocPcb(k), p, 0) && !IsReady(AllocPcb(k), q)
  {
    assert On(k.queues, PcbFree, q) && !On(k.queues, Ready, q);
  }

  lemma KillAbove(k: State, v: Pid, p: Pid)
    requires Inv(k, Floating(k)) && k.current.Some? && v < |k.pcb| && !Free(k, v) && Above(k, p, 0)
    ensures Above(KillProcess(k, v), p, 0)
  {
    var q := k.current.value;
    var k1 := if k.current == Some(v) then k.(current := None) else k;
    AlikeInv(k, k1, {q});
    assert Ready in k1.queues;
    hide Inv, KillTree, Removed, Above;
    SaveAbove(k, k1, p, 0);
    KillTreeTheorem(k1, {q}, v);
    RemovedAbove(k1, KillTree(k1, v), Post(k1.children, k1.ledger.rank, v), p);
  }

  lemma RemovedAbove(k: State, k': State, ds: seq<Pid>, p: Pid)
    requires Removed(k, k', ds) && Ready in k.queues && Above(k, p, 0)
    ensures Above(k', p, 0)
  {
  }

  lemma PasserenAbove(k: State, key: Key, s: Context, p: Pid)
    requires Inv(k, Floating(k)) && k.current.Some? && Above(k, p, 0)
    ensures Above(DoPasseren(k, key, s), p, 0)
  {
    hide Inv, BlockCurrent, Above;
    if Word(k, key) == 0 {
      BlockAbove(k, key, s, p);
    } else {
      SaveAbove(k, DoPasseren(k, key, s), p, 0);
    }
  }

  lemma TerminateAbove(k: State, pid: Option<Pid>, p: Pid)
    requires Inv(k, Floating(k)) && k.current.Some? && (pid.Some? ==> pid.value < |k.pcb|) && Above(k, p, 0)
    ensures Above(Terminate(k, Victim(k, pid)), p, 0)
  {
    var v := Victim(k, pid);
    CurrentLive(k, k.current.value);
    hide Inv, KillProcess, Above;
    if v !in Queue(k, PcbFree) {
      KillAbove(k, v, p);
    }
  }

  lemma PassUpAbove(k: State, kind: nat, oldArea: nat, newArea: nat, p: Pid)
    requires Inv(k, Floating(k)) && k.current.Some? && Above(k, p, 0)
    ensures Above(DoSpecPassUp(k, k.current.value, kind, oldArea, newArea), p, 0)
  {
    CurrentLive(k, k.current.value);
    hide Inv, KillProcess, RegisterPassUp, Above;
    KillAbove(k, k.current.value, p);
    SaveAbove(k, RegisterPassUp(k, k.current.value, kind, oldArea, newArea), p, 0);
  }

  lemma ServedAbove(k: State, call: Call, s: Context, p: Pid)
    requires Inv(k, Floating(k)) && k.current.Some? && Above(k, p, 0)
    requires call.TerminateProcess? && call.pid.Some? ==> call.pid.value < |k.pcb|
    ensures Above(Served(k, call, s), p, 0)
  {
    hide Inv, AccountTime, Create, DoVerhogen, DoPasseren, BlockCurrent, Terminate, DoSpecPassUp, Above;
    match call {
      case GetCpuTime => SaveAbove(k, AccountTime(k, true), p, 0);
      case CreateProcess(start, priority) => CreateAbove(k, start, priority, p);
      case TerminateProcess(pid) => TerminateAbove(k, pid, p);
      case Verhogen(key) => VerhogenAbove(k, key, p);
      case Passeren(key) => PasserenAbove(k, key, s, p);
      case WaitIo(dev, reception) => BlockAbove(k, DeviceKey(dev, reception), s, p);
      case SpecPassUp(kind, oldArea, newArea) => PassUpAbove(k, kind, oldArea, newArea, p);
      case GetPid =>
      case OtherCall =>
    }
  }

  lemma ExceptionAbove(k: State, kind: nat, s: Context, p: Pid)
    requires Inv(k, Floating(k)) && k.current.Some? && Above(k, p, 0)
    ensures Above(HandleException(k, kind, s), p, 0)
  {
    hide Inv, AccountTime, KillProcess, Resume, Above;
    var q := k.current.value;
    AccountInv(k, {q}, false);
    var k1 := AccountTime(k, false);
    SaveAbove(k, k1, p, 0);
    if Area(Proc(k1, q).newAreas, kind) != 0 {
      SaveAbove(k1, HandleException(k, kind, s), p, 0);
    } else {
      CurrentLive(k1, q);
      KillAbove(k1, q, p);
      ResumeAbove(KillProcess(k1, q), ZERO_CONTEXT, p);
    }
  }

  lemma InterruptAbove(k: State, cs: seq<Completion>, timer: bool, s: Context, p: Pid)
    requires Inv(k, Floating(k)) && Above(k, p, 0)
    ensures var aged := timer && k.current.Some? && k.current != Some(p);
            Above(Resume(UnblockAll(k, cs), timer, s), p, if aged then 1 else 0)
  {
    UnblockAllInv(k, Floating(k), cs);
    var k1 := UnblockAll(k, cs);
    if k.current.Some? {
      assert k.current.value in Floating(k);
    }
    assert k1.current.Some? ==> k1.current.value < |k1.pcb| && !IsReady(k1, k1.current.value);
    hide Inv, UnblockAll, Resume, Above;
    UnblockAllAbove(k, Floating(k), cs, p);
    if timer && k.current.Some? {
      ExpiryAbove(k1, s, p, k.current.value);
    } else {
      if timer {
        IdleTimer(k1, s);
      }
      ResumeAbove(k1, s, p);
    }
  }

  // ----- steps and waits

  /**
   A process that a step puts on the ready queue is there at its original priority,
   plus one if the step ends the slice of another process.
   */
  lemma StepArrives(target: Target, k: State, e: Event, p: Pid)
    requires KernelInv(k) && Enabled(k, e) && !IsReady(k, p) && IsReady(Step(target, k, e), p)
    ensures var k' := Step(target, k, e);
            && p < |k'.pcb|
            && k'.pcb[p].priority
               == k'.pcb[p].originalPriority + (if Expiry(k, e) && k.current != Some(p) then 1 else 0)
  {
    StepInv(target, k, e);
    ReadyLive(Step(target, k, e), Floating(Step(target, k, e)), p);
    hide KernelInv, Step;
    StepAbove(target, k, e, p);
  }

  lemma StepAbove(target: Target, k: State, e: Event, p: Pid)
    requires KernelInv(k) && Enabled(k, e) && Above(k, p, 0)
    ensures Above(Step(target, k, e), p, if Expiry(k, e) && k.current != Some(p) then 1 else 0)
  {
    EntryAbove(k, e.delays, p);
    hide Inv, KernelInv, AccountTime, Resume, DoSyscall, HandleException, UnblockAll, AllDone, Above, AllAwaited;
    var k0 := k.(delays := e.delays);
    var k1 := AccountTime(k0, false);
    match e.entry {
      case Syscall(call) =>
        SyscallAbove(k1, call, SyscallContext(target, e.saved), p);
      case Breakpoint =>
        ResumeAbove(k1, e.saved, p);
      case Trap(kind) =>
        ExceptionAbove(k0, kind, e.saved, p);
      case Interrupt(timer, _, _, _, _, _) =>
        InterruptAbove(k1, AllDone(e.entry), timer, InterruptContext(target, e.saved), p);
    }
  }

  lemma EntryAbove(k: State, delays: seq<nat>, p: Pid)
    requires KernelInv(k) && Above(k, p, 0)
    ensures var k0 := k.(delays := delays); var k1 := AccountTime(k0, false);
            Inv(k0, Floating(k)) && Inv(k1, Floating(k)) && Above(k0, p, 0) && Above(k1, p, 0)
  {
    hide Inv, AccountTime;
    AlikeInv(k, k.(delays := delays), Floating(k));
    AccountInv(k.(delays := delays), Floating(k), false);
  }

  lemma SyscallAbove(k: State, call: Call, s: Context, p: Pid)
    requires Inv(k, Floating(k)) && k.current.Some? && Above(k, p, 0)
    requires call.TerminateProcess? && call.pid.Some? ==> call.pid.value < |k.pcb|
    ensures Above(DoSyscall(k, call, s), p, 0)
  {
    hide Inv, Resume, Served, HandleException, Above;
    if call.OtherCall? {
      ExceptionAbove(k, 0, s, p);
    } else {
      ServedAbove(k, call, s, p);
      ResumeAbove(Served(k, call, s), Answer(k, call, s), p);
    }
  }

  /**
   From the step `e0` that puts `p` on the ready queue to the end of a run over which
   it stays there: its priority is the original one, plus one if it was aged on arrival,
   plus the slice expiries since; and these are at most max(0, top - original) + N - 1
   if no original priority exceeds `top`.
   */
  lemma WaitFromArrival(target: Target, k: State, e0: Event, es: seq<Event>, p: Pid, top: int)
    requires KernelInv(k) && Enabled(k, e0) && !IsReady(k, p)
    requires var k0 := Step(target, k, e0);
             && EnabledRun(target, k0, es) && ReadyThroughout(target, k0, es, p)
             && Bounded(k0, top) && ModestRun(es, top)
    ensures var k0 := Step(target, k, e0); var k' := RunSteps(target, k0, es);
            && p < |k0.pcb| && p < |k'.pcb| && var original := k0.pcb[p].originalPriority;
               && k'.pcb[p].priority
                  == original + (if Expiry(k, e0) && k.current != Some(p) then 1 else 0) + Expiries(target, k0, es)
               && Expiries(target, k0, es) <= (if original < top then top - original else 0) + |k0.pcb| - 1
  {
    hide KernelInv, Step, Enabled, Bounded, EnabledRun, RunSteps, Patience;
    StepInv(target, k, e0);
    StepArrives(target, k, e0, p);
    BoundedWaiting(target, Step(target, k, e0), es, p, top);
  }
}
