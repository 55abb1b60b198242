/**
 The invariant over whole runs: every enabled step keeps it, hence every run does.
 */
module KernelRuns {
  import opened Sequences
  import opened KernelState
  import opened KernelSteps
  import opened Invariants
  import opened ActiveSemaphores
  import opened Termination
  import opened ProcessTree

  /** The PCBs on no list between two steps: the running process. */
  function Floating(k: State): set<Pid> {
    match k.current
    case None => {}
    case Some(p) => {p}
  }

  /** What holds whenever the kernel is left. */
  ghost predicate KernelInv(k: State) {
    Inv(k, Floating(k)) && (k.current == None ==> Queue(k, Ready) == [])
  }

  // ----- the parts of a step

  lemma AccountInv(k: State, fl: set<Pid>, kernel: bool)
    requires Inv(k, fl)
    ensures Inv(AccountTime(k, kernel), fl)
  {
    hide AccountTime, Inv;
    AlikeInv(k, AccountTime(k, kernel), fl);
  }

  lemma SaveContextInv(k: State, fl: set<Pid>, p: Pid, s: Context)
    requires Inv(k, fl)
    ensures Inv(SaveContext(k, p, s), fl)
  {
    hide SaveContext, Inv;
    AlikeInv(k, SaveContext(k, p, s), fl);
  }

  lemma RunInv(k: State)
    requires Inv(k, {}) && Queue(k, Ready) != []
    ensures KernelInv(Run(k)) && Run(k).current == Some(Queue(k, Ready)[0])
  {
    var p := Queue(k, Ready)[0];
    assert On(k.queues, Ready, p);
    TakeReadyInv(k, {}, p);
    var k1 := RemoveFromQueue(k, Ready, p);
    RunAlike(k, k1, p);
    assert {} + {p} == {p};
    AlikeInv(k1, Run(k), {p});
  }

  lemma RunAlike(k: State, k1: State, p: Pid)
    requires Queue(k, Ready) != [] && p == Queue(k, Ready)[0] && k1 == RemoveFromQueue(k, Ready, p)
    ensures Alike(k1, Run(k)) && Run(k).current == Some(p)
  {
  }

  lemma DispatchInv(k: State)
    requires Inv(k, {}) && (k.current == None || Queue(k, Ready) != [])
    ensures KernelInv(Dispatch(k))
  {
    if Queue(k, Ready) == [] {
      AlikeInv(k, Dispatch(k), {});
    } else {
      RunInv(k);
    }
  }

  lemma ExpireInv(k: State, p: Pid, s: Context)
    requires Inv(k, {p}) && k.current == Some(p)
    ensures var k' := EnqueueProcess(SaveContext(Aging(k), p, s), p);
            Inv(k', {}) && Queue(k', Ready) != []
  {
    hide Inv;
    AgingInv(k, {p});
    SaveContextInv(Aging(k), {p}, p, s);
    var k1 := SaveContext(Aging(k), p, s);
    EnqueueInv(k1, {p}, p);
    assert {p} - {p} == {};
    assert On(EnqueueProcess(k1, p).queues, Ready, p);
  }

  lemma ResumeInv(k: State, sliceEnded: bool, s: Context)
    requires Inv(k, Floating(k))
    ensures KernelInv(Resume(k, sliceEnded, s))
  {
    match k.current {
      case None =>
        DispatchInv(k);
      case Some(p) =>
        AccountInv(k, {p}, true);
        var k1 := AccountTime(k, true);
        if sliceEnded {
          ExpireInv(k1, p, s);
          DispatchInv(EnqueueProcess(SaveContext(Aging(k1), p, s), p));
        } else {
          AlikeInv(k1, k1.(cpu := Resumed(s)), {p});
        }
    }
  }

  lemma BlockCurrentInv(k: State, key: Key, s: Context)
    requires Inv(k, Floating(k)) && k.current.Some?
    ensures var k' := BlockCurrent(k, key, s); Inv(k', {}) && k'.current == None
  {
    hide Inv;
    var p := k.current.value;
    SaveContextInv(k, {p}, p, s);
    var k1 := SaveContext(k, p, s);
    AccountInv(k1, {p}, true);
    var k2 := AccountTime(k1, true);
    InsertBlockedInv(k2, {p}, key, p);
    assert {p} - {p} == {};
    AlikeInv(InsertBlocked(k2, key, p), BlockCurrent(k, key, s), {});
  }

  /** A waiter of `key` moves from its queue to the ready queue. */
  lemma WakeInv(k: State, fl: set<Pid>, key: Key)
    requires Inv(k, fl) && Waiters(k, key) != []
    ensures Inv(EnqueueProcess(RemoveBlocked(k, key), Waiters(k, key)[0]), fl)
  {
    hide Inv;
    var p := Waiters(k, key)[0];
    RemoveBlockedInv(k, fl, key);
    EnqueueInv(RemoveBlocked(k, key), fl + {p}, p);
    assert (fl + {p}) - {p} == fl;
  }

  lemma UnblockInv(k: State, fl: set<Pid>, c: Completion)
    requires Inv(k, fl)
    ensures Inv(Unblock(k, c), fl) && Unblock(k, c).current == k.current
  {
    hide Inv;
    if Waiters(k, c.key) != [] {
      WakeInv(k, fl, c.key);
      var p := Waiters(k, c.key)[0];
      var k1 := EnqueueProcess(RemoveBlocked(k, c.key), p);
      SaveContextInv(k1, fl, p, Proc(k1, p).ps.(ret := c.status));
      WakeFrame(k, c.key);
    }
  }

  lemma WakeFrame(k: State, key: Key)
    requires Waiters(k, key) != []
    ensures var k' := EnqueueProcess(RemoveBlocked(k, key), Waiters(k, key)[0]);
            k'.current == k.current && |k'.pcb| == |k.pcb| && k'.words == k.words
  {
  }

  lemma {:induction false} UnblockAllInv(k: State, fl: set<Pid>, cs: seq<Completion>)
    requires Inv(k, fl)
    ensures Inv(UnblockAll(k, cs), fl) && UnblockAll(k, cs).current == k.current
    decreases |cs|
  {
    hide Inv;
    if cs != [] {
      UnblockInv(k, fl, cs[0]);
      UnblockAllInv(Unblock(k, cs[0]), fl, cs[1..]);
    }
  }

  lemma {:induction false} UnblockAllConcat(k: State, a: seq<Completion>, b: seq<Completion>)
    ensures UnblockAll(k, a + b) == UnblockAll(UnblockAll(k, a), b)
    ensures AllAwaited(k, a + b) <==> AllAwaited(k, a) && AllAwaited(UnblockAll(k, a), b)
    decreases |a|
  {
    hide Unblock, Waiters;
    if a == [] {
      assert a + b == b;
    } else {
      assert (a + b)[0] == a[0] && (a + b)[1..] == a[1..] + b;
      UnblockAllConcat(Unblock(k, a[0]), a[1..], b);
    }
  }

  lemma VerhogenInv(k: State, key: Key)
    requires Inv(k, Floating(k)) && k.current.Some?
    ensures var k' := DoVerhogen(k, key); Inv(k', Floating(k)) && k'.current == k.current
  {
    hide Inv;
    if Waiters(k, key) != [] {
      WakeInv(k, Floating(k), key);
      WakeFrame(k, key);
    } else {
      AlikeInv(k, DoVerhogen(k, key), Floating(k));
    }
  }

  lemma PasserenInv(k: State, key: Key, s: Context)
    requires Inv(k, Floating(k)) && k.current.Some?
    ensures var k' := DoPasseren(k, key, s); Inv(k', Floating(k'))
  {
    hide Inv;
    if Word(k, key) != 0 {
      AlikeInv(k, DoPasseren(k, key, s), Floating(k));
    } else {
      BlockCurrentInv(k, key, s);
    }
  }

  // ----- creation

  lemma InsertChildTree(k: State, k': State, q: Pid, p: Pid)
    requires TreeOk(k) && q < |k.pcb| && p < |k.pcb| && p != q && !Free(k, q) && !Free(k, p)
    requires k.pcb[p].parent == None && forall c: Pid :: !IsChild(k.children, p, c)
    requires k'.pcb == k.pcb[p := k.pcb[p].(parent := Some(q))] && k'.queues == k.queues
    requires k'.children == k.children[q := KidsOf(k.children, q) + [p]] && k'.ledger.rank == Raised(k.ledger.rank, p)
    ensures TreeOk(k')
  {
    assert forall a: Pid, c: Pid :: IsChild(k'.children, a, c) <==> IsChild(k.children, a, c) || (a == q && c == p);
    assert !IsChild(k.children, q, p);
    NoDupConcat(KidsOf(k.children, q), [p]);
  }

  lemma InsertChildInv(k: State, fl: set<Pid>, q: Pid, p: Pid)
    requires Inv(k, fl) && q < |k.pcb| && p < |k.pcb| && p != q && !Free(k, q) && !Free(k, p)
    requires k.pcb[p].parent == None && forall c: Pid :: !IsChild(k.children, p, c)
    ensures Inv(InsertChild(k, q, p), fl)
  {
    var k' := InsertChild(k, q, p);
    InsertChildTree(k, k', q, p);
    SemdsFrame(k, k', fl, fl);
    OrderFrame(k, k');
  }

  /** A cleared PCB is filled in and made ready. */
  lemma NewcomerInv(k: State, q: Pid, p: Pid, start: Context, priority: int)
    requires Inv(k, {q, p}) && p != q && Proc(k, p) == ZERO_PCB && p < |k.pcb|
    ensures var k1 := SetProc(k, p, Proc(k, p).(ps := start, originalPriority := priority));
            var k' := EnqueueProcess(k1, p);
            && Inv(k', {q}) && k'.pcb[p].parent == None && k'.children == k.children
            && (forall x: Pid :: Free(k', x) <==> Free(k, x))
  {
    var k1 := SetProc(k, p, Proc(k, p).(ps := start, originalPriority := priority));
    hide Inv, InsertInQueue;
    AlikeInv(k, k1, {q, p});
    EnqueueInv(k1, {q, p}, p);
    assert {q, p} - {p} == {q};
  }

  lemma CreateInv(k: State, start: Context, priority: int)
    requires Inv(k, Floating(k)) && k.current.Some?
    ensures var k' := Create(k, start, priority); Inv(k', Floating(k)) && k'.current == k.current
  {
    if Queue(k, PcbFree) != [] {
      var q, p := k.current.value, Queue(k, PcbFree)[0];
      CreateParents(k, q, p);
      AllocInv(k, {q});
      hide Inv, AllocPcb, EnqueueProcess, InsertChild;
      var k1 := AllocPcb(k);
      assert {q} + {p} == {q, p};
      NewcomerInv(k1, q, p, start, priority);
      var k2 := SetProc(k1, p, Proc(k1, p).(ps := start, originalPriority := priority));
      InsertChildInv(EnqueueProcess(k2, p), {q}, q, p);
    }
  }

  lemma CreateParents(k: State, q: Pid, p: Pid)
    requires Inv(k, {q}) && Free(k, p)
    ensures p != q && p < |k.pcb| && q < |k.pcb| && !Free(k, q)
  {
  }

  // ----- termination

  /** Up to the test on `current_proc`, a kill removes the subtree of its target. */
  lemma KillProcessForm(k: State, q: Pid, p: Pid)
    requires Inv(k, {q}) && k.current == Some(q) && p < |k.pcb| && !Free(k, p)
    ensures var ds, k' := Post(k.children, k.ledger.rank, p), KillProcess(k, p);
            && Inv(k', {q} - ToSet(ds)) && (forall x: Pid :: x in ds <==> Descends(k.pcb, x, p))
            && k'.current == (if q == p then None else Some(q))
            && (forall x: Pid :: x in ds ==> On(k'.queues, PcbFree, x))
  {
    var k1 := if q == p then k.(current := None) else k;
    AlikeInv(k, k1, {q});
    hide Inv;
    KillTreeTheorem(k1, {q}, p);
  }

  lemma DescendsOrSelf(pcb: seq<Pcb>, q: Pid, p: Pid)
    ensures Descends(pcb, q, p) <==> q == p || ProperAncestor(pcb, p, q)
  {
    assert Up(pcb, q, 0) == Some(q);
  }

  lemma KillProcessInv(k: State, p: Pid)
    requires Inv(k, Floating(k)) && k.current.Some? && p < |k.pcb| && !Free(k, p)
    requires !ProperAncestor(k.pcb, p, k.current.value)
    ensures var k' := KillProcess(k, p); Inv(k', Floating(k'))
  {
    hide Inv, KillProcess;
    var q := k.current.value;
    KillProcessForm(k, q, p);
    DescendsOrSelf(k.pcb, q, p);
    var ds := Post(k.children, k.ledger.rank, p);
    assert {q} - ToSet(ds) == if q == p then {} else {q};
  }

  lemma NotOwnAncestor(k: State, q: Pid)
    requires Inv(k, {q})
    ensures !ProperAncestor(k.pcb, q, q)
  {
    Acyclic(k, q);
  }

  /** A process that kills one of its own ancestors keeps running on a freed PCB. */
  lemma KillAncestorForm(k: State, p: Pid)
    requires Inv(k, Floating(k)) && k.current.Some? && p < |k.pcb| && !Free(k, p)
    requires ProperAncestor(k.pcb, p, k.current.value)
    ensures var k' := KillProcess(k, p); k'.current == k.current && Free(k', k.current.value)
  {
    var q := k.current.value;
    hide Inv, KillProcess;
    KillProcessForm(k, q, p);
    DescendsOrSelf(k.pcb, q, p);
    NotOwnAncestor(k, q);
  }

  // ----- every step

  /** The parents, and so the ancestors, do not depend on times, contexts or priorities. */
  lemma {:induction false} UpFrame(pcb: seq<Pcb>, pcb': seq<Pcb>, p: Pid, n: nat)
    requires |pcb'| == |pcb| && forall q: Pid :: q < |pcb| ==> pcb'[q].parent == pcb[q].parent
    ensures Up(pcb', p, n) == Up(pcb, p, n)
  {
    if n > 0 {
      UpFrame(pcb, pcb', p, n - 1);
    }
  }

  lemma AncestorFrame(pcb: seq<Pcb>, pcb': seq<Pcb>, p: Pid, q: Pid)
    requires |pcb'| == |pcb| && forall x: Pid :: x < |pcb| ==> pcb'[x].parent == pcb[x].parent
    ensures ProperAncestor(pcb', p, q) <==> ProperAncestor(pcb, p, q)
  {
    if n: nat :| n > 0 && Up(pcb, q, n) == Some(p) {
      UpFrame(pcb, pcb', q, n);
    }
    if n: nat :| n > 0 && Up(pcb', q, n) == Some(p) {
      UpFrame(pcb, pcb', q, n);
    }
  }

  lemma PassUpInv(k: State, kind: nat, oldArea: nat, newArea: nat)
    requires Inv(k, Floating(k)) && k.current.Some?
    ensures Inv(RegisterPassUp(k, k.current.value, kind, oldArea, newArea), Floating(k))
  {
    hide Inv;
    AlikeInv(k, RegisterPassUp(k, k.current.value, kind, oldArea, newArea), Floating(k));
  }

  lemma CurrentLive(k: State, p: Pid)
    requires Inv(k, {p})
    ensures p < |k.pcb| && !Free(k, p)
  {
  }

  lemma KillCurrentInv(k: State)
    requires Inv(k, Floating(k)) && k.current.Some?
    ensures var k' := KillProcess(k, k.current.value); Inv(k', Floating(k'))
  {
    hide Inv, KillProcess;
    CurrentLive(k, k.current.value);
    NotOwnAncestor(k, k.current.value);
    KillProcessInv(k, k.current.value);
  }

  lemma HandleExceptionInv(k: State, kind: nat, s: Context)
    requires Inv(k, Floating(k)) && k.current.Some?
    ensures KernelInv(HandleException(k, kind, s))
  {
    hide Inv, AccountTime, KillProcess, Resume;
    var p := k.current.value;
    AccountInv(k, {p}, false);
    var k1 := AccountTime(k, false);
    if Area(Proc(k1, p).newAreas, kind) != 0 {
      var k2 := k1.(areas := k1.areas[Area(Proc(k1, p).oldAreas, kind) := s]);
      AlikeInv(k1, k2, {p});
      AccountInv(k2, {p}, true);
      AlikeInv(AccountTime(k2, true), HandleException(k, kind, s), {p});
    } else {
      KillCurrentInv(k1);
      ResumeInv(KillProcess(k1, p), false, ZERO_CONTEXT);
    }
  }

  lemma ServedInv(k: State, call: Call, s: Context)
    requires Inv(k, Floating(k)) && k.current.Some?
    requires call.TerminateProcess? && call.pid.Some? ==>
               call.pid.value < |k.pcb| && !ProperAncestor(k.pcb, call.pid.value, k.current.value)
    ensures var k' := Served(k, call, s); Inv(k', Floating(k'))
  {
    hide Inv, AccountTime, KillProcess, Create, DoVerhogen, DoPasseren, BlockCurrent, RegisterPassUp;
    match call {
      case GetCpuTime =>
        AccountInv(k, Floating(k), true);
      case CreateProcess(start, priority) =>
        CreateInv(k, start, priority);
      case TerminateProcess(pid) =>
        TerminateInv(k, pid);
      case Verhogen(key) =>
        VerhogenInv(k, key);
      case Passeren(key) =>
        PasserenInv(k, key, s);
      case WaitIo(dev, reception) =>
        BlockCurrentInv(k, DeviceKey(dev, reception), s);
      case SpecPassUp(kind, oldArea, newArea) =>
        KillCurrentInv(k);
        PassUpInv(k, kind, oldArea, newArea);
      case GetPid =>
      case OtherCall =>
    }
  }

  lemma TerminateInv(k: State, pid: Option<Pid>)
    requires Inv(k, Floating(k)) && k.current.Some?
    requires pid.Some? ==> pid.value < |k.pcb| && !ProperAncestor(k.pcb, pid.value, k.current.value)
    ensures var k' := Served(k, TerminateProcess(pid), ZERO_CONTEXT); Inv(k', Floating(k'))
  {
    hide Inv, KillProcess;
    var p := Victim(k, pid);
    if p !in Queue(k, PcbFree) {
      if pid == None {
        KillCurrentInv(k);
      } else {
        KillProcessInv(k, p);
      }
    }
  }

  lemma SyscallForm(k: State, call: Call, s: Context)
    requires k.current.Some?
    ensures DoSyscall(k, call, s)
            == if call.OtherCall? then HandleException(k, 0, s)
               else Resume(Served(k, call, s), false, Answer(k, call, s))
  {
    hide Served, Resume, HandleException, Answer;
  }

  lemma SyscallInv(k: State, call: Call, s: Context)
    requires Inv(k, Floating(k)) && k.current.Some?
    requires call.TerminateProcess? && call.pid.Some? ==>
               call.pid.value < |k.pcb| && !ProperAncestor(k.pcb, call.pid.value, k.current.value)
    ensures KernelInv(DoSyscall(k, call, s))
  {
    hide Inv, Served, Resume, HandleException, KernelInv;
    if call.OtherCall? {
      HandleExceptionInv(k, 0, s);
    } else {
      ServedInv(k, call, s);
      ResumeInv(Served(k, call, s), false, Answer(k, call, s));
    }
  }

  /** The invariant of the kernel survives every enabled step. */
  lemma StepInv(target: Target, k: State, e: Event)
    requires KernelInv(k) && Enabled(k, e)
    ensures KernelInv(Step(target, k, e))
  {
    hide Inv, AccountTime, Resume, DoSyscall, HandleException, UnblockAll;
    var k0 := k.(delays := e.delays);
    AlikeInv(k, k0, Floating(k));
    AccountInv(k0, Floating(k), false);
    var k1 := AccountTime(k0, false);
    match e.entry {
      case Syscall(call) =>
        if call.TerminateProcess? && call.pid.Some? {
          AncestorFrame(k.pcb, k1.pcb, call.pid.value, k.current.value);
        }
        SyscallInv(k1, call, SyscallContext(target, e.saved));
      case Breakpoint =>
        ResumeInv(k1, false, e.saved);
      case Trap(kind) =>
        HandleExceptionInv(k0, kind, e.saved);
      case Interrupt(timer, _, _, _, _, _) =>
        UnblockAllInv(k1, Floating(k), AllDone(e.entry));
        ResumeInv(UnblockAll(k1, AllDone(e.entry)), timer, InterruptContext(target, e.saved));
    }
  }

  /** ... and so it holds after every run. */
  lemma {:induction false} RunStepsInv(target: Target, k: State, es: seq<Event>)
    requires KernelInv(k) && EnabledRun(target, k, es)
    ensures KernelInv(RunSteps(target, k, es))
    decreases |es|
  {
    hide KernelInv, Step;
    if es != [] {
      StepInv(target, k, es[0]);
      RunStepsInv(target, Step(target, k, es[0]), es[1..]);
    }
  }

  // ----- the first state, and what every reachable state looks like

  /** Everything is free and every other list is empty. */
  lemma EmptyInv(k: State, n: nat)
    requires |k.pcb| == n && |k.semKeys| == n && |k.ledger.rank| == n && |k.ledger.stamp| == n && k.ledger.stamps > 0
    requires PcbFree in k.queues && Ready in k.queues && k.queues[PcbFree] == Down(n)
    requires forall s: Semd :: ProcQ(s) in k.queues <==> s < n
    requires forall h: QueueHead :: h in k.queues && h != PcbFree ==> k.queues[h] == []
    requires k.semds == map[SemdFree := Down(n), Asl := []] && k.children == map[]
    requires forall p: Pid :: p < n ==> k.pcb[p] == ZERO_PCB && k.ledger.stamp[p] == 0
    ensures Inv(k, {})
  {
    DownNoDup(n);
    assert forall h: QueueHead, p: Pid :: On(k.queues, h, p) <==> h == PcbFree && p < n;
    var none: set<Pid> := {};
    forall p: Pid | p < |k.pcb| && p !in none
      ensures exists h: QueueHead :: On(k.queues, h, p)
    {
      assert On(k.queues, PcbFree, p);
    }
  }

  lemma TablesInv(n: nat, words: map<Key, int>, delays: seq<nat>)
    ensures Inv(Tables(n, words, delays), {})
  {
    var k := Tables(n, words, delays);
    forall s: Semd ensures ProcQ(s) in k.queues <==> s < n { assert s in Down(n) <==> s < n; }
    hide Inv;
    EmptyInv(k, n);
  }

  lemma {:induction false} DownNoDup(n: nat)
    ensures NoDup(Down(n))
  {
    if n > 0 {
      DownNoDup(n - 1);
      NoDupConcat([n - 1], Down(n - 1));
    }
  }

  lemma BootInv(n: nat, start: Context, words: map<Key, int>, delays: seq<nat>)
    requires n >= 1
    ensures KernelInv(Boot(n, start, words, delays))
  {
    TablesInv(n, words, delays);
    var k := Tables(n, words, delays);
    var p := Queue(k, PcbFree)[0];
    hide Inv, KernelInv, Tables, AllocPcb, Run, EnqueueProcess;
    AllocInv(k, {});
    var k1 := AllocPcb(k);
    var k2 := SetProc(k1, p, Proc(k1, p).(ps := start, originalPriority := DEFAULT_PRIORITY));
    assert {} + {p} == {p};
    AlikeInv(k1, k2, {p});
    EnqueueInv(k2, {p}, p);
    assert {p} - {p} == {};
    var k3 := EnqueueProcess(k2, p);
    assert On(k3.queues, Ready, p);
    RunInv(k3);
  }

  /** The invariant in every state that the booted kernel reaches. */
  lemma ReachableInv(target: Target, n: nat, start: Context, words: map<Key, int>, delays: seq<nat>, es: seq<Event>)
    requires n >= 1 && EnabledRun(target, Boot(n, start, words, delays), es)
    ensures KernelInv(RunSteps(target, Boot(n, start, words, delays), es))
  {
    hide KernelInv, Boot, RunSteps, EnabledRun;
    BootInv(n, start, words, delays);
    RunStepsInv(target, Boot(n, start, words, delays), es);
  }

  /** Every PCB is in exactly one of the four places, and on its list once. */
  lemma Partition(k: State, p: Pid)
    requires KernelInv(k) && p < |k.pcb|
    ensures var free, ready, blocked, running :=
              p in Queue(k, PcbFree), p in Queue(k, Ready),
              exists s: Semd :: p in Queue(k, ProcQ(s)), k.current == Some(p);
            && (free || ready || blocked || running)
            && (free ==> !ready && !blocked && !running) && (ready ==> !blocked && !running) && (blocked ==> !running)
    ensures forall h: QueueHead :: NoDup(Queue(k, h))
    ensures forall s: Semd, r: Semd :: p in Queue(k, ProcQ(s)) && p in Queue(k, ProcQ(r)) ==> s == r
  {
    assert forall h: QueueHead :: p in Queue(k, h) <==> On(k.queues, h, p);
    if k.current != Some(p) {
      assert p !in Floating(k);
      var h: QueueHead :| On(k.queues, h, p);
      if h.ProcQ? {
        assert p in Queue(k, ProcQ(h.s));
      }
    }
  }

  /** The processor goes to a process of highest priority, the earliest queued among equals. */
  lemma DispatchTakesBest(k: State, fl: set<Pid>, p: Pid)
    requires Inv(k, fl) && p in Queue(k, Ready)
    ensures var first := Queue(k, Ready)[0];
            Run(k).current == Some(first) && (p == first || Before(k.pcb, k.ledger.stamp, first, p))
  {
  }

  /**
   The invariant survives a possible step exactly when the step does not kill a
   proper ancestor of the caller: then, and only then, `current_proc` dangles.
   */
  lemma StepInvIff(target: Target, k: State, e: Event)
    requires KernelInv(k) && Possible(k, e)
    ensures KernelInv(Step(target, k, e)) <==> !KillsOwnAncestor(k, e)
  {
    hide Inv, Step;
    if KillsOwnAncestor(k, e) {
      AncestorKillDangles(target, k, e);
      DanglingBreaks(Step(target, k, e), k.current.value);
    } else {
      StepInv(target, k, e);
    }
  }

  /** Terminating a proper ancestor frees the caller and leaves it current. */
  lemma AncestorKillDangles(target: Target, k: State, e: Event)
    requires KernelInv(k) && Possible(k, e) && KillsOwnAncestor(k, e)
    ensures var k' := Step(target, k, e); k'.current == k.current && Free(k', k.current.value)
  {
    hide Inv, AccountTime, KillProcess, Resume;
    var k0 := k.(delays := e.delays);
    var k1 := AccountTime(k0, false);
    var p, q := e.entry.call.pid.value, k.current.value;
    assert Inv(k1, {q}) by {
      AlikeInv(k, k0, {q});
      AccountInv(k0, {q}, false);
    }
    AncestorFrame(k.pcb, k1.pcb, p, q);
    AncestorLive(k1, p, q);
    KillAncestorForm(k1, p);
    ResumeFrame(KillProcess(k1, p), SyscallContext(target, e.saved).(ret := SUCCESS));
  }

  lemma ResumeFrame(k: State, s: Context)
    requires k.current.Some?
    ensures Resume(k, false, s).queues == k.queues && Resume(k, false, s).current == k.current
  {
  }

  lemma DanglingBreaks(k: State, q: Pid)
    requires k.current == Some(q) && On(k.queues, PcbFree, q)
    ensures !KernelInv(k)
  {
  }

  lemma AncestorLive(k: State, p: Pid, q: Pid)
    requires Inv(k, {q}) && ProperAncestor(k.pcb, p, q)
    ensures p < |k.pcb| && !Free(k, p)
  {
  }
}
