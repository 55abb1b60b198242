/**
 Context preservation.  The saved state of a process that is not running is the one
 it entered the kernel with, or was created with; only the return register changes,
 and only when a device completion wakes it; and that state is what is loaded when
 it runs again.
 */
module Contexts {
  import opened Sequences
  import opened KernelState
  import opened KernelSteps
  import opened Invariants
  import opened ActiveSemaphores
  import opened Termination
  import opened ProcessTree
  import opened KernelRuns
  import Semaphores

  /**
   The saved state of `p` is the same, or `p` was waiting for one of the completions
   `cs`, waits no more, and has that status in its return register.
   */
  ghost predicate Carried(k: State, k': State, p: Pid, cs: seq<Completion>) {
    && p < |k.pcb| == |k'.pcb|
    && (|| (k'.pcb[p].ps == k.pcb[p].ps && (k'.pcb[p].semKey == k.pcb[p].semKey || k'.pcb[p].semKey == None))
        || Reported(k, k', p, cs))
  }

  ghost predicate Reported(k: State, k': State, p: Pid, cs: seq<Completion>)
    requires p < |k.pcb| == |k'.pcb|
  {
    exists c :: c in cs && k.pcb[p].semKey == Some(c.key) && k'.pcb[p].semKey == None
                && k'.pcb[p].ps == k.pcb[p].ps.(ret := c.status)
  }

  lemma CarriedTrans(k: State, k1: State, k2: State, p: Pid, a: seq<Completion>, b: seq<Completion>)
    requires Carried(k, k1, p, a) && Carried(k1, k2, p, b)
    ensures Carried(k, k2, p, a + b)
  {
  }

  /** Nothing about contexts happens to `p`. */
  ghost predicate Untouched(k: State, k': State, p: Pid) {
    && p < |k.pcb| == |k'.pcb| && k'.pcb[p].ps == k.pcb[p].ps
    && (k'.pcb[p].semKey == k.pcb[p].semKey || k'.pcb[p].semKey == None)
  }

  lemma UntouchedCarried(k: State, k': State, p: Pid, cs: seq<Completion>)
    requires Untouched(k, k', p)
    ensures Carried(k, k', p, cs)
  {
  }

  // ----- the parts of a step leave the contexts of the others alone

  /** What is loaded is the saved state of the process that becomes current. */
  lemma RunLoads(k: State)
    requires Queue(k, Ready) != [] && Queue(k, Ready)[0] < |k.pcb|
    ensures var k' := Run(k); var p := Queue(k, Ready)[0];
            && k'.current == Some(p) && |k'.pcb| == |k.pcb|
            && k'.cpu == Running(p, k'.pcb[p].ps) && k'.pcb[p].ps == k.pcb[p].ps
  {
  }

  lemma RunUntouched(k: State, p: Pid)
    requires p < |k.pcb|
    ensures Untouched(k, Run(k), p)
  {
    hide Activation, RemoveFromQueue;
  }

  lemma DispatchUntouched(k: State, p: Pid)
    requires p < |k.pcb|
    ensures Untouched(k, Dispatch(k), p)
  {
    RunUntouched(k, p);
    hide Run;
  }

  lemma EnqueueUntouched(k: State, q: Pid, p: Pid)
    requires p < |k.pcb|
    ensures Untouched(k, EnqueueProcess(k, q), p)
  {
  }

  lemma ResumeUntouched(k: State, sliceEnded: bool, s: Context, p: Pid)
    requires p < |k.pcb| && (sliceEnded ==> k.current != Some(p))
    ensures Untouched(k, Resume(k, sliceEnded, s), p)
  {
    hide AccountTime, Dispatch, EnqueueProcess;
    if k.current == None {
      DispatchUntouched(k, p);
    } else if sliceEnded {
      var q := k.current.value;
      var k2 := SaveContext(Aging(AccountTime(k, true)), q, s);
      hide Aging, SaveContext;
      EnqueueUntouched(k2, q, p);
      DispatchUntouched(EnqueueProcess(k2, q), p);
    }
  }

  /** A process whose slice ends is saved with the state it was interrupted in. */
  lemma ExpirySaves(k: State, s: Context, p: Pid)
    requires k.current == Some(p) && p < |k.pcb|
    ensures var k' := Resume(k, true, s); |k'.pcb| == |k.pcb| && k'.pcb[p].ps == s
  {
  }

  lemma KillUntouched(k: State, v: Pid, p: Pid)
    requires Inv(k, Floating(k)) && k.current.Some? && v < |k.pcb| && !Free(k, v) && p < |k.pcb|
    ensures Untouched(k, KillProcess(k, v), p)
  {
    var q := k.current.value;
    var k1 := if k.current == Some(v) then k.(current := None) else k;
    AlikeInv(k, k1, {q});
    hide Inv, KillTree, Removed;
    KillTreeTheorem(k1, {q}, v);
    RemovedUntouched(k1, KillTree(k1, v), Post(k1.children, k1.ledger.rank, v), p);
  }

  lemma RemovedUntouched(k: State, k': State, ds: seq<Pid>, p: Pid)
    requires Removed(k, k', ds) && p < |k.pcb|
    ensures Untouched(k, k', p)
  {
  }

  lemma BlockUntouched(k: State, key: Key, s: Context, p: Pid)
    requires Inv(k, Floating(k)) && k.current.Some? && p < |k.pcb|
    ensures var k' := BlockCurrent(k, key, s);
            |k'.pcb| == |k.pcb| && if k.current == Some(p) then k'.pcb[p].ps == s else Untouched(k, k', p)
  {
    var q := k.current.value;
    CurrentLive(k, q);
    SaveContextInv(k, {q}, q, s);
    var k1 := SaveContext(k, q, s);
    assert k1.pcb[q].ps == s && (p != q ==> k1.pcb[p] == k.pcb[p]);
    hide Inv, AccountTime, SaveContext, InsertBlocked;
    AccountInv(k1, {q}, true);
    Semaphores.BlockedKeys(AccountTime(k1, true), {q}, key, q);
  }

  lemma CreateUntouched(k: State, start: Context, priority: int, p: Pid)
    requires Inv(k, Floating(k)) && k.current.Some? && p < |k.pcb|
    ensures var k' := Create(k, start, priority);
            && |k'.pcb| == |k.pcb|
            && if Free(k, p) && !Free(k', p) then k'.pcb[p].ps == start
               else (Free(k, p) || Untouched(k, k', p))
  {
    if Queue(k, PcbFree) != [] {
      var q := Queue(k, PcbFree)[0];
      AllocInv(k, Floating(k));
      assert Free(k, q);
      hide Inv, AllocPcb, EnqueueProcess, Raised, Create, Untouched;
      CreateFree(k, start, priority, q);
      if p == q {
        CreateNew(k, start, priority, q);
      } else {
        CreateOthers(k, start, priority, q, p);
      }
    }
  }

  lemma CreateFree(k: State, start: Context, priority: int, q: Pid)
    requires k.current.Some? && Queue(k, PcbFree) != [] && q == Queue(k, PcbFree)[0]
    requires forall x: Pid :: Free(AllocPcb(k), x) <==> Free(k, x) && x != q
    ensures forall x: Pid :: Free(Create(k, start, priority), x) <==> Free(k, x) && x != q
  {
    hide AllocPcb, EnqueueProcess, Raised;
    var k1 := AllocPcb(k);
    var k2 := SetProc(k1, q, Proc(k1, q).(ps := start, originalPriority := priority));
    Semaphores.EnqueueFree(k2, q);
    assert Create(k, start, priority).queues == EnqueueProcess(k2, q).queues && k2.queues == k1.queues;
    forall x: Pid
      ensures Free(Create(k, start, priority), x) <==> Free(k, x) && x != q
    {
      assert Free(EnqueueProcess(k2, q), x) <==> Free(k2, x);
      assert Free(k1, x) <==> Free(k2, x);
    }
  }

  lemma CreateNew(k: State, start: Context, priority: int, q: Pid)
    requires k.current.Some? && Queue(k, PcbFree) != [] && q == Queue(k, PcbFree)[0] && q < |k.pcb|
    ensures var k' := Create(k, start, priority); |k'.pcb| == |k.pcb| && k'.pcb[q].ps == start
  {
    hide AllocPcb, EnqueueProcess, Raised;
    var k1 := AllocPcb(k);
    EnqueueUntouched(SetProc(k1, q, Proc(k1, q).(ps := start, originalPriority := priority)), q, q);
  }

  lemma CreateOthers(k: State, start: Context, priority: int, q: Pid, p: Pid)
    requires k.current.Some? && Queue(k, PcbFree) != [] && q == Queue(k, PcbFree)[0] && p < |k.pcb| && p != q
    ensures Untouched(k, Create(k, start, priority), p)
  {
    AllocOthers(k, q, p);
    hide AllocPcb, EnqueueProcess, Raised;
    var k1 := AllocPcb(k);
    EnqueueUntouched(SetProc(k1, q, Proc(k1, q).(ps := start, originalPriority := priority)), q, p);
  }

  lemma AllocOthers(k: State, q: Pid, p: Pid)
    requires Queue(k, PcbFree) != [] && q == Queue(k, PcbFree)[0] && p < |k.pcb| && p != q
    ensures AllocPcb(k).pcb[p] == k.pcb[p]
  {
  }

  lemma WakeUntouched(k: State, fl: set<Pid>, key: Key, p: Pid)
    requires Inv(k, fl) && Waiters(k, key) != [] && p < |k.pcb|
    ensures var q := Waiters(k, key)[0]; var k' := EnqueueProcess(RemoveBlocked(k, key), q);
            && Untouched(k, k', p) && q < |k.pcb| && k.pcb[q].semKey == Some(key) && k'.pcb[q].semKey == None
  {
    var q := Waiters(k, key)[0];
    Semaphores.WokenKeys(k, fl, key);
    SemKeyIsQueue(k, fl, q, key);
    assert q in Waiters(k, key);
    hide Inv, RemoveBlocked, EnqueueProcess, Waiters;
    EnqueueUntouched(RemoveBlocked(k, key), q, p);
    EnqueueUntouched(RemoveBlocked(k, key), q, q);
  }

  lemma UnblockCarried(k: State, fl: set<Pid>, c: Completion, p: Pid)
    requires Inv(k, fl) && p < |k.pcb|
    ensures Carried(k, Unblock(k, c), p, [c])
  {
    hide Inv, RemoveBlocked, EnqueueProcess, Waiters;
    var s := Waiters(k, c.key);
    if s != [] {
      WakeUntouched(k, fl, c.key, p);
      var k1 := EnqueueProcess(RemoveBlocked(k, c.key), s[0]);
      var k' := Unblock(k, c);
      if p == s[0] {
        assert c in [c];
        assert Reported(k, k', p, [c]);
      }
    }
  }

  lemma {:induction false} UnblockAllCarried(k: State, fl: set<Pid>, cs: seq<Completion>, p: Pid)
    requires Inv(k, fl) && p < |k.pcb|
    ensures Carried(k, UnblockAll(k, cs), p, cs)
    decreases |cs|
  {
    hide Inv, Unblock, Carried;
    if cs == [] {
      UntouchedCarried(k, k, p, cs);
    } else {
      var k1 := Unblock(k, cs[0]);
      UnblockCarried(k, fl, cs[0], p);
      CarriedLength(k, k1, p, [cs[0]]);
      UnblockInv(k, fl, cs[0]);
      UnblockAllCarried(k1, fl, cs[1..], p);
      CarriedTrans(k, k1, UnblockAll(k, cs), p, [cs[0]], cs[1..]);
      assert [cs[0]] + cs[1..] == cs;
    }
  }

  lemma CarriedLength(k: State, k': State, p: Pid, cs: seq<Completion>)
    requires Carried(k, k', p, cs)
    ensures |k'.pcb| == |k.pcb|
  {
  }

  lemma VerhogenUntouched(k: State, key: Key, p: Pid)
    requires Inv(k, Floating(k)) && k.current.Some? && p < |k.pcb|
    ensures Untouched(k, DoVerhogen(k, key), p)
  {
    hide Inv, RemoveBlocked, EnqueueProcess, Waiters;
    if Waiters(k, key) != [] {
      WakeUntouched(k, Floating(k), key, p);
    }
  }

  /** The process keeps its context through a system call of somebody else. */
  lemma ServedUntouched(k: State, call: Call, s: Context, p: Pid)
    requires Inv(k, Floating(k)) && k.current.Some? && p < |k.pcb| && k.current != Some(p) && !Free(k, p)
    requires call.TerminateProcess? && call.pid.Some? ==> call.pid.value < |k.pcb|
    ensures Untouched(k, Served(k, call, s), p)
  {
    hide Inv, AccountTime, Create, DoVerhogen, DoPasseren, BlockCurrent, Terminate, DoSpecPassUp, Untouched;
    FieldsUntouched(k, k, p);
    match call {
      case GetCpuTime => FieldsUntouched(k, AccountTime(k, true), p);
      case CreateProcess(start, priority) => CreateUntouched(k, start, priority, p);
      case TerminateProcess(pid) => TerminateUntouched(k, pid, p);
      case Verhogen(key) => VerhogenUntouched(k, key, p);
      case Passeren(key) => PasserenUntouched(k, key, s, p);
      case WaitIo(dev, reception) => BlockUntouched(k, DeviceKey(dev, reception), s, p);
      case SpecPassUp(kind, oldArea, newArea) => PassUpUntouched(k, kind, oldArea, newArea, p);
      case GetPid =>
      case OtherCall =>
    }
  }

  lemma TerminateUntouched(k: State, pid: Option<Pid>, p: Pid)
    requires Inv(k, Floating(k)) && k.current.Some? && (pid.Some? ==> pid.value < |k.pcb|) && p < |k.pcb|
    ensures Untouched(k, Terminate(k, Victim(k, pid)), p)
  {
    var v := Victim(k, pid);
    CurrentLive(k, k.current.value);
    hide Inv, KillProcess;
    if v !in Queue(k, PcbFree) {
      KillUntouched(k, v, p);
    }
  }

  lemma PassUpUntouched(k: State, kind: nat, oldArea: nat, newArea: nat, p: Pid)
    requires Inv(k, Floating(k)) && k.current.Some? && p < |k.pcb|
    ensures Untouched(k, DoSpecPassUp(k, k.current.value, kind, oldArea, newArea), p)
  {
    CurrentLive(k, k.current.value);
    hide Inv, KillProcess, RegisterPassUp;
    KillUntouched(k, k.current.value, p);
    FieldsUntouched(k, RegisterPassUp(k, k.current.value, kind, oldArea, newArea), p);
  }

  lemma FieldsUntouched(k: State, k': State, p: Pid)
    requires p < |k.pcb| == |k'.pcb| && k'.pcb[p].ps == k.pcb[p].ps && k'.pcb[p].semKey == k.pcb[p].semKey
    ensures Untouched(k, k', p)
  {
  }

  lemma PasserenUntouched(k: State, key: Key, s: Context, p: Pid)
    requires Inv(k, Floating(k)) && k.current.Some? && p < |k.pcb| && k.current != Some(p)
    ensures Untouched(k, DoPasseren(k, key, s), p)
  {
    hide Inv, BlockCurrent;
    if Word(k, key) == 0 {
      BlockUntouched(k, key, s, p);
    }
  }

  lemma ExceptionUntouched(k: State, kind: nat, s: Context, p: Pid)
    requires Inv(k, Floating(k)) && k.current.Some? && p < |k.pcb|
    ensures Untouched(k, HandleException(k, kind, s), p)
  {
    hide Inv, AccountTime, KillProcess, Resume;
    var q := k.current.value;
    AccountInv(k, {q}, false);
    var k1 := AccountTime(k, false);
    CurrentLive(k1, q);
    if Area(Proc(k1, q).newAreas, kind) == 0 {
      KillUntouched(k1, q, p);
      ResumeUntouched(KillProcess(k1, q), false, ZERO_CONTEXT, p);
    }
  }

  /** The completions a step reports; only an interrupt reports any. */
  function DoneBy(e: Event): seq<Completion> {
    if e.entry.Interrupt? then AllDone(e.entry) else []
  }

  /** A live process that is not running keeps its saved state through any step. */
  lemma StepCarries(target: Target, k: State, e: Event, p: Pid)
    requires KernelInv(k) && Enabled(k, e) && p < |k.pcb| && !Free(k, p) && k.current != Some(p)
    ensures Carried(k, Step(target, k, e), p, DoneBy(e))
  {
    hide Inv, AccountTime, Served, Resume, HandleException, UnblockAll;
    var k0 := k.(delays := e.delays);
    AlikeInv(k, k0, Floating(k));
    AccountInv(k0, Floating(k), false);
    var k1 := AccountTime(k0, false);
    match e.entry {
      case Syscall(call) =>
        var s := SyscallContext(target, e.saved);
        if call.OtherCall? {
          ExceptionUntouched(k1, 0, s, p);
        } else {
          ServedUntouched(k1, call, s, p);
          ResumeUntouched(Served(k1, call, s), false, Answer(k1, call, s), p);
        }
      case Breakpoint =>
        ResumeUntouched(k1, false, e.saved, p);
      case Trap(kind) =>
        ExceptionUntouched(k0, kind, e.saved, p);
      case Interrupt(timer, _, _, _, _, _) =>
        UnblockAllCarried(k1, Floating(k), AllDone(e.entry), p);
        UnblockAllInv(k1, Floating(k), AllDone(e.entry));
        var k2 := UnblockAll(k1, AllDone(e.entry));
        ResumeUntouched(k2, timer, InterruptContext(target, e.saved), p);
        CarriedThen(k1, k2, Step(target, k, e), p, AllDone(e.entry));
    }
  }

  lemma CarriedThen(k: State, k1: State, k2: State, p: Pid, cs: seq<Completion>)
    requires Carried(k, k1, p, cs) && Untouched(k1, k2, p)
    ensures Carried(k, k2, p, cs)
  {
  }

  /** The state the kernel found when it was entered, with the program counter adjusted. */
  function EntryState(target: Target, e: Event): Context {
    if target == Umps && e.entry.Syscall? then e.saved.(pc := (e.saved.pc + 4) % WORD)
    else if target == Uarm && e.entry.Interrupt? then e.saved.(pc := (e.saved.pc - 4) % WORD)
    else e.saved
  }

  lemma EntryContexts(target: Target, e: Event)
    ensures e.entry.Syscall? ==> EntryState(target, e) == SyscallContext(target, e.saved)
    ensures e.entry.Interrupt? ==> EntryState(target, e) == InterruptContext(target, e.saved)
  {
  }

  /** The step takes the processor away from its process without killing it. */
  predicate Parks(k: State, e: Event) {
    k.current.Some?
    && match e.entry
       case Syscall(Passeren(key)) => Word(k, key) == 0
       case Syscall(WaitIo(_, _)) => true
       case Interrupt(timer, _, _, _, _, _) => timer
       case _ => false
  }

  lemma BlockSaves(k: State, key: Key, s: Context, p: Pid)
    requires Inv(k, Floating(k)) && k.current == Some(p) && p < |k.pcb|
    ensures var k' := Resume(BlockCurrent(k, key, s), false, s); p < |k'.pcb| && k'.pcb[p].ps == s
  {
    hide Inv, Resume, BlockCurrent;
    BlockUntouched(k, key, s, p);
    ResumeUntouched(BlockCurrent(k, key, s), false, s, p);
  }

  lemma BlocksForm(k: State, call: Call, key: Key, s: Context)
    requires k.current.Some?
    requires (call == Passeren(key) && Word(k, key) == 0)
             || (call.WaitIo? && key == DeviceKey(call.dev, call.reception))
    ensures DoSyscall(k, call, s) == Resume(BlockCurrent(k, key, s), false, s)
  {
    hide Resume, BlockCurrent, AccountTime, KillProcess, Create, DoVerhogen, RegisterPassUp, HandleException;
  }

  lemma InterruptSaves(k: State, cs: seq<Completion>, s: Context, p: Pid)
    requires Inv(k, {p}) && k.current == Some(p) && p < |k.pcb|
    ensures var k' := Resume(UnblockAll(k, cs), true, s); p < |k'.pcb| && k'.pcb[p].ps == s
  {
    hide Inv, Resume, UnblockAll;
    UnblockAllCarried(k, {p}, cs, p);
    UnblockAllInv(k, {p}, cs);
    ExpirySaves(UnblockAll(k, cs), s, p);
  }

  /** A process that blocks or is preempted is saved with the state it entered the kernel with. */
  lemma StepSaves(target: Target, k: State, e: Event)
    requires KernelInv(k) && Parks(k, e)
    ensures var p, k' := k.current.value, Step(target, k, e);
            p < |k'.pcb| && k'.pcb[p].ps == EntryState(target, e)
  {
    var p := k.current.value;
    CurrentLive(k, p);
    hide Inv, AccountTime, Resume, UnblockAll, BlockCurrent, AllDone, DoSyscall;
    EntryContexts(target, e);
    hide EntryState, SyscallContext, InterruptContext;
    var k0 := k.(delays := e.delays);
    AlikeInv(k, k0, {p});
    AccountInv(k0, {p}, false);
    var k1, s := AccountTime(k0, false), EntryState(target, e);
    match e.entry {
      case Syscall(call) =>
        var key := if call.Passeren? then call.key else DeviceKey(call.dev, call.reception);
        BlocksForm(k1, call, key, s);
        BlockSaves(k1, key, s, p);
      case Interrupt(timer, _, _, _, _, _) =>
        InterruptSaves(k1, AllDone(e.entry), s, p);
    }
  }

  /** A dispatched process is the current one and got its saved state; without one the machine idles. */
  ghost predicate Loaded(k: State) {
    && (k.cpu.Running? ==> k.current == Some(k.cpu.pid) && k.cpu.pid < |k.pcb| && k.cpu.s == k.pcb[k.cpu.pid].ps)
    && (k.cpu.Idle? <==> k.current == None)
  }

  lemma DispatchLoads(k: State, fl: set<Pid>)
    requires Inv(k, fl) && (k.current == None || Queue(k, Ready) != [])
    ensures Loaded(Dispatch(k))
  {
    if Queue(k, Ready) != [] {
      assert On(k.queues, Ready, Queue(k, Ready)[0]);
      RunLoads(k);
      hide Run;
    }
  }

  lemma ResumeLoads(k: State, sliceEnded: bool, s: Context)
    requires Inv(k, Floating(k))
    ensures Loaded(Resume(k, sliceEnded, s))
  {
    hide Inv, AccountTime, Dispatch, EnqueueProcess, SaveContext, Aging;
    if k.current == None {
      DispatchLoads(k, {});
    } else if sliceEnded {
      var p := k.current.value;
      AccountInv(k, {p}, true);
      var k1 := AccountTime(k, true);
      ExpireInv(k1, p, s);
      DispatchLoads(EnqueueProcess(SaveContext(Aging(k1), p, s), p), {});
    }
  }

  lemma ExceptionLoads(k: State, kind: nat, s: Context)
    requires Inv(k, Floating(k)) && k.current.Some?
    ensures Loaded(HandleException(k, kind, s))
  {
    hide Inv, AccountTime, KillProcess, Resume;
    AccountInv(k, Floating(k), false);
    var k1 := AccountTime(k, false);
    KillCurrentInv(k1);
    ResumeLoads(KillProcess(k1, k1.current.value), false, ZERO_CONTEXT);
  }

  /** Whenever a step ends in a dispatch, it loads the saved state of the process that runs. */
  lemma StepLoads(target: Target, k: State, e: Event)
    requires KernelInv(k) && Enabled(k, e)
    ensures Loaded(Step(target, k, e))
  {
    hide Inv, AccountTime, Served, Resume, HandleException, UnblockAll, AllDone, Loaded;
    var k0 := k.(delays := e.delays);
    AlikeInv(k, k0, Floating(k));
    AccountInv(k0, Floating(k), false);
    var k1 := AccountTime(k0, false);
    match e.entry {
      case Syscall(call) =>
        var s := SyscallContext(target, e.saved);
        if call.OtherCall? {
          ExceptionLoads(k1, 0, s);
        } else {
          if call.TerminateProcess? && call.pid.Some? {
            AncestorFrame(k.pcb, k1.pcb, call.pid.value, k.current.value);
          }
          ServedInv(k1, call, s);
          ResumeLoads(Served(k1, call, s), false, Answer(k1, call, s));
        }
      case Breakpoint =>
        ResumeLoads(k1, false, e.saved);
      case Trap(kind) =>
        ExceptionLoads(k0, kind, e.saved);
      case Interrupt(timer, _, _, _, _, _) =>
        UnblockAllInv(k1, Floating(k), AllDone(e.entry));
        ResumeLoads(UnblockAll(k1, AllDone(e.entry)), timer, InterruptContext(target, e.saved));
    }
  }

  // ----- the running process

  lemma ServedCurrent(k: State, call: Call, s: Context)
    requires k.current.Some?
    ensures Served(k, call, s).current == k.current || Served(k, call, s).current == None
    ensures |Served(k, call, s).pcb| == |k.pcb|
  {
    hide AccountTime, Create, DoVerhogen, DoPasseren, BlockCurrent, KillProcess, RegisterPassUp;
    match call {
      case CreateProcess(start, priority) => CreateCurrent(k, start, priority);
      case TerminateProcess(pid) => KillCurrent(k, Victim(k, pid));
      case Verhogen(key) => VerhogenCurrent(k, key);
      case Passeren(key) => PasserenCurrent(k, key, s);
      case WaitIo(dev, reception) => BlockNone(k, DeviceKey(dev, reception), s);
      case SpecPassUp(_, _, _) => KillCurrent(k, k.current.value);
      case _ =>
    }
  }

  lemma CreateCurrent(k: State, start: Context, priority: int)
    ensures Create(k, start, priority).current == k.current && |Create(k, start, priority).pcb| == |k.pcb|
  {
    hide AllocPcb, EnqueueProcess, Raised;
  }

  lemma VerhogenCurrent(k: State, key: Key)
    ensures DoVerhogen(k, key).current == k.current && |DoVerhogen(k, key).pcb| == |k.pcb|
  {
    hide RemoveBlocked, EnqueueProcess, Waiters;
  }

  lemma BlockNone(k: State, key: Key, s: Context)
    ensures BlockCurrent(k, key, s).current == None && |BlockCurrent(k, key, s).pcb| == |k.pcb|
  {
    hide AccountTime, SaveContext, InsertBlocked;
  }

  lemma PasserenCurrent(k: State, key: Key, s: Context)
    ensures var k' := DoPasseren(k, key, s); (k'.current == k.current || k'.current == None) && |k'.pcb| == |k.pcb|
  {
    hide BlockCurrent;
    BlockNone(k, key, s);
  }

  lemma KillCurrent(k: State, p: Pid)
    ensures KillProcess(k, p).current == if k.current == Some(p) then None else k.current
    ensures |KillProcess(k, p).pcb| == |k.pcb|
  {
    var k1 := if k.current == Some(p) then k.(current := None) else k;
    FinishAllCurrent(k1, Post(k1.children, k1.ledger.rank, p));
  }

  lemma {:induction false} FinishAllCurrent(k: State, ds: seq<Pid>)
    ensures FinishAll(k, ds).current == k.current && |FinishAll(k, ds).pcb| == |k.pcb|
    decreases |ds|
  {
    if ds != [] {
      assert Finish(k, ds[0]).current == k.current && |Finish(k, ds[0]).pcb| == |k.pcb|;
      hide Finish;
      FinishAllCurrent(Finish(k, ds[0]), ds[1..]);
    }
  }

  /** The calls that answer in the return register. */
  predicate Answers(e: Event) {
    e.entry.Syscall? && (e.entry.call.CreateProcess? || e.entry.call.TerminateProcess? || e.entry.call.SpecPassUp?)
  }

  lemma ResumeCpu(k: State, s: Context)
    ensures var k' := Resume(k, false, s);
            k'.cpu.Resumed? ==> k.current.Some? && k'.current == k.current && k'.cpu.s == s
  {
    hide AccountTime, Activation, RemoveFromQueue;
  }

  lemma {:induction false} UnblockAllCurrent(k: State, cs: seq<Completion>)
    ensures UnblockAll(k, cs).current == k.current
    decreases |cs|
  {
    hide RemoveBlocked, EnqueueProcess, SaveContext, Waiters;
    if cs != [] {
      UnblockAllCurrent(Unblock(k, cs[0]), cs[1..]);
    }
  }

  lemma ExceptionCpu(k: State, kind: nat, s: Context)
    ensures k.current.Some? ==> !HandleException(k, kind, s).cpu.Resumed?
  {
    hide AccountTime, KillProcess, Activation, RemoveFromQueue, Resume;
    if k.current.Some? {
      var k1 := AccountTime(k, false);
      KillCurrent(k1, k.current.value);
      ResumeCpu(KillProcess(k1, k.current.value), ZERO_CONTEXT);
    }
  }

  /**
   A step that goes back to the program it came from loads the state it was entered
   with; only calls that answer change it, in the return register.
   */
  lemma StepResumes(target: Target, k: State, e: Event)
    requires Enabled(k, e) && Step(target, k, e).cpu.Resumed?
    ensures var k' := Step(target, k, e);
            && k'.current == k.current && k'.current.Some?
            && k'.cpu.s == EntryState(target, e).(ret := k'.cpu.s.ret)
            && (!Answers(e) ==> k'.cpu.s == EntryState(target, e))
  {
    hide AccountTime, Served, Resume, HandleException, UnblockAll, AllDone, AllAwaited;
    var k1 := AccountTime(k.(delays := e.delays), false);
    match e.entry {
      case Syscall(call) =>
        var s := EntryState(target, e);
        ExceptionCpu(k1, 0, s);
        ServedCurrent(k1, call, s);
        ResumeCpu(Served(k1, call, s), Answer(k1, call, s));
      case Breakpoint =>
        ResumeCpu(k1, e.saved);
      case Trap(kind) =>
        ExceptionCpu(k.(delays := e.delays), kind, e.saved);
      case Interrupt(timer, _, _, _, _, _) =>
        UnblockAllCurrent(k1, AllDone(e.entry));
        ResumeCpu(UnblockAll(k1, AllDone(e.entry)), EntryState(target, e));
        if timer {
          ExpiryCpu(UnblockAll(k1, AllDone(e.entry)), EntryState(target, e));
        }
    }
  }

  lemma ExpiryCpu(k: State, s: Context)
    ensures !Resume(k, true, s).cpu.Resumed?
  {
    hide AccountTime, Run, EnqueueProcess, SaveContext, Aging;
    RunAreas(k);
    if k.current.Some? {
      RunAreas(EnqueueProcess(SaveContext(Aging(AccountTime(k, true)), k.current.value, s), k.current.value));
    }
  }

  /** The exception a step raises, if any. */
  function Raises(e: Event): Option<nat> {
    match e.entry
    case Trap(kind) => Some(kind)
    case Syscall(OtherCall) => Some(0)
    case _ => None
  }

  /**
   An exception goes to the handler its process registered, with the state it was
   entered with in the old area; without a handler the process and all its
   descendants are freed.
   */
  lemma StepPassesUp(target: Target, k: State, e: Event, p: Pid)
    requires KernelInv(k) && k.current == Some(p) && Raises(e).Some?
    ensures p < |k.pcb|
    ensures var k', kind := Step(target, k, e), Raises(e).value; var x := k.pcb[p];
            if Area(x.newAreas, kind) != 0 then
              && k'.cpu == PassedUp(Area(x.newAreas, kind)) && k'.current == Some(p)
              && k'.areas == k.areas[Area(x.oldAreas, kind) := EntryState(target, e)]
            else
              && !k'.cpu.PassedUp? && k'.areas == k.areas
              && forall q: Pid :: Free(k', q) <==> Free(k, q) || Descends(k.pcb, q, p)
  {
    CurrentLive(k, p);
    hide KernelInv, Inv, HandleException, AccountTime, Step, Descends, Free;
    var k1 := ExceptionForm(target, k, e, p);
    ExceptionPasses(k1, Raises(e).value, EntryState(target, e), p);
    forall q: Pid ensures Descends(k1.pcb, q, p) <==> Descends(k.pcb, q, p) { DescendsFrame(k.pcb, k1.pcb, q, p); }
  }

  lemma ExceptionForm(target: Target, k: State, e: Event, p: Pid) returns (k1: State)
    requires KernelInv(k) && k.current == Some(p) && Raises(e).Some?
    ensures Inv(k1, {p}) && k1.current == Some(p) && |k1.pcb| == |k.pcb| && k1.areas == k.areas
    ensures forall q: Pid :: q < |k.pcb| ==>
              && k1.pcb[q].parent == k.pcb[q].parent
              && k1.pcb[q].newAreas == k.pcb[q].newAreas && k1.pcb[q].oldAreas == k.pcb[q].oldAreas
    ensures forall q: Pid :: Free(k1, q) <==> Free(k, q)
    ensures Step(target, k, e) == HandleException(k1, Raises(e).value, EntryState(target, e))
  {
    hide Inv, HandleException, AccountTime;
    var k0 := k.(delays := e.delays);
    AlikeInv(k, k0, {p});
    AccountInv(k0, {p}, false);
    k1 := if e.entry.Trap? then k0 else AccountTime(k0, false);
  }

  lemma DescendsFrame(pcb: seq<Pcb>, pcb': seq<Pcb>, q: Pid, p: Pid)
    requires |pcb'| == |pcb| && forall x: Pid :: x < |pcb| ==> pcb'[x].parent == pcb[x].parent
    ensures Descends(pcb', q, p) <==> Descends(pcb, q, p)
  {
    if n: nat :| Up(pcb, q, n) == Some(p) { UpFrame(pcb, pcb', q, n); }
    if n: nat :| Up(pcb', q, n) == Some(p) { UpFrame(pcb, pcb', q, n); }
  }

  lemma ExceptionPasses(k: State, kind: nat, s: Context, p: Pid)
    requires Inv(k, {p}) && k.current == Some(p) && p < |k.pcb|
    ensures var k' := HandleException(k, kind, s); var x := k.pcb[p];
            if Area(x.newAreas, kind) != 0 then
              && k'.cpu == PassedUp(Area(x.newAreas, kind)) && k'.current == Some(p)
              && k'.areas == k.areas[Area(x.oldAreas, kind) := s]
            else
              && !k'.cpu.PassedUp? && k'.areas == k.areas
              && forall q: Pid :: Free(k', q) <==> Free(k, q) || Descends(k.pcb, q, p)
  {
    hide Inv, AccountTime, KillProcess, Resume;
    var k1 := AccountTime(k, false);
    if Area(k.pcb[p].newAreas, kind) == 0 {
      AccountInv(k, {p}, false);
      CurrentLive(k1, p);
      KillsDescendants(k1, p, p);
      ResumeIdle(KillProcess(k1, p), ZERO_CONTEXT);
      forall q: Pid ensures Descends(k1.pcb, q, p) <==> Descends(k.pcb, q, p) { DescendsFrame(k.pcb, k1.pcb, q, p); }
      assert forall q: Pid :: Free(k1, q) <==> Free(k, q);
    }
  }

  lemma KillsDescendants(k: State, p: Pid, v: Pid)
    requires Inv(k, {p}) && k.current == Some(p) && v < |k.pcb| && !Free(k, v)
    ensures var k' := KillProcess(k, v);
            && k'.current == (if v == p then None else Some(p)) && k'.areas == k.areas && k'.words == k.words
            && (forall h: QueueHead :: h in k.queues && h != PcbFree ==>
                  h in k'.queues && k'.queues[h] == Minus(k.queues[h], ToSet(Post(k.children, k.ledger.rank, v))))
            && forall q: Pid :: Free(k', q) <==> Free(k, q) || Descends(k.pcb, q, v)
  {
    var k1 := if v == p then k.(current := None) else k;
    AlikeInv(k, k1, {p});
    hide Inv, KillTree;
    KillTreeTheorem(k1, {p}, v);
    RemovedFree(k1, KillTree(k1, v), Post(k1.children, k1.ledger.rank, v));
  }

  lemma RemovedFree(k: State, k': State, ds: seq<Pid>)
    requires RemovedQueues(k, k', ds)
    ensures forall q: Pid :: Free(k', q) <==> Free(k, q) || q in ds
  {
  }

  lemma ResumeIdle(k: State, s: Context)
    requires k.current == None
    ensures var k' := Resume(k, false, s);
            && !k'.cpu.PassedUp? && k'.areas == k.areas && forall q: Pid :: Free(k', q) <==> Free(k, q)
  {
    RunAreas(k);
    RunFree(k);
    hide Run;
  }

  lemma RunAreas(k: State)
    ensures Run(k).areas == k.areas && (Queue(k, Ready) != [] ==> Run(k).cpu.Running?)
  {
    hide Activation, RemoveFromQueue;
  }

  lemma RunFree(k: State)
    ensures forall q: Pid :: Free(Run(k), q) <==> Free(k, q)
  {
    hide Activation;
  }

  /** Work conservation: a step idles exactly when it leaves no current process, and then nobody is ready. */
  lemma WorkConserving(target: Target, k: State, e: Event)
    requires KernelInv(k) && Enabled(k, e)
    ensures var k' := Step(target, k, e);
            && (k'.cpu.Idle? <==> k'.current == None)
            && (k'.cpu.Idle? ==> Queue(k', Ready) == [])
            && (k'.cpu.Idle? ==>
                  forall p: Pid :: p < |k'.pcb| ==> Free(k', p) || exists s: Semd :: On(k'.queues, ProcQ(s), p))
  {
    hide Step;
    StepLoads(target, k, e);
    StepInv(target, k, e);
    var k' := Step(target, k, e);
    if k'.cpu.Idle? {
      forall p: Pid | p < |k'.pcb|
        ensures Free(k', p) || exists s: Semd :: On(k'.queues, ProcQ(s), p)
      {
        var h: QueueHead :| On(k'.queues, h, p);
        assert h == PcbFree || On(k'.queues, ProcQ(h.s), p);
      }
    }
  }

  /** A created process is saved with the state its parent gave. */
  lemma StepCreates(target: Target, k: State, e: Event)
    requires KernelInv(k) && Enabled(k, e) && Queue(k, PcbFree) != []
    requires e.entry.Syscall? && e.entry.call.CreateProcess?
    ensures var p, k' := Queue(k, PcbFree)[0], Step(target, k, e); p < |k'.pcb| && k'.pcb[p].ps == e.entry.call.start
  {
    var p := Queue(k, PcbFree)[0];
    var call, s := e.entry.call, SyscallContext(target, e.saved);
    hide Inv, AccountTime, Resume, Create, DoSyscall;
    var k0 := k.(delays := e.delays);
    AlikeInv(k, k0, Floating(k));
    AccountInv(k0, Floating(k), false);
    var k1 := AccountTime(k0, false);
    CreateForm(k1, call, s);
    CreateSaves(k1, call.start, call.priority);
    ResumeUntouched(Create(k1, call.start, call.priority), false, Answer(k1, call, s), p);
  }

  lemma CreateForm(k: State, call: Call, s: Context)
    requires k.current.Some? && call.CreateProcess?
    ensures DoSyscall(k, call, s) == Resume(Create(k, call.start, call.priority), false, Answer(k, call, s))
  {
  }

  lemma CreateSaves(k: State, start: Context, priority: int)
    requires Inv(k, Floating(k)) && k.current.Some? && Queue(k, PcbFree) != []
    ensures var p, k' := Queue(k, PcbFree)[0], Create(k, start, priority); p < |k'.pcb| && k'.pcb[p].ps == start
  {
    var p := Queue(k, PcbFree)[0];
    AllocInv(k, Floating(k));
    hide Inv, EnqueueProcess, AllocPcb, Raised;
    var k1 := AllocPcb(k);
    EnqueueUntouched(SetProc(k1, p, Proc(k1, p).(ps := start, originalPriority := priority)), p, p);
  }

  // ----- runs

  /** `p` is live and not running in every state of the run but possibly the last. */
  ghost predicate Parked(target: Target, k: State, es: seq<Event>, p: Pid)
    decreases |es|
  {
    || es == []
    || (p < |k.pcb| && !Free(k, p) && k.current != Some(p) && Parked(target, Step(target, k, es[0]), es[1..], p))
  }

  function AllReported(es: seq<Event>): seq<Completion> {
    if es == [] then [] else DoneBy(es[0]) + AllReported(es[1..])
  }

  /**
   From the moment a process stops running to the end of the run, its saved state
   changes only in the return register, and only if it was waiting for a device
   whose completion arrived during the run.
   */
  lemma {:induction false} ContextPreserved(target: Target, k: State, es: seq<Event>, p: Pid)
    requires KernelInv(k) && EnabledRun(target, k, es) && Parked(target, k, es, p) && p < |k.pcb|
    ensures Carried(k, RunSteps(target, k, es), p, AllReported(es))
    decreases |es|
  {
    hide KernelInv, Step, Carried, DoneBy;
    if es == [] {
      UntouchedCarried(k, k, p, []);
    } else {
      var k1 := Step(target, k, es[0]);
      StepInv(target, k, es[0]);
      StepCarries(target, k, es[0], p);
      CarriedLength(k, k1, p, DoneBy(es[0]));
      ContextPreserved(target, k1, es[1..], p);
      CarriedTrans(k, k1, RunSteps(target, k, es), p, DoneBy(es[0]), AllReported(es[1..]));
    }
  }
}
