/**
 What a process registers with SPECPASSUP stays registered: over any run that it
 survives, an exception of that kind goes to the area it named.
 */
module Registrations {
  import opened Sequences
  import opened KernelState
  import opened KernelSteps
  import opened Invariants
  import opened ActiveSemaphores
  import opened Termination
  import opened ProcessTree
  import opened KernelRuns
  import opened Contexts
  import Calls
  import Semaphores

  /** The fields of `p` that only its own system calls can change. */
  ghost predicate Lasts(k: State, k': State, p: Pid) {
    && p < |k.pcb| == |k'.pcb|
    && k'.pcb[p].newAreas == k.pcb[p].newAreas && k'.pcb[p].oldAreas == k.pcb[p].oldAreas
    && k'.pcb[p].originalPriority == k.pcb[p].originalPriority
  }

  lemma AccountLasts(k: State, kernel: bool, p: Pid)
    requires p < |k.pcb|
    ensures Lasts(k, AccountTime(k, kernel), p)
  {
    hide AccountTime;
  }

  lemma EnqueueLasts(k: State, q: Pid, p: Pid)
    requires p < |k.pcb|
    ensures Lasts(k, EnqueueProcess(k, q), p)
  {
    hide InsertInQueue;
  }

  lemma RunLasts(k: State, p: Pid)
    requires p < |k.pcb|
    ensures Lasts(k, Run(k), p)
  {
    hide Activation, RemoveFromQueue;
  }

  lemma ResumeLasts(k: State, sliceEnded: bool, s: Context, p: Pid)
    requires p < |k.pcb|
    ensures Lasts(k, Resume(k, sliceEnded, s), p)
  {
    hide AccountTime, Run, EnqueueProcess, Aging, SaveContext, Lasts;
    AccountLasts(k, true, p);
    RunLasts(k, p);
    PlainLasts(k, k, p);
    if k.current.None? {
      PlainLasts(k, k.(cpu := Idle), p);
    } else {
      ExpiryLasts(k, AccountTime(k, true), s, p);
      PlainLasts(k, Resume(k, false, s), p);
    }
  }

  lemma PlainLasts(k: State, k': State, p: Pid)
    requires p < |k.pcb| == |k'.pcb|
    requires k'.pcb[p].newAreas == k.pcb[p].newAreas && k'.pcb[p].oldAreas == k.pcb[p].oldAreas
    requires k'.pcb[p].originalPriority == k.pcb[p].originalPriority
    ensures Lasts(k, k', p)
  {
  }

  lemma ExpiryLasts(k: State, k1: State, s: Context, p: Pid)
    requires k.current.Some? && Lasts(k, k1, p)
    ensures Lasts(k, Dispatch(EnqueueProcess(SaveContext(Aging(k1), k.current.value, s), k.current.value)), p)
  {
    var k2 := SaveContext(Aging(k1), k.current.value, s);
    assert Lasts(k, k2, p);
    hide Run, EnqueueProcess, Aging, SaveContext;
    EnqueueLasts(k2, k.current.value, p);
    RunLasts(EnqueueProcess(k2, k.current.value), p);
  }

  lemma WakeLasts(k: State, fl: set<Pid>, key: Key, p: Pid)
    requires Inv(k, fl) && Waiters(k, key) != [] && p < |k.pcb|
    ensures Lasts(k, EnqueueProcess(RemoveBlocked(k, key), Waiters(k, key)[0]), p)
  {
    hide Inv, RemoveBlocked, EnqueueProcess, Waiters;
    Semaphores.WokenKeys(k, fl, key);
    EnqueueLasts(RemoveBlocked(k, key), Waiters(k, key)[0], p);
  }

  lemma UnblockLasts(k: State, fl: set<Pid>, c: Completion, p: Pid)
    requires Inv(k, fl) && p < |k.pcb|
    ensures Lasts(k, Unblock(k, c), p)
  {
    hide Inv, RemoveBlocked, EnqueueProcess, Waiters;
    if Waiters(k, c.key) != [] {
      WakeLasts(k, fl, c.key, p);
    }
  }

  lemma {:induction false} UnblockAllLasts(k: State, fl: set<Pid>, cs: seq<Completion>, p: Pid)
    requires Inv(k, fl) && p < |k.pcb|
    ensures Lasts(k, UnblockAll(k, cs), p)
    decreases |cs|
  {
    hide Inv, Unblock;
    if cs != [] {
      UnblockLasts(k, fl, cs[0], p);
      UnblockInv(k, fl, cs[0]);
      UnblockAllLasts(Unblock(k, cs[0]), fl, cs[1..], p);
    }
  }

  lemma VerhogenLasts(k: State, key: Key, p: Pid)
    requires Inv(k, Floating(k)) && p < |k.pcb|
    ensures Lasts(k, DoVerhogen(k, key), p)
  {
    hide Inv, RemoveBlocked, EnqueueProcess, Waiters;
    if Waiters(k, key) != [] {
      WakeLasts(k, Floating(k), key, p);
    }
  }

  lemma BlockLasts(k: State, key: Key, s: Context, p: Pid)
    requires Inv(k, Floating(k)) && k.current.Some? && p < |k.pcb|
    ensures Lasts(k, BlockCurrent(k, key, s), p)
  {
    hide Inv, AccountTime, SaveContext, InsertBlocked;
    var q := k.current.value;
    var k1 := SaveContext(k, q, s);
    SaveContextInv(k, {q}, q, s);
    AccountInv(k1, {q}, true);
    InsertLasts(AccountTime(k1, true), key, q, p);
  }

  lemma InsertLasts(k: State, key: Key, q: Pid, p: Pid)
    requires Inv(k, {q}) && p < |k.pcb|
    ensures Lasts(k, InsertBlocked(k, key, q), p)
  {
    CurrentLive(k, q);
    hide Inv, InsertBlocked;
    Semaphores.BlockedKeys(k, {q}, key, q);
  }

  lemma PasserenLasts(k: State, key: Key, s: Context, p: Pid)
    requires Inv(k, Floating(k)) && k.current.Some? && p < |k.pcb|
    ensures Lasts(k, DoPasseren(k, key, s), p)
  {
    hide Inv, BlockCurrent;
    BlockLasts(k, key, s, p);
  }

  lemma CreateLasts(k: State, start: Context, priority: int, p: Pid)
    requires k.current.Some? && p < |k.pcb| && !Free(k, p)
    ensures Lasts(k, Create(k, start, priority), p)
  {
    if Queue(k, PcbFree) != [] {
      var q := Queue(k, PcbFree)[0];
      assert Free(k, q);
      AllocOthers(k, q, p);
      hide AllocPcb, EnqueueProcess, Raised;
      var k1 := AllocPcb(k);
      EnqueueLasts(SetProc(k1, q, Proc(k1, q).(ps := start, originalPriority := priority)), q, p);
    }
  }

  lemma KillLasts(k: State, v: Pid, p: Pid)
    requires Inv(k, Floating(k)) && k.current.Some? && v < |k.pcb| && !Free(k, v) && p < |k.pcb|
    ensures Lasts(k, KillProcess(k, v), p)
  {
    var q := k.current.value;
    var k1 := if k.current == Some(v) then k.(current := None) else k;
    AlikeInv(k, k1, {q});
    hide Inv, KillTree, Removed;
    KillTreeTheorem(k1, {q}, v);
    RemovedLasts(k1, KillTree(k1, v), Post(k1.children, k1.ledger.rank, v), p);
  }

  lemma RemovedLasts(k: State, k': State, ds: seq<Pid>, p: Pid)
    requires Removed(k, k', ds) && p < |k.pcb|
    ensures Lasts(k, k', p)
  {
  }

  lemma TerminateLasts(k: State, pid: Option<Pid>, p: Pid)
    requires Inv(k, Floating(k)) && k.current.Some? && (pid.Some? ==> pid.value < |k.pcb|) && p < |k.pcb|
    ensures Lasts(k, Terminate(k, Victim(k, pid)), p)
  {
    CurrentLive(k, k.current.value);
    hide Inv, KillProcess;
    if Victim(k, pid) !in Queue(k, PcbFree) {
      KillLasts(k, Victim(k, pid), p);
    }
  }

  lemma PassUpLasts(k: State, kind: nat, o: nat, n: nat, p: Pid)
    requires Inv(k, Floating(k)) && k.current.Some? && p < |k.pcb| && k.current != Some(p)
    ensures Lasts(k, DoSpecPassUp(k, k.current.value, kind, o, n), p)
  {
    CurrentLive(k, k.current.value);
    hide Inv, KillProcess;
    KillLasts(k, k.current.value, p);
  }

  /** The step is a SPECPASSUP of `p` itself. */
  predicate Registers(k: State, e: Event, p: Pid) {
    e.entry.Syscall? && e.entry.call.SpecPassUp? && k.current == Some(p)
  }

  lemma ServedLasts(k: State, call: Call, s: Context, p: Pid)
    requires Inv(k, Floating(k)) && k.current.Some? && p < |k.pcb| && !Free(k, p)
    requires call.TerminateProcess? && call.pid.Some? ==> call.pid.value < |k.pcb|
    requires call.SpecPassUp? ==> k.current != Some(p)
    ensures Lasts(k, Served(k, call, s), p)
  {
    hide Inv, AccountTime, Create, DoVerhogen, DoPasseren, BlockCurrent, Terminate, DoSpecPassUp;
    match call {
      case GetCpuTime => AccountLasts(k, true, p);
      case CreateProcess(start, priority) => CreateLasts(k, start, priority, p);
      case TerminateProcess(pid) => TerminateLasts(k, pid, p);
      case Verhogen(key) => VerhogenLasts(k, key, p);
      case Passeren(key) => PasserenLasts(k, key, s, p);
      case WaitIo(dev, reception) => BlockLasts(k, DeviceKey(dev, reception), s, p);
      case SpecPassUp(kind, o, n) => PassUpLasts(k, kind, o, n, p);
      case GetPid =>
      case OtherCall =>
    }
  }

  lemma ExceptionLasts(k: State, kind: nat, s: Context, p: Pid)
    requires Inv(k, Floating(k)) && k.current.Some? && p < |k.pcb|
    ensures Lasts(k, HandleException(k, kind, s), p)
  {
    hide Inv, AccountTime, KillProcess, Resume;
    var q := k.current.value;
    AccountInv(k, {q}, false);
    AccountLasts(k, false, p);
    var k1 := AccountTime(k, false);
    if Area(Proc(k1, q).newAreas, kind) == 0 {
      CurrentLive(k1, q);
      KillLasts(k1, q, p);
      ResumeLasts(KillProcess(k1, q), false, ZERO_CONTEXT, p);
    }
  }

  lemma SyscallLasts(k: State, call: Call, s: Context, p: Pid)
    requires Inv(k, Floating(k)) && k.current.Some? && p < |k.pcb| && !Free(k, p)
    requires call.TerminateProcess? && call.pid.Some? ==> call.pid.value < |k.pcb|
    requires call.SpecPassUp? ==> k.current != Some(p)
    ensures Lasts(k, DoSyscall(k, call, s), p)
  {
    hide Inv, Served, Resume, HandleException, DoSyscall;
    SyscallForm(k, call, s);
    if call.OtherCall? {
      ExceptionLasts(k, 0, s, p);
    } else {
      ServedLasts(k, call, s, p);
      ResumeLasts(Served(k, call, s), false, Answer(k, call, s), p);
    }
  }

  /** No step but its own SPECPASSUP changes the registrations or the original priority of a live process. */
  lemma StepLasts(target: Target, k: State, e: Event, p: Pid)
    requires KernelInv(k) && Enabled(k, e) && p < |k.pcb| && !Free(k, p) && !Registers(k, e, p)
    ensures Lasts(k, Step(target, k, e), p)
  {
    Semaphores.EntryQuiet(k, e.delays, User(0));
    hide Inv, KernelInv, AccountTime, Resume, DoSyscall, HandleException, UnblockAll, AllDone;
    var k0 := k.(delays := e.delays);
    var k1 := AccountTime(k0, false);
    AccountLasts(k0, false, p);
    assert Free(k1, p) <==> Free(k, p);
    match e.entry {
      case Syscall(call) =>
        SyscallLasts(k1, call, SyscallContext(target, e.saved), p);
      case Breakpoint =>
        ResumeLasts(k1, false, e.saved, p);
      case Trap(kind) =>
        ExceptionLasts(k0, kind, e.saved, p);
      case Interrupt(timer, _, _, _, _, _) =>
        UnblockAllLasts(k1, Floating(k), AllDone(e.entry), p);
        ResumeLasts(UnblockAll(k1, AllDone(e.entry)), timer, InterruptContext(target, e.saved), p);
    }
  }

  // ----- a registration and the exceptions after it

  ghost predicate Registered(k: State, p: Pid, kind: nat, o: nat, n: nat) {
    p < |k.pcb| && Area(k.pcb[p].newAreas, kind) == n && Area(k.pcb[p].oldAreas, kind) == o
  }

  /** A handler stays registered through every step that its process survives. */
  lemma StepRegistered(target: Target, k: State, e: Event, p: Pid, kind: nat, o: nat, n: nat)
    requires KernelInv(k) && Enabled(k, e) && Registered(k, p, kind, o, n) && n != 0
    requires !Free(k, p) && !Free(Step(target, k, e), p)
    ensures Registered(Step(target, k, e), p, kind, o, n)
  {
    hide KernelInv, Step, Enabled;
    if !Registers(k, e, p) {
      StepLasts(target, k, e, p);
    } else {
      var call := e.entry.call;
      if Area(k.pcb[p].newAreas, call.kind) == 0 {
        Calls.SpecPassUpRegisters(target, k, e, call.kind, call.oldArea, call.newArea, p);
      } else {
        Calls.SpecPassUpTwice(target, k, e, call.kind, call.oldArea, call.newArea, p);
        Itself(k.pcb, p);
      }
    }
  }

  lemma Itself(pcb: seq<Pcb>, p: Pid)
    ensures Descends(pcb, p, p)
  {
    assert Up(pcb, p, 0) == Some(p);
  }

  /** `p` is alive in every state of the run. */
  ghost predicate Survives(target: Target, k: State, es: seq<Event>, p: Pid)
    decreases |es|
  {
    !Free(k, p) && (es == [] || Survives(target, Step(target, k, es[0]), es[1..], p))
  }

  lemma {:induction false} StaysRegistered(target: Target, k: State, es: seq<Event>, p: Pid, kind: nat, o: nat, n: nat)
    requires KernelInv(k) && EnabledRun(target, k, es) && Survives(target, k, es, p)
    requires Registered(k, p, kind, o, n) && n != 0
    ensures Registered(RunSteps(target, k, es), p, kind, o, n)
    decreases |es|
  {
    if es != [] {
      hide KernelInv, Step, Enabled, Registered;
      StepInv(target, k, es[0]);
      StepRegistered(target, k, es[0], p, kind, o, n);
      StaysRegistered(target, Step(target, k, es[0]), es[1..], p, kind, o, n);
    }
  }

  /**
   The round trip of SPECPASSUP.  `p` registers areas `o` and `n` for a kind of exception,
   survives any run `es`, and then raises an exception of that kind: the kernel passes it
   up to area `n` with the state at the exception in area `o`.
   */
  lemma PassUpRoundTrip(target: Target, k: State, e0: Event, kind: nat, o: nat, n: nat, es: seq<Event>,
                        e1: Event, p: Pid)
    requires KernelInv(k) && Enabled(k, e0) && k.current == Some(p) && e0.entry == Syscall(SpecPassUp(kind, o, n))
    requires p < |k.pcb| && Area(k.pcb[p].newAreas, kind) == 0 && n != 0
    requires var k0 := Step(target, k, e0); EnabledRun(target, k0, es) && Survives(target, k0, es, p)
    requires RunSteps(target, Step(target, k, e0), es).current == Some(p) && Raises(e1) == Some(kind)
    ensures var k1 := RunSteps(target, Step(target, k, e0), es); var k' := Step(target, k1, e1);
            k'.cpu == PassedUp(n) && k'.current == Some(p) && k'.areas == k1.areas[o := EntryState(target, e1)]
  {
    hide KernelInv, Step, Enabled, EntryState;
    var k0 := Step(target, k, e0);
    StepInv(target, k, e0);
    Calls.SpecPassUpRegisters(target, k, e0, kind, o, n, p);
    StaysRegistered(target, k0, es, p, kind, o, n);
    var k1 := RunSteps(target, k0, es);
    RunStepsInv(target, k0, es);
    StepPassesUp(target, k1, e1, p);
  }
}
