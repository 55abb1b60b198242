/**
 A process leaves the processor and comes back: what is loaded when it runs again is
 the state it last entered the kernel with, or the state it was created with.
 */
module RoundTrips {
  import opened Sequences
  import opened KernelState
  import opened KernelSteps
  import opened Invariants
  import opened ActiveSemaphores
  import opened KernelRuns
  import opened Contexts
  import Semaphores
  import Waiting
  import Wakeups

  // ----- how a step can take the processor away

  /** `p` is alive, and either somebody else is current or `p` has been dispatched anew. */
  ghost predicate Parted(k: State, p: Pid) {
    !Free(k, p) && (k.current != Some(p) || k.cpu.Running?)
  }

  /** After a handler that left `p` current or killed it, `scheduler_resume` does not park `p`. */
  lemma NotParted(k: State, s: Context, p: Pid)
    requires k.current == Some(p) || Free(k, p)
    ensures !Parted(Resume(k, false, s), p)
  {
    if Free(k, p) {
      Wakeups.ResumeFree(k, false, s);
    } else {
      hide AccountTime;
    }
  }

  lemma DiesHere(k: State, p: Pid)
    requires Inv(k, {p}) && k.current == Some(p)
    ensures Free(KillProcess(k, p), p)
  {
    CurrentLive(k, p);
    hide Inv, KillProcess;
    KillsDescendants(k, p, p);
    assert Up(k.pcb, p, 0) == Some(p);
  }

  /** The calls that block. */
  predicate Blocks(k: State, call: Call) {
    call.WaitIo? || (call.Passeren? && Word(k, call.key) == 0)
  }

  lemma ServedKeepsOrKills(k: State, call: Call, s: Context, p: Pid)
    requires Inv(k, {p}) && k.current == Some(p) && !Blocks(k, call)
    ensures Served(k, call, s).current == Some(p) || Free(Served(k, call, s), p)
  {
    hide Inv, AccountTime, AllocPcb, EnqueueProcess, RemoveBlocked, KillProcess, Raised, Waiters;
    match call {
      case TerminateProcess(pid) =>
        KillCurrent(k, Victim(k, pid));
        if Victim(k, pid) == p {
          DiesHere(k, p);
        }
      case SpecPassUp(_, _, _) =>
        DiesHere(k, p);
      case _ =>
    }
  }

  lemma BlockedAway(k: State, key: Key, s: Context, p: Pid)
    requires Inv(k, {p}) && k.current == Some(p)
    ensures var k' := BlockCurrent(k, key, s); k'.current == None && !Free(k', p) && !On(k'.queues, Ready, p)
  {
    CurrentLive(k, p);
    hide AccountTime, SaveContext, InsertBlocked;
    var k1 := SaveContext(k, p, s);
    var k2 := AccountTime(k1, true);
    SaveContextInv(k, {p}, p, s);
    AccountInv(k1, {p}, true);
    InsertBlockedInv(k2, {p}, key, p);
    assert !On(k.queues, Ready, p);
  }

  lemma OthersRun(k: State, s: Context, p: Pid)
    requires k.current == None && !On(k.queues, Ready, p) && !Free(k, p)
    ensures Parted(Resume(k, false, s), p)
  {
    Wakeups.ResumeFree(k, false, s);
    if Queue(k, Ready) != [] {
      assert On(k.queues, Ready, Queue(k, Ready)[0]);
      RunCurrent(k);
    }
    hide Run;
  }

  lemma RunCurrent(k: State)
    requires Queue(k, Ready) != []
    ensures Run(k).current == Some(Queue(k, Ready)[0])
  {
    hide Activation, RemoveFromQueue;
  }

  lemma EntryInv(k: State, delays: seq<nat>, p: Pid)
    requires KernelInv(k) && k.current == Some(p)
    ensures var k1 := AccountTime(k.(delays := delays), false);
            && Inv(k1, {p}) && k1.current == Some(p) && k1.words == k.words
            && p < |k1.pcb| == |k.pcb| && k1.pcb[p].semKey == None
  {
    CurrentLive(k, p);
    AlikeInv(k, k.(delays := delays), {p});
    AccountInv(k.(delays := delays), {p}, false);
    hide AccountTime;
  }

  lemma SyscallParts(k: State, call: Call, s: Context, p: Pid)
    requires Inv(k, {p}) && k.current == Some(p) && !call.OtherCall?
    ensures Parted(DoSyscall(k, call, s), p) <==> Blocks(k, call)
  {
    hide Inv, BlockCurrent, Resume, Served, Parted;
    if Blocks(k, call) {
      var key := if call.Passeren? then call.key else DeviceKey(call.dev, call.reception);
      BlocksForm(k, call, key, s);
      BlockedAway(k, key, s, p);
      OthersRun(BlockCurrent(k, key, s), s, p);
    } else {
      ServedKeepsOrKills(k, call, s, p);
      NotParted(Served(k, call, s), Answer(k, call, s), p);
    }
  }

  lemma InterruptParts(k: State, cs: seq<Completion>, timer: bool, s: Context, p: Pid)
    requires Inv(k, {p}) && k.current == Some(p)
    ensures Parted(Resume(UnblockAll(k, cs), timer, s), p) <==> timer
  {
    UnblockAllInv(k, {p}, cs);
    var k1 := UnblockAll(k, cs);
    CurrentLive(k1, p);
    hide Inv, UnblockAll, Resume;
    UnblockAllCurrent(k, cs);
    if timer {
      Waiting.ExpiryRuns(k1, s);
      Wakeups.ResumeFree(k1, true, s);
    } else {
      NotParted(k1, s, p);
    }
  }

  lemma ExceptionParts(target: Target, k: State, e: Event, p: Pid)
    requires KernelInv(k) && k.current == Some(p) && Raises(e).Some?
    ensures !Parted(Step(target, k, e), p)
  {
    hide KernelInv, Step;
    StepPassesUp(target, k, e, p);
    assert Up(k.pcb, p, 0) == Some(p);
  }

  /**
   A step takes the processor from its process and lets it live exactly when it is a
   blocking call or the end of its slice.
   */
  lemma ParksIff(target: Target, k: State, e: Event, p: Pid)
    requires KernelInv(k) && k.current == Some(p)
    ensures Parks(k, e) <==> Parted(Step(target, k, e), p)
  {
    hide KernelInv, Inv, AccountTime, UnblockAll, Resume, AllDone, DoSyscall, HandleException, Parted;
    EntryInv(k, e.delays, p);
    var k1 := AccountTime(k.(delays := e.delays), false);
    match e.entry {
      case Syscall(call) =>
        if call.OtherCall? {
          ExceptionParts(target, k, e, p);
        } else {
          SyscallParts(k1, call, SyscallContext(target, e.saved), p);
        }
      case Breakpoint =>
        NotParted(k1, e.saved, p);
      case Trap(_) =>
        ExceptionParts(target, k, e, p);
      case Interrupt(timer, _, _, _, _, _) =>
        InterruptParts(k1, AllDone(e.entry), timer, InterruptContext(target, e.saved), p);
    }
  }

  lemma GoesOnOrDies(k: State, s: Context, p: Pid)
    requires k.current == Some(p) || Free(k, p)
    ensures Resume(k, false, s).cpu.Resumed? || Free(Resume(k, false, s), p)
  {
    if Free(k, p) {
      Wakeups.ResumeFree(k, false, s);
    } else {
      hide AccountTime;
    }
  }

  /** A step that neither parks its process nor raises an exception returns to it or kills it. */
  lemma ReturnsOrKills(target: Target, k: State, e: Event, p: Pid)
    requires KernelInv(k) && k.current == Some(p) && !Parks(k, e) && Raises(e) == None
    ensures Step(target, k, e).cpu.Resumed? || Free(Step(target, k, e), p)
  {
    hide KernelInv, Inv, AccountTime, UnblockAll, Resume, AllDone, Served, HandleException, Free;
    EntryInv(k, e.delays, p);
    var k1 := AccountTime(k.(delays := e.delays), false);
    match e.entry {
      case Syscall(call) =>
        var s := SyscallContext(target, e.saved);
        ServedKeepsOrKills(k1, call, s, p);
        GoesOnOrDies(Served(k1, call, s), Answer(k1, call, s), p);
      case Breakpoint =>
        GoesOnOrDies(k1, e.saved, p);
      case Interrupt(_, _, _, _, _, _) =>
        UnblockAllCurrent(k1, AllDone(e.entry));
        GoesOnOrDies(UnblockAll(k1, AllDone(e.entry)), InterruptContext(target, e.saved), p);
    }
  }

  // ----- what a parked process waits for

  /** The semaphore a blocking call waits on. */
  function WaitsFor(e: Event): Option<Key> {
    match e.entry
    case Syscall(Passeren(key)) => Some(key)
    case Syscall(WaitIo(dev, reception)) => Some(DeviceKey(dev, reception))
    case _ => None
  }

  lemma BlockKey(k: State, key: Key, s: Context, p: Pid)
    requires Inv(k, {p}) && k.current == Some(p)
    ensures var k' := Resume(BlockCurrent(k, key, s), false, s);
            p < |k'.pcb| && (k'.pcb[p].semKey == None || k'.pcb[p].semKey == Some(key))
  {
    CurrentLive(k, p);
    hide Inv, AccountTime, SaveContext, InsertBlocked, Resume;
    var k1 := SaveContext(k, p, s);
    var k2 := AccountTime(k1, true);
    SaveContextInv(k, {p}, p, s);
    AccountInv(k1, {p}, true);
    Semaphores.BlockedKeys(k2, {p}, key, p);
    ResumeUntouched(BlockCurrent(k, key, s), false, s, p);
  }

  lemma ExpiryKey(k: State, s: Context, p: Pid)
    requires p < |k.pcb| && k.current == Some(p) && k.pcb[p].semKey == None
    ensures p < |Resume(k, true, s).pcb| && Resume(k, true, s).pcb[p].semKey == None
  {
    hide AccountTime, Dispatch, EnqueueProcess;
    var k2 := SaveContext(Aging(AccountTime(k, true)), p, s);
    assert k2.pcb[p].semKey == None;
    hide Aging, SaveContext;
    EnqueueUntouched(k2, p, p);
    DispatchUntouched(EnqueueProcess(k2, p), p);
  }

  lemma ParkedKey(target: Target, k: State, e: Event, p: Pid)
    requires KernelInv(k) && k.current == Some(p) && Parks(k, e)
    ensures var k' := Step(target, k, e); p < |k'.pcb| && (k'.pcb[p].semKey == None || k'.pcb[p].semKey == WaitsFor(e))
  {
    hide KernelInv, Inv, AccountTime, UnblockAll, Resume, AllDone, DoSyscall, BlockCurrent;
    EntryInv(k, e.delays, p);
    var k1, s := AccountTime(k.(delays := e.delays), false), EntryState(target, e);
    match e.entry {
      case Syscall(call) =>
        BlocksForm(k1, call, WaitsFor(e).value, s);
        BlockKey(k1, WaitsFor(e).value, s, p);
      case Interrupt(_, _, _, _, _, _) =>
        UnblockAllCarried(k1, {p}, AllDone(e.entry), p);
        UnblockAllCurrent(k1, AllDone(e.entry));
        ExpiryKey(UnblockAll(k1, AllDone(e.entry)), s, p);
    }
  }

  // ----- there and back again

  /** `s` is `s0`, or `s0` with the status of a completion in `cs` for `key` as return value. */
  ghost predicate UpToReport(s: Context, s0: Context, key: Option<Key>, cs: seq<Completion>) {
    s == s0 || exists c :: c in cs && key == Some(c.key) && s == s0.(ret := c.status)
  }

  lemma CarriedReport(k: State, k': State, p: Pid, key: Option<Key>, cs: seq<Completion>)
    requires Carried(k, k', p, cs) && (k.pcb[p].semKey == None || k.pcb[p].semKey == key)
    ensures UpToReport(k'.pcb[p].ps, k.pcb[p].ps, key, cs)
  {
  }

  /** What is loaded when a parked process runs again is its saved state, carried over the run. */
  lemma NextLoad(target: Target, k: State, es: seq<Event>, e: Event, p: Pid)
    requires KernelInv(k) && EnabledRun(target, k, es) && Parked(target, k, es, p) && p < |k.pcb|
    requires var k1 := RunSteps(target, k, es);
             && Enabled(k1, e) && !Free(k1, p) && k1.current != Some(p)
             && Step(target, k1, e).cpu.Running? && Step(target, k1, e).cpu.pid == p
    ensures var k' := Step(target, RunSteps(target, k, es), e);
            Carried(k, k', p, AllReported(es) + DoneBy(e)) && k'.cpu.s == k'.pcb[p].ps
  {
    hide KernelInv, Step, Enabled, Free, DoneBy;
    RunStepsInv(target, k, es);
    ContextPreserved(target, k, es, p);
    var k1 := RunSteps(target, k, es);
    StepCarries(target, k1, e, p);
    StepLoads(target, k1, e);
    CarriedTrans(k, k1, Step(target, k1, e), p, AllReported(es), DoneBy(e));
  }

  /**
   Context preservation over a whole absence.  `p` enters the kernel with `e0`, leaves
   the processor alive, is parked over `es`, and `e1` dispatches it: what is loaded is
   the state it entered with at `e0`, up to the status of a completion it waited for.
   */
  lemma RoundTrip(target: Target, k: State, e0: Event, es: seq<Event>, e1: Event, p: Pid)
    requires KernelInv(k) && k.current == Some(p) && Enabled(k, e0)
    requires var k0 := Step(target, k, e0);
             k0.current != Some(p) && EnabledRun(target, k0, es) && Parked(target, k0, es, p)
    requires var k1 := RunSteps(target, Step(target, k, e0), es);
             && !Free(k1, p) && k1.current != Some(p)
             && Enabled(k1, e1) && Step(target, k1, e1).cpu.Running? && Step(target, k1, e1).cpu.pid == p
    ensures var k' := Step(target, RunSteps(target, Step(target, k, e0), es), e1);
            UpToReport(k'.cpu.s, EntryState(target, e0), WaitsFor(e0), AllReported(es) + DoneBy(e1))
  {
    hide KernelInv, Step, Enabled, DoneBy, Carried, UpToReport;
    var k0 := Step(target, k, e0);
    StepInv(target, k, e0);
    ParksIff(target, k, e0, p);
    StepSaves(target, k, e0);
    ParkedKey(target, k, e0, p);
    NextLoad(target, k0, es, e1, p);
    CarriedReport(k0, Step(target, RunSteps(target, k0, es), e1), p, WaitsFor(e0), AllReported(es) + DoneBy(e1));
  }

  /** The same when the slice ends and the process is dispatched again at once. */
  lemma AtOnce(target: Target, k: State, e: Event, p: Pid)
    requires KernelInv(k) && k.current == Some(p) && Enabled(k, e)
    requires Step(target, k, e).cpu.Running? && Step(target, k, e).cpu.pid == p
    ensures Step(target, k, e).cpu.s == EntryState(target, e)
  {
    hide Step, Enabled;
    StepInv(target, k, e);
    StepLoads(target, k, e);
    CurrentLive(Step(target, k, e), p);
    hide KernelInv, Inv;
    ParksIff(target, k, e, p);
    StepSaves(target, k, e);
  }

  lemma CreatedKey(target: Target, k: State, e: Event)
    requires KernelInv(k) && Enabled(k, e) && Queue(k, PcbFree) != []
    requires e.entry.Syscall? && e.entry.call.CreateProcess?
    ensures var p, k' := Queue(k, PcbFree)[0], Step(target, k, e); p < |k'.pcb| && k'.pcb[p].semKey == None
  {
    var p, c := Queue(k, PcbFree)[0], k.current.value;
    assert On(k.queues, PcbFree, p);
    EntryInv(k, e.delays, c);
    var call, s := e.entry.call, SyscallContext(target, e.saved);
    hide KernelInv, Inv, AccountTime, Create, Resume;
    var k1 := AccountTime(k.(delays := e.delays), false);
    CreateForm(k1, call, s);
    NewKey(k1, call.start, call.priority, p);
    ResumeUntouched(Create(k1, call.start, call.priority), false, Answer(k1, call, s), p);
  }

  lemma NewKey(k: State, start: Context, priority: int, p: Pid)
    requires k.current.Some? && Queue(k, PcbFree) != [] && p == Queue(k, PcbFree)[0] && p < |k.pcb|
    ensures var k' := Create(k, start, priority); p < |k'.pcb| && k'.pcb[p].semKey == None
  {
    var k1 := AllocPcb(k);
    assert k1.pcb[p] == ZERO_PCB;
    hide AllocPcb, EnqueueProcess, Raised;
    EnqueueUntouched(SetProc(k1, p, Proc(k1, p).(ps := start, originalPriority := priority)), p, p);
  }

  /** A process that is created at `e0` and first dispatched at `e1` starts in exactly the state its parent gave. */
  lemma FirstRun(target: Target, k: State, e0: Event, es: seq<Event>, e1: Event)
    requires KernelInv(k) && Enabled(k, e0) && Queue(k, PcbFree) != []
    requires e0.entry.Syscall? && e0.entry.call.CreateProcess?
    requires var p, k0 := Queue(k, PcbFree)[0], Step(target, k, e0);
             && EnabledRun(target, k0, es) && Parked(target, k0, es, p)
             && var k1 := RunSteps(target, k0, es);
                && !Free(k1, p) && k1.current != Some(p)
                && Enabled(k1, e1) && Step(target, k1, e1).cpu.Running? && Step(target, k1, e1).cpu.pid == p
    ensures Step(target, RunSteps(target, Step(target, k, e0), es), e1).cpu.s == e0.entry.call.start
  {
    hide KernelInv, Step, Enabled, DoneBy, Carried, UpToReport;
    var p, k0 := Queue(k, PcbFree)[0], Step(target, k, e0);
    StepInv(target, k, e0);
    StepCreates(target, k, e0);
    CreatedKey(target, k, e0);
    NextLoad(target, k0, es, e1, p);
    CarriedReport(k0, Step(target, RunSteps(target, k0, es), e1), p, None, AllReported(es) + DoneBy(e1));
    NoReport(Step(target, RunSteps(target, k0, es), e1).cpu.s, e0.entry.call.start, AllReported(es) + DoneBy(e1));
  }

  lemma NoReport(s: Context, s0: Context, cs: seq<Completion>)
    requires UpToReport(s, s0, None, cs)
    ensures s == s0
  {
  }
}
