/**
 Who is charged for what.  Over a step that returns to its program, the time since the
 program was last entered goes to the user and the time inside the kernel to the kernel.
 */
module Charges {
  import opened Sequences
  import opened KernelState
  import opened KernelSteps
  import opened Invariants
  import opened ActiveSemaphores
  import opened Termination
  import opened ProcessTree
  import opened KernelRuns
  import opened Timekeeping
  import Contexts
  import Semaphores
  import RoundTrips
  import Registrations

  // ----- one accounting

  /** The i-th move of the clock in a step, and those from the i-th on. */
  function Delay(d: seq<nat>, i: nat): nat {
    if i < |d| then d[i] else 0
  }

  function From(d: seq<nat>, i: nat): seq<nat> {
    if i <= |d| then d[i..] else []
  }

  lemma DelayFrom(d: seq<nat>, i: nat, j: nat)
    ensures Delay(From(d, i), j) == Delay(d, i + j) && From(From(d, i), j) == From(d, i + j)
  {
  }

  /** The first of the two readings charges; the ticks up to the second go to nobody. */
  lemma AccountExact(k: State, kernel: bool, p: Pid)
    requires TimeInv(k) && k.current == Some(p)
    requires k.now + Delay(k.delays, 0) - k.ledger.switchAt < WORD && k.now + Delay(k.delays, 0) < DOUBLE_WORD
    ensures var k' := AccountTime(k, kernel); var dt := k.now + Delay(k.delays, 0) - k.ledger.switchAt;
            && p < |k.pcb| == |k'.pcb| && k'.now == k.now + Delay(k.delays, 0) + Delay(k.delays, 1)
            && k'.delays == From(k.delays, 2)
            && k'.pcb[p].userTm == k.pcb[p].userTm + (if kernel then 0 else dt)
            && k'.pcb[p].kernelTm == k.pcb[p].kernelTm + (if kernel then dt else 0)
  {
    hide TimeInv, Charge, Delay, From;
    TickExact(k);
    ChargeExact(k, kernel, p);
    ChargeMoves(k, kernel, p);
    var k1 := Charge(k, kernel);
    TickExact(k1);
    DelayFrom(k.delays, 1, 0);
    DelayFrom(k.delays, 1, 1);
  }

  lemma TickExact(k: State)
    ensures Tick(k).now == k.now + Delay(k.delays, 0) && Tick(k).delays == From(k.delays, 1)
  {
  }

  lemma ChargeMoves(k: State, kernel: bool, p: Pid)
    requires k.current == Some(p)
    ensures Charge(k, kernel).now == Tick(k).now && Charge(k, kernel).delays == Tick(k).delays
  {
  }

  // ----- what does not read the clock

  ghost predicate SameClock(k: State, k': State, p: Pid) {
    && k'.now == k.now && k'.delays == k.delays && k'.ledger.switchAt == k.ledger.switchAt
    && p < |k.pcb| == |k'.pcb|
    && k'.pcb[p].userTm == k.pcb[p].userTm && k'.pcb[p].kernelTm == k.pcb[p].kernelTm
  }

  lemma EnqueueClock(k: State, q: Pid, p: Pid)
    requires p < |k.pcb|
    ensures SameClock(k, EnqueueProcess(k, q), p)
  {
    hide InsertInQueue;
  }

  lemma WakeClock(k: State, fl: set<Pid>, key: Key, p: Pid)
    requires Inv(k, fl) && Waiters(k, key) != [] && p < |k.pcb|
    ensures SameClock(k, EnqueueProcess(RemoveBlocked(k, key), Waiters(k, key)[0]), p)
  {
    hide Inv, RemoveBlocked, EnqueueProcess, Waiters;
    Semaphores.WokenKeys(k, fl, key);
    EnqueueClock(RemoveBlocked(k, key), Waiters(k, key)[0], p);
  }

  lemma VerhogenClock(k: State, key: Key, p: Pid)
    requires Inv(k, Floating(k)) && k.current.Some? && p < |k.pcb|
    ensures SameClock(k, DoVerhogen(k, key), p)
  {
    hide Inv, RemoveBlocked, EnqueueProcess, Waiters;
    if Waiters(k, key) != [] {
      WakeClock(k, Floating(k), key, p);
    }
  }

  lemma UnblockClock(k: State, fl: set<Pid>, c: Completion, p: Pid)
    requires Inv(k, fl) && p < |k.pcb|
    ensures SameClock(k, Unblock(k, c), p)
  {
    hide Inv, RemoveBlocked, EnqueueProcess, Waiters;
    if Waiters(k, c.key) != [] {
      WakeClock(k, fl, c.key, p);
    }
  }

  lemma {:induction false} UnblockAllClock(k: State, fl: set<Pid>, cs: seq<Completion>, p: Pid)
    requires Inv(k, fl) && p < |k.pcb|
    ensures SameClock(k, UnblockAll(k, cs), p)
    decreases |cs|
  {
    hide Inv, Unblock;
    if cs != [] {
      UnblockClock(k, fl, cs[0], p);
      UnblockInv(k, fl, cs[0]);
      UnblockAllClock(Unblock(k, cs[0]), fl, cs[1..], p);
    }
  }

  lemma CreateClock(k: State, start: Context, priority: int, p: Pid)
    requires k.current.Some? && p < |k.pcb| && !Free(k, p)
    ensures SameClock(k, Create(k, start, priority), p)
  {
    if Queue(k, PcbFree) != [] {
      var q := Queue(k, PcbFree)[0];
      assert Free(k, q);
      Contexts.AllocOthers(k, q, p);
      AllocClock(k);
      hide AllocPcb, EnqueueProcess, Raised;
      var k1 := AllocPcb(k);
      EnqueueClock(SetProc(k1, q, Proc(k1, q).(ps := start, originalPriority := priority)), q, p);
    }
  }

  lemma AllocClock(k: State)
    ensures AllocPcb(k).ledger.switchAt == k.ledger.switchAt
  {
  }

  lemma KillClock(k: State, v: Pid, p: Pid)
    requires Inv(k, Floating(k)) && k.current.Some? && v < |k.pcb| && !Free(k, v) && p < |k.pcb|
    ensures SameClock(k, KillProcess(k, v), p)
  {
    var q := k.current.value;
    var k1 := if k.current == Some(v) then k.(current := None) else k;
    AlikeInv(k, k1, {q});
    hide Inv, KillTree, Removed;
    KillTreeTheorem(k1, {q}, v);
    RemovedClock(k1, KillTree(k1, v), Post(k1.children, k1.ledger.rank, v), p);
  }

  lemma RemovedClock(k: State, k': State, ds: seq<Pid>, p: Pid)
    requires Removed(k, k', ds) && p < |k.pcb|
    ensures SameClock(k, k', p)
  {
  }

  /** A handler that leaves the caller current reads the clock only for GETCPUTIME. */
  lemma ServedClock(k: State, call: Call, s: Context, p: Pid)
    requires Inv(k, {p}) && k.current == Some(p) && call != GetCpuTime && Served(k, call, s).current == Some(p)
    requires call.TerminateProcess? && call.pid.Some? ==> call.pid.value < |k.pcb|
    ensures SameClock(k, Served(k, call, s), p)
  {
    CurrentLive(k, p);
    hide Inv, KillProcess, Create, DoVerhogen, AccountTime, SaveContext, InsertBlocked;
    match call {
      case CreateProcess(start, priority) => CreateClock(k, start, priority, p);
      case TerminateProcess(pid) =>
        if Victim(k, pid) !in Queue(k, PcbFree) {
          KillClock(k, Victim(k, pid), p);
        }
      case Verhogen(key) => VerhogenClock(k, key, p);
      case SpecPassUp(_, _, _) => KillClock(k, p, p);
      case _ =>
    }
  }

  // ----- a pass through the kernel

  /** The end of the pass: the rest of the time in the kernel is charged to it. */
  lemma ResumeCharges(k: State, s: Context, p: Pid)
    requires TimeInv(k) && k.current == Some(p)
    requires k.now + Delay(k.delays, 0) - k.ledger.switchAt < WORD && k.now + Delay(k.delays, 0) < DOUBLE_WORD
    ensures var k' := Resume(k, false, s); var dt := k.now + Delay(k.delays, 0) - k.ledger.switchAt;
            && p < |k.pcb| == |k'.pcb|
            && k'.ledger.switchAt == k'.now == k.now + Delay(k.delays, 0) + Delay(k.delays, 1)
            && k'.pcb[p].userTm == k.pcb[p].userTm && k'.pcb[p].kernelTm == k.pcb[p].kernelTm + dt
  {
    hide AccountTime, TimeInv;
    AccountExact(k, true, p);
  }

  /** The handler between entry and exit: the clock stands where the entry accounting left it. */
  lemma Handled(target: Target, k: State, e: Event, p: Pid) returns (k2: State, s: Context)
    requires KernelInv(k) && TimeInv(k) && Enabled(k, e) && k.current == Some(p) && Step(target, k, e).cpu.Resumed?
    requires e.entry != Syscall(GetCpuTime)
    ensures var k1 := AccountTime(k.(delays := e.delays), false);
            && TimeInv(k2) && k2.current == Some(p) && SameClock(k1, k2, p)
            && Step(target, k, e) == Resume(k2, false, s)
  {
    hide KernelInv, Inv, TimeInv, SameTimes, AccountTime, Served;
    hide Resume, HandleException, UnblockAll, AllDone, AllAwaited;
    EntryTimes(k, e.delays, p);
    var k1 := AccountTime(k.(delays := e.delays), false);
    k2, s := k1, e.saved;
    match e.entry {
      case Syscall(call) =>
        s := SyscallContext(target, e.saved);
        Contexts.ExceptionCpu(k1, 0, s);
        Contexts.ResumeCpu(Served(k1, call, s), Answer(k1, call, s));
        Contexts.ServedCurrent(k1, call, s);
        if call.TerminateProcess? && call.pid.Some? {
          AncestorFrame(k.pcb, k1.pcb, call.pid.value, p);
        }
        ServedClock(k1, call, s, p);
        ServedTimes(k1, call, s);
        k2, s := Served(k1, call, s), Answer(k1, call, s);
      case Breakpoint =>
      case Trap(kind) =>
        Contexts.ExceptionCpu(k.(delays := e.delays), kind, e.saved);
      case Interrupt(timer, _, _, _, _, _) =>
        k2, s := UnblockAll(k1, AllDone(e.entry)), InterruptContext(target, e.saved);
        Contexts.UnblockAllCurrent(k1, AllDone(e.entry));
        Contexts.ExpiryCpu(k2, s);
        UnblockAllClock(k1, {p}, AllDone(e.entry), p);
        UnblockAllSame(k1, {p}, AllDone(e.entry));
        SameTimesKeeps(k1, k2);
    }
  }

  lemma EntryTimes(k: State, delays: seq<nat>, p: Pid)
    requires KernelInv(k) && TimeInv(k) && k.current == Some(p)
    ensures var k0 := k.(delays := delays); var k1 := AccountTime(k0, false);
            TimeInv(k0) && TimeInv(k1) && Inv(k1, {p}) && k1.current == Some(p) && p < |k.pcb| == |k1.pcb|
  {
    CurrentLive(k, p);
    var k0 := k.(delays := delays);
    AlikeInv(k, k0, {p});
    hide Inv, AccountTime, TimeInv, SameTimes;
    PlainSameTimes(k, k0);
    SameTimesKeeps(k, k0);
    AccountTimes(k0, false);
    AccountInv(k0, {p}, false);
  }

  /** Moves of the clock inside the kernel that are charged to it. */
  function Inside(e: Event): nat {
    Delay(e.delays, 2) + (if e.entry == Syscall(GetCpuTime) then Delay(e.delays, 4) else 0)
  }

  /** All moves of the clock in a pass; GETCPUTIME does a third accounting. */
  function Passed(e: Event): nat {
    Delay(e.delays, 0) + Delay(e.delays, 1) + Delay(e.delays, 2) + Delay(e.delays, 3)
    + (if e.entry == Syscall(GetCpuTime) then Delay(e.delays, 4) + Delay(e.delays, 5) else 0)
  }

  /** Every interval that is measured stays below 2^32 ticks, and the clock below 2^64. */
  ghost predicate Brief(k: State, e: Event) {
    && k.now + Delay(e.delays, 0) - k.ledger.switchAt < WORD
    && Delay(e.delays, 2) < WORD && (e.entry == Syscall(GetCpuTime) ==> Delay(e.delays, 4) < WORD)
    && k.now + Passed(e) < DOUBLE_WORD
  }

  /** What the pass charges to `p`. */
  ghost predicate PassCharged(k: State, k': State, e: Event, p: Pid) {
    && p < |k.pcb| == |k'.pcb| && k'.ledger.switchAt == k'.now == k.now + Passed(e)
    && k'.pcb[p].userTm == k.pcb[p].userTm + (k.now + Delay(e.delays, 0) - k.ledger.switchAt)
    && k'.pcb[p].kernelTm == k.pcb[p].kernelTm + Inside(e)
  }

  lemma GetCpuTimeCharges(target: Target, k: State, e: Event, p: Pid)
    requires KernelInv(k) && TimeInv(k) && k.current == Some(p) && e.entry == Syscall(GetCpuTime) && Brief(k, e)
    ensures PassCharged(k, Step(target, k, e), e, p)
  {
    hide KernelInv, Inv, TimeInv, AccountTime, Resume, HandleException;
    EntryTimes(k, e.delays, p);
    var k0 := k.(delays := e.delays);
    var k1 := AccountTime(k0, false);
    AccountExact(k0, false, p);
    DelayFrom(e.delays, 2, 0);
    DelayFrom(e.delays, 2, 1);
    DelayFrom(e.delays, 2, 2);
    AccountExact(k1, true, p);
    AccountTimes(k1, true);
    DelayFrom(e.delays, 4, 0);
    DelayFrom(e.delays, 4, 1);
    ResumeCharges(AccountTime(k1, true), SyscallContext(target, e.saved), p);
  }

  /**
   Over every step that returns to its program: the time since the last switch is
   charged to the user, the time inside to the kernel, and the ticks between the two
   readings of one accounting to nobody.
   */
  lemma ThroughKernel(target: Target, k: State, e: Event, p: Pid)
    requires KernelInv(k) && TimeInv(k) && Enabled(k, e) && k.current == Some(p) && Step(target, k, e).cpu.Resumed?
    requires Brief(k, e)
    ensures PassCharged(k, Step(target, k, e), e, p)
  {
    hide KernelInv, Inv, TimeInv, AccountTime, Resume, Step, Enabled;
    if e.entry == Syscall(GetCpuTime) {
      GetCpuTimeCharges(target, k, e, p);
    } else {
      EntryTimes(k, e.delays, p);
      AccountExact(k.(delays := e.delays), false, p);
      var k2, s := Handled(target, k, e, p);
      DelayFrom(e.delays, 2, 0);
      DelayFrom(e.delays, 2, 1);
      ResumeCharges(k2, s, p);
    }
  }

  // ----- every step that its process survives

  /** The charges of `p` are as they were. */
  ghost predicate SameCharges(k: State, k': State, p: Pid) {
    && p < |k.pcb| == |k'.pcb|
    && k'.pcb[p].userTm == k.pcb[p].userTm && k'.pcb[p].kernelTm == k.pcb[p].kernelTm
  }

  lemma RunCharges(k: State, p: Pid)
    requires p < |k.pcb|
    ensures SameCharges(k, Run(k), p)
  {
    hide Activation, RemoveFromQueue;
  }

  lemma DispatchCharges(k: State, p: Pid)
    requires p < |k.pcb|
    ensures SameCharges(k, Dispatch(k), p)
  {
    RunCharges(k, p);
    hide Run;
  }

  /** What a step charges to the process that enters the kernel with it. */
  function UserPart(k: State, e: Event): int {
    k.now + Delay(e.delays, 0) - k.ledger.switchAt + (if e.entry == Syscall(OtherCall) then Delay(e.delays, 2) else 0)
  }

  function KernelPart(e: Event): nat {
    if e.entry == Syscall(OtherCall) then Delay(e.delays, 4) else Inside(e)
  }

  ghost predicate StepCharged(k: State, k': State, e: Event, p: Pid) {
    && p < |k.pcb| == |k'.pcb|
    && k'.pcb[p].userTm == k.pcb[p].userTm + UserPart(k, e)
    && k'.pcb[p].kernelTm == k.pcb[p].kernelTm + KernelPart(e)
  }

  /** Every interval measured in the step stays below 2^32 ticks, and the clock below 2^64. */
  ghost predicate BriefStep(k: State, e: Event) {
    && Brief(k, e) && Delay(e.delays, 4) < WORD
    && k.now + Delay(e.delays, 0) + Delay(e.delays, 1) + Delay(e.delays, 2) + Delay(e.delays, 3) + Delay(e.delays, 4)
       < DOUBLE_WORD
  }

  /** After the entry accounting: the clock stands at the second reading, and so does the switch stamp. */
  lemma EntryCharged(k: State, e: Event, p: Pid)
    requires KernelInv(k) && TimeInv(k) && k.current == Some(p) && BriefStep(k, e)
    ensures var k1, d := AccountTime(k.(delays := e.delays), false), e.delays;
            && TimeInv(k1) && Inv(k1, {p}) && k1.current == Some(p) && p < |k.pcb| == |k1.pcb|
            && k1.now == k1.ledger.switchAt == k.now + Delay(d, 0) + Delay(d, 1) && k1.delays == From(d, 2)
            && k1.pcb[p].userTm == k.pcb[p].userTm + (k.now + Delay(d, 0) - k.ledger.switchAt)
            && k1.pcb[p].kernelTm == k.pcb[p].kernelTm
            && Delay(k1.delays, 0) == Delay(d, 2) && Delay(k1.delays, 1) == Delay(d, 3)
            && From(k1.delays, 2) == From(d, 4)
  {
    hide KernelInv, Inv, TimeInv, AccountTime;
    EntryTimes(k, e.delays, p);
    AccountExact(k.(delays := e.delays), false, p);
    DelayFrom(e.delays, 2, 0);
    DelayFrom(e.delays, 2, 1);
    DelayFrom(e.delays, 2, 2);
  }

  /** Blocking: the time up to the save is charged to the kernel. */
  lemma BlockCharges(k: State, key: Key, s: Context, p: Pid)
    requires TimeInv(k) && Inv(k, {p}) && k.current == Some(p) && k.now == k.ledger.switchAt
    requires Delay(k.delays, 0) < WORD && k.now + Delay(k.delays, 0) < DOUBLE_WORD
    ensures var k' := Resume(BlockCurrent(k, key, s), false, s);
            && p < |k.pcb| == |k'.pcb| && k'.pcb[p].userTm == k.pcb[p].userTm
            && k'.pcb[p].kernelTm == k.pcb[p].kernelTm + Delay(k.delays, 0)
  {
    CurrentLive(k, p);
    hide Inv, TimeInv, SameTimes, AccountTime, SaveContext, InsertBlocked, Dispatch;
    var k1 := SaveContext(k, p, s);
    SaveContextInv(k, {p}, p, s);
    PlainSameTimes(k, k1);
    SameTimesKeeps(k, k1);
    AccountExact(k1, true, p);
    SavedCharges(k, p, s);
    var k2 := AccountTime(k1, true);
    AccountInv(k1, {p}, true);
    Semaphores.BlockedKeys(k2, {p}, key, p);
    DispatchCharges(BlockCurrent(k, key, s), p);
  }

  lemma SavedCharges(k: State, p: Pid, s: Context)
    requires p < |k.pcb|
    ensures SameCharges(k, SaveContext(k, p, s), p)
  {
  }

  /** Preemption: the time up to the requeueing is charged to the kernel. */
  lemma ExpiryCharges(k: State, s: Context, p: Pid)
    requires TimeInv(k) && k.current == Some(p) && k.now == k.ledger.switchAt
    requires Delay(k.delays, 0) < WORD && k.now + Delay(k.delays, 0) < DOUBLE_WORD
    ensures var k' := Resume(k, true, s);
            && p < |k.pcb| == |k'.pcb| && k'.pcb[p].userTm == k.pcb[p].userTm
            && k'.pcb[p].kernelTm == k.pcb[p].kernelTm + Delay(k.delays, 0)
  {
    hide TimeInv, AccountTime, Dispatch, EnqueueProcess;
    AccountExact(k, true, p);
    var k1 := AccountTime(k, true);
    AgedCharges(k1, p, s);
    hide Aging, SaveContext;
    var k2 := SaveContext(Aging(k1), p, s);
    EnqueueClock(k2, p, p);
    DispatchCharges(EnqueueProcess(k2, p), p);
  }

  lemma AgedCharges(k: State, p: Pid, s: Context)
    requires p < |k.pcb|
    ensures SameCharges(k, SaveContext(Aging(k), p, s), p)
  {
  }

  /** Passing up: a second accounting to the user, a third to the kernel. */
  lemma PassUpCharges(k: State, kind: nat, s: Context, p: Pid)
    requires TimeInv(k) && k.current == Some(p) && p < |k.pcb| && Area(k.pcb[p].newAreas, kind) != 0
    requires k.now + Delay(k.delays, 0) - k.ledger.switchAt < WORD && Delay(k.delays, 2) < WORD
    requires k.now + Delay(k.delays, 0) + Delay(k.delays, 1) + Delay(k.delays, 2) < DOUBLE_WORD
    ensures var k' := HandleException(k, kind, s);
            && |k'.pcb| == |k.pcb|
            && k'.pcb[p].userTm == k.pcb[p].userTm + (k.now + Delay(k.delays, 0) - k.ledger.switchAt)
            && k'.pcb[p].kernelTm == k.pcb[p].kernelTm + Delay(k.delays, 2)
  {
    hide TimeInv, SameTimes, AccountTime, KillProcess, Resume;
    AccountExact(k, false, p);
    AccountTimes(k, false);
    var k1 := AccountTime(k, false);
    DelayFrom(k.delays, 2, 0);
    var k2 := k1.(areas := k1.areas[Area(k1.pcb[p].oldAreas, kind) := s]);
    PlainSameTimes(k1, k2);
    SameTimesKeeps(k1, k2);
    AccountExact(k2, true, p);
  }

  lemma ParkCharges(target: Target, k: State, e: Event, p: Pid)
    requires KernelInv(k) && TimeInv(k) && k.current == Some(p) && Contexts.Parks(k, e) && BriefStep(k, e)
    ensures StepCharged(k, Step(target, k, e), e, p)
  {
    hide KernelInv, Inv, TimeInv, SameTimes, AccountTime, Resume, DoSyscall, UnblockAll, AllDone, BlockCurrent;
    EntryCharged(k, e, p);
    Contexts.EntryContexts(target, e);
    var k1, s := AccountTime(k.(delays := e.delays), false), Contexts.EntryState(target, e);
    hide Contexts.EntryState, SyscallContext, InterruptContext;
    match e.entry {
      case Syscall(call) =>
        var key := if call.Passeren? then call.key else DeviceKey(call.dev, call.reception);
        Contexts.BlocksForm(k1, call, key, s);
        BlockCharges(k1, key, s, p);
      case Interrupt(_, _, _, _, _, _) =>
        var k2 := UnblockAll(k1, AllDone(e.entry));
        Contexts.UnblockAllCurrent(k1, AllDone(e.entry));
        UnblockAllClock(k1, {p}, AllDone(e.entry), p);
        UnblockAllSame(k1, {p}, AllDone(e.entry));
        SameTimesKeeps(k1, k2);
        ExpiryCharges(k2, s, p);
    }
  }

  lemma TrapCharges(target: Target, k: State, e: Event, kind: nat, p: Pid)
    requires KernelInv(k) && TimeInv(k) && k.current == Some(p) && e.entry == Trap(kind) && BriefStep(k, e)
    requires p < |k.pcb| && Area(k.pcb[p].newAreas, kind) != 0
    ensures StepCharged(k, Step(target, k, e), e, p)
  {
    hide KernelInv, Inv, TimeInv, SameTimes, HandleException, AccountTime;
    EntryTimes(k, e.delays, p);
    PassUpCharges(k.(delays := e.delays), kind, e.saved, p);
  }

  lemma OtherCharges(target: Target, k: State, e: Event, p: Pid)
    requires KernelInv(k) && TimeInv(k) && k.current == Some(p) && e.entry == Syscall(OtherCall) && BriefStep(k, e)
    requires p < |k.pcb| && Area(k.pcb[p].newAreas, 0) != 0
    ensures StepCharged(k, Step(target, k, e), e, p)
  {
    hide KernelInv, Inv, TimeInv, SameTimes, HandleException, AccountTime;
    EntryCharged(k, e, p);
    DelayFrom(e.delays, 2, 2);
    var k1 := AccountTime(k.(delays := e.delays), false);
    PassUpCharges(k1, 0, SyscallContext(target, e.saved), p);
  }

  /**
   Over every step that its process survives, whether it goes on, blocks, is preempted or
   has an exception passed up: the time since the last switch is charged to the user and
   the time inside to the kernel, exactly.  A call that is passed up as an exception is
   accounted twice to the user before the kernel is charged.
   */
  lemma StepCharges(target: Target, k: State, e: Event, p: Pid)
    requires KernelInv(k) && TimeInv(k) && Enabled(k, e) && k.current == Some(p) && BriefStep(k, e)
    requires !Free(Step(target, k, e), p)
    ensures StepCharged(k, Step(target, k, e), e, p)
  {
    hide KernelInv, Inv, TimeInv, Step, Enabled, Free, BriefStep;
    if Contexts.Raises(e).Some? {
      Contexts.StepPassesUp(target, k, e, p);
      Registrations.Itself(k.pcb, p);
      if e.entry.Trap? {
        TrapCharges(target, k, e, e.entry.kind, p);
      } else {
        OtherCharges(target, k, e, p);
      }
    } else if Contexts.Parks(k, e) {
      ParkCharges(target, k, e, p);
    } else {
      RoundTrips.ReturnsOrKills(target, k, e, p);
      BriefPass(k, e);
      ThroughKernel(target, k, e, p);
    }
  }

  lemma BriefPass(k: State, e: Event)
    requires BriefStep(k, e)
    ensures Brief(k, e)
  {
  }
}
