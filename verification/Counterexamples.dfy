/**
 Inputs on which the kernel does not do what one might expect of it.  The exact
 conditions are `KernelRuns.StepInvIff` and `BlockedSubtrees.DocumentedIff`.
 */
module Counterexamples {
  import opened Sequences
  import opened KernelState
  import opened KernelSteps
  import opened Invariants
  import opened KernelRuns
  import opened BlockedSubtrees

  // ----- a process terminates its parent

  const FORK := Event(Syscall(CreateProcess(ZERO_CONTEXT, 1)), ZERO_CONTEXT, [])
  const SLICE_END := Event(Interrupt(true, None, None, None, None, None), ZERO_CONTEXT, [])
  const KILL_PARENT := Event(Syscall(TerminateProcess(Some(1))), ZERO_CONTEXT, [])

  /** Booted with two PCBs: process 1 runs and PCB 0 is free. */
  lemma AfterBoot()
    ensures var k := Boot(2, ZERO_CONTEXT, map[], []);
            k.current == Some(1) && Queue(k, Ready) == [] && Queue(k, PcbFree) == [0] && |k.pcb| == 2
  {
    var k := Tables(2, map[], []);
    assert Down(1) == [0];
    assert Queue(k, PcbFree) == [1, 0];
    var k1 := AllocPcb(k);
    assert Queue(k1, PcbFree) == [0];
    var k2 := SetProc(k1, 1, Proc(k1, 1).(ps := ZERO_CONTEXT, originalPriority := DEFAULT_PRIORITY));
    assert Queue(EnqueueProcess(k2, 1), Ready) == [1];
  }

  lemma ForkCreates(k: State)
    requires k.current == Some(1) && Queue(k, Ready) == [] && Queue(k, PcbFree) == [0] && |k.pcb| == 2
    ensures var k' := Create(k, ZERO_CONTEXT, 1);
            && k'.current == Some(1) && Queue(k', Ready) == [0] && |k'.pcb| == 2
            && k'.pcb[0].parent == Some(1) && k'.pcb[0].priority == 1
            && k'.pcb[1].originalPriority == k.pcb[1].originalPriority
  {
    var k1 := AllocPcb(k);
    var k2 := SetProc(k1, 0, Proc(k1, 0).(ps := ZERO_CONTEXT, originalPriority := 1));
    assert Queue(EnqueueProcess(k2, 0), Ready) == [0];
  }

  lemma AfterFork(target: Target, k: State)
    requires k.current == Some(1) && Queue(k, Ready) == [] && Queue(k, PcbFree) == [0] && |k.pcb| == 2
    ensures var k' := Step(target, k, FORK);
            && k'.current == Some(1) && Queue(k', Ready) == [0] && |k'.pcb| == 2
            && k'.pcb[0].parent == Some(1) && k'.pcb[0].priority == 1
            && k'.pcb[1].originalPriority == k.pcb[1].originalPriority
  {
    hide AccountTime, Create;
    ForkCreates(AccountTime(k.(delays := []), false));
  }

  lemma NothingPending()
    ensures AllDone(SLICE_END.entry) == []
  {
  }

  /** The aged child stays ahead of its parent. */
  lemma Requeued(k: State, s: Context)
    requires Queue(k, Ready) == [0] && |k.pcb| == 2
    requires k.pcb[0].parent == Some(1) && k.pcb[0].priority == 1 && k.pcb[1].originalPriority == 1
    ensures var k' := EnqueueProcess(SaveContext(Aging(k), 1, s), 1);
            Queue(k', Ready) == [0, 1] && |k'.pcb| == 2 && k'.pcb[0].parent == Some(1)
  {
  }

  lemma HeadRuns(k: State)
    requires Queue(k, Ready) == [0, 1] && |k.pcb| == 2 && k.pcb[0].parent == Some(1)
    ensures var k' := Dispatch(k); k'.current == Some(0) && |k'.pcb| == 2 && k'.pcb[0].parent == Some(1)
  {
  }

  lemma AfterSlice(target: Target, k: State)
    requires k.current == Some(1) && Queue(k, Ready) == [0] && |k.pcb| == 2
    requires k.pcb[0].parent == Some(1) && k.pcb[0].priority == 1 && k.pcb[1].originalPriority == 1
    ensures var k' := Step(target, k, SLICE_END);
            k'.current == Some(0) && |k'.pcb| == 2 && k'.pcb[0].parent == Some(1)
  {
    hide AccountTime, AllDone, EnqueueProcess, SaveContext, Aging, Dispatch;
    NothingPending();
    var s := InterruptContext(target, ZERO_CONTEXT);
    var k1 := AccountTime(AccountTime(k.(delays := []), false), true);
    Requeued(k1, s);
    HeadRuns(EnqueueProcess(SaveContext(Aging(k1), 1, s), 1));
  }

  lemma TwoSteps(target: Target, k: State, e: Event, f: Event)
    requires Enabled(k, e) && Enabled(Step(target, k, e), f)
    ensures EnabledRun(target, k, [e, f]) && RunSteps(target, k, [e, f]) == Step(target, Step(target, k, e), f)
  {
    hide Step, Enabled;
    var k1 := Step(target, k, e);
    var k2 := Step(target, k1, f);
    assert [f][1..] == [] && [e, f][1..] == [f];
    assert EnabledRun(target, k2, []) && RunSteps(target, k2, []) == k2;
    assert EnabledRun(target, k1, [f]) && RunSteps(target, k1, [f]) == k2;
  }

  /** Process 1 runs alone, and PCB 0 is free. */
  ghost predicate Alone(k: State) {
    && KernelInv(k) && k.current == Some(1) && Queue(k, Ready) == [] && Queue(k, PcbFree) == [0]
    && |k.pcb| == 2 && k.pcb[1].originalPriority == 1
  }

  /** Process 0 runs, and process 1 is its parent. */
  ghost predicate ChildRuns(k: State) {
    KernelInv(k) && k.current == Some(0) && |k.pcb| == 2 && k.pcb[0].parent == Some(1)
  }

  lemma ForkThenSlice(target: Target, k: State)
    requires Alone(k)
    ensures EnabledRun(target, k, [FORK, SLICE_END]) && ChildRuns(RunSteps(target, k, [FORK, SLICE_END]))
  {
    hide Step, KernelInv, AllDone, Queue;
    AfterFork(target, k);
    StepInv(target, k, FORK);
    var k1 := Step(target, k, FORK);
    NothingPending();
    assert Enabled(k1, SLICE_END);
    AfterSlice(target, k1);
    StepInv(target, k1, SLICE_END);
    TwoSteps(target, k, FORK, SLICE_END);
  }

  lemma KillParent(target: Target, k: State)
    requires ChildRuns(k)
    ensures Possible(k, KILL_PARENT) && KillsOwnAncestor(k, KILL_PARENT)
    ensures var k' := Step(target, k, KILL_PARENT); !KernelInv(k') && k'.current == Some(0) && Free(k', 0)
  {
    hide Step, KernelInv;
    assert Up(k.pcb, 0, 1) == Some(1);
    StepInvIff(target, k, KILL_PARENT);
    AncestorKillDangles(target, k, KILL_PARENT);
  }

  /** Two steps after boot, terminating the parent leaves `current_proc` on the free list. */
  lemma AncestorKillReachable(target: Target)
    ensures var k0 := Boot(2, ZERO_CONTEXT, map[], []);
            && EnabledRun(target, k0, [FORK, SLICE_END])
            && var k := RunSteps(target, k0, [FORK, SLICE_END]);
               && Possible(k, KILL_PARENT) && KillsOwnAncestor(k, KILL_PARENT)
               && var k' := Step(target, k, KILL_PARENT); !KernelInv(k') && k'.current == Some(0) && Free(k', 0)
  {
    hide Boot, Step, KernelInv, RunSteps, EnabledRun, Possible, KillsOwnAncestor, Queue, Free;
    var k0 := Boot(2, ZERO_CONTEXT, map[], []);
    AfterBoot();
    BootInv(2, ZERO_CONTEXT, map[], []);
    BootPriority();
    ForkThenSlice(target, k0);
    KillParent(target, RunSteps(target, k0, [FORK, SLICE_END]));
  }

  lemma BootPriority()
    ensures var k := Boot(2, ZERO_CONTEXT, map[], []); |k.pcb| == 2 && k.pcb[1].originalPriority == 1
  {
  }

  // ----- a blocked grandchild below a ready child

  const CHAIN := [ZERO_PCB.(semKey := Some(User(1))), ZERO_PCB.(parent := Some(0)),
                  ZERO_PCB.(semKey := Some(User(2)), parent := Some(1))]

  const GAP := State(map[PcbFree := [], Ready := [1], ProcQ(0) := [0], ProcQ(1) := [2], ProcQ(2) := []],
                     map[0 := [1], 1 := [2], 2 := []], map[SemdFree := [2], Asl := [1, 0]], CHAIN,
                     [Some(User(1)), Some(User(2)), None], None, 0, map[], map[], Idle, 0, [],
                     Ledger([0, 0, 0], 1, [2, 1, 0], 0, map[]))

  lemma GapTree()
    ensures TreeOk(GAP)
  {
  }

  lemma GapQueues()
    ensures QueuesOk(GAP, {})
  {
    assert On(GAP.queues, ProcQ(0), 0) && On(GAP.queues, Ready, 1) && On(GAP.queues, ProcQ(1), 2);
  }

  lemma GapSemds()
    ensures SemdsOk(GAP, {})
  {
  }

  lemma GapOrder()
    ensures OrderOk(GAP)
  {
  }

  lemma GapChain()
    ensures Descends(GAP.pcb, 2, 0) && IsBlocked(GAP.pcb, 0) && IsBlocked(GAP.pcb, 2) && !NoGaps(GAP, 0)
  {
    assert Up(GAP.pcb, 2, 1) == Some(1);
    assert Up(GAP.pcb, 2, 2) == Some(0);
  }

  /** Processes 0 and 2 are blocked and 2 descends from 0, but 2 is not removed with 0. */
  lemma GapKeepsGrandchild()
    ensures Inv(GAP, {}) && Descends(GAP.pcb, 2, 0) && IsBlocked(GAP.pcb, 0) && IsBlocked(GAP.pcb, 2)
    ensures 2 !in BlockedWalk(GAP, 0) && !RemovesWholeTree(GAP, 0)
  {
    GapTree();
    GapQueues();
    GapSemds();
    GapOrder();
    GapChain();
    hide TreeOk, QueuesOk, SemdsOk, OrderOk, NoGaps, Descends;
    DocumentedIff(GAP, 0);
    GapWalk();
  }

  lemma GapWalk()
    ensures 2 !in BlockedWalk(GAP, 0)
  {
  }
}
