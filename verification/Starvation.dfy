/**
 Why `Waiting.BoundedWaiting` counts slice expiries and not dispatches: only an
 expiry ages the ready queue, so two processes that block before their slices end
 can hand the processor to each other for ever while a third one stays ready.
 */
module Starvation {
  import Counterexamples
  import opened Sequences
  import opened KernelState
  import opened KernelSteps
  import opened Invariants
  import opened ActiveSemaphores
  import opened KernelRuns
  import opened Waiting
  import opened Semaphores

  const DISK := Device(0, 0)
  const WAIT := Event(Syscall(WaitIo(0, false)), ZERO_CONTEXT, [])
  const DONE := Event(Interrupt(false, Some(LineView(1, [])), None, None, None, None), ZERO_CONTEXT, [])

  function PingPong(m: nat): seq<Event> {
    if m == 0 then [] else [WAIT, DONE] + PingPong(m - 1)
  }

  /** Who runs, who is ready, who waits for the disk; `p` is less urgent than `a` and `b`. */
  ghost predicate Scene(k: State, current: Option<Pid>, ready: seq<Pid>, waiting: set<Pid>, a: Pid, b: Pid, p: Pid) {
    && k.current == current && Queue(k, Ready) == ready
    && (forall x: Pid :: BlockedOn(k, x, DISK) <==> x in waiting)
    && a < |k.pcb| && b < |k.pcb| && p < |k.pcb| && a != p && b != p
    && k.pcb[p].priority < k.pcb[a].originalPriority && k.pcb[p].priority < k.pcb[b].originalPriority
  }

  ghost predicate SameFields(k: State, k': State) {
    && |k'.pcb| == |k.pcb|
    && forall x: Pid :: x < |k.pcb| ==>
         && k'.pcb[x].priority == k.pcb[x].priority && k'.pcb[x].originalPriority == k.pcb[x].originalPriority
         && k'.pcb[x].semKey == k.pcb[x].semKey
  }

  lemma SceneFrame(k: State, k': State, current: Option<Pid>, ready: seq<Pid>, waiting: set<Pid>, a: Pid, b: Pid,
                   p: Pid)
    requires Scene(k, k.current, ready, waiting, a, b, p) && SameFields(k, k') && k'.current == current
    requires Queue(k', Ready) == Queue(k, Ready) && forall x: Pid :: Free(k', x) <==> Free(k, x)
    ensures Scene(k', current, ready, waiting, a, b, p)
  {
  }

  // ----- a process waits for the disk and the next one runs

  lemma BlockScene(k: State, s: Context, a: Pid, b: Pid, p: Pid)
    requires Inv(k, {a}) && Scene(k, Some(a), [b, p], {}, a, b, p)
    ensures Scene(BlockCurrent(k, DISK, s), None, [b, p], {a}, a, b, p)
  {
    hide Inv, AccountTime, SaveContext, InsertBlocked;
    var k1 := SaveContext(k, a, s);
    var k2 := AccountTime(k1, true);
    SaveContextInv(k, {a}, a, s);
    AccountInv(k1, {a}, true);
    SceneFrame(k, k2, Some(a), [b, p], {}, a, b, p);
    InsertScene(k2, a, b, p);
  }

  lemma InsertScene(k: State, a: Pid, b: Pid, p: Pid)
    requires Inv(k, {a}) && Scene(k, Some(a), [b, p], {}, a, b, p)
    ensures Scene(InsertBlocked(k, DISK, a).(current := None), None, [b, p], {a}, a, b, p)
  {
    CurrentLive(k, a);
    hide Inv, InsertBlocked;
    BlockedKeys(k, {a}, DISK, a);
    BlockedReady(k, {a}, DISK, a);
    KeySet(k, InsertBlocked(k, DISK, a).(current := None), a, b, p);
  }

  lemma KeySet(k: State, k': State, a: Pid, b: Pid, p: Pid)
    requires Scene(k, Some(a), [b, p], {}, a, b, p) && !Free(k, a)
             && k'.pcb == k.pcb[a := k.pcb[a].(semKey := Some(DISK))]
    requires k'.current == None && Queue(k', Ready) == Queue(k, Ready) && forall x: Pid :: Free(k', x) <==> Free(k, x)
    ensures Scene(k', None, [b, p], {a}, a, b, p)
  {
    forall x: Pid ensures BlockedOn(k', x, DISK) <==> x == a { assert !BlockedOn(k, x, DISK); }
  }

  lemma RunScene(k: State, a: Pid, b: Pid, p: Pid)
    requires Scene(k, None, [b, p], {a}, a, b, p)
    ensures Scene(Run(k), Some(b), [p], {a}, a, b, p) && Run(k).cpu.Running?
  {
    RunQueues(k);
    RunCpu(k);
    RunSame(k);
    assert Minus([b, p], {b}) == [p] by { assert [b, p][1..] == [p]; }
    hide Run;
    var k1 := k.(queues := Run(k).queues);
    assert Scene(k1, None, [p], {a}, a, b, p);
    SceneFrame(k1, Run(k), Some(b), [p], {a}, a, b, p);
  }

  lemma RunSame(k: State)
    requires Queue(k, Ready) != []
    ensures SameFields(k, Run(k)) && Run(k).current == Some(Queue(k, Ready)[0])
  {
  }

  lemma WaitForm(target: Target, k: State)
    requires k.current.Some?
    ensures var k2 := BlockCurrent(AccountTime(k.(delays := []), false), DISK, SyscallContext(target, ZERO_CONTEXT));
            k2.current == None && Queue(k2, Ready) != [] ==> Step(target, k, WAIT) == Run(k2)
  {
  }

  lemma EntryInv(k: State, a: Pid)
    requires KernelInv(k) && k.current == Some(a)
    ensures Inv(AccountTime(k.(delays := []), false), {a})
  {
    AlikeInv(k, k.(delays := []), {a});
    AccountInv(k.(delays := []), {a}, false);
  }

  lemma WaitEnabled(k: State)
    requires k.current.Some?
    ensures Enabled(k, WAIT)
  {
  }

  lemma WaitStep(target: Target, k: State, a: Pid, b: Pid, p: Pid)
    requires KernelInv(k) && Scene(k, Some(a), [b, p], {}, a, b, p)
    ensures var k' := Step(target, k, WAIT);
            Enabled(k, WAIT) && KernelInv(k') && Scene(k', Some(b), [p], {a}, a, b, p) && k'.cpu.Running?
  {
    SceneFacts(k, Some(a), [b, p], {}, a, b, p);
    hide KernelInv, AccountTime, BlockCurrent, Run, Scene, Step, Inv, Enabled;
    WaitEnabled(k);
    StepInv(target, k, WAIT);
    EntryInv(k, a);
    var k1, s := AccountTime(k.(delays := []), false), SyscallContext(target, ZERO_CONTEXT);
    SceneFrame(k, k1, Some(a), [b, p], {}, a, b, p);
    BlockScene(k1, s, a, b, p);
    var k2 := BlockCurrent(k1, DISK, s);
    SceneFacts(k2, None, [b, p], {a}, a, b, p);
    WaitForm(target, k);
    RunScene(k2, a, b, p);
  }

  lemma SceneFacts(k: State, current: Option<Pid>, ready: seq<Pid>, waiting: set<Pid>, a: Pid, b: Pid, p: Pid)
    requires Scene(k, current, ready, waiting, a, b, p)
    ensures k.current == current && Queue(k, Ready) == ready
  {
  }

  // ----- the disk is done and the waiting process overtakes `p`

  lemma OneCompletion()
    ensures AllDone(DONE.entry) == [Completion(DISK, 0)]
  {
    var v := LineView(1, []);
    assert forall i: nat :: 1 <= i < 8 ==> !BitSet(1, i) by {
      forall i: nat | 1 <= i < 8 ensures !BitSet(1, i) { PowLarge(i); }
    }
    assert BitSet(1, 0);
    NothingFrom(v, 1);
    assert DeviceKey(DeviceIndex(IL_DISK, 0), false) == DISK;
    assert LineDoneFrom(IL_DISK, v, 0) == [Completion(DISK, 0)];
  }

  lemma PowLarge(i: nat)
    requires i >= 1
    ensures !BitSet(1, i)
  {
  }

  lemma {:induction false} NothingFrom(v: LineView, i: nat)
    requires v.bitmap == 1 && i >= 1
    ensures LineDoneFrom(IL_DISK, v, i) == []
    decreases N_DEV_PER_IL - i
  {
    if i < N_DEV_PER_IL {
      PowLarge(i);
      NothingFrom(v, i + 1);
    }
  }

  /** `a` is the only process waiting for the disk. */
  lemma OnlyWaiter(k: State, fl: set<Pid>, a: Pid)
    requires Inv(k, fl) && forall x: Pid :: BlockedOn(k, x, DISK) <==> x == a
    ensures Waiters(k, DISK) == [a]
  {
    assert BlockedOn(k, a, DISK);
    SemKeyIsQueue(k, fl, a, DISK);
    var w := Waiters(k, DISK);
    var s := AslSemd(k, Some(DISK)).value;
    assert NoDup(w);
    forall i | 0 <= i < |w|
      ensures w[i] == a
    {
      assert On(k.queues, ProcQ(s), w[i]) && !On(k.queues, PcbFree, w[i]);
      SemKeyIsQueue(k, fl, w[i], DISK);
      assert BlockedOn(k, w[i], DISK);
    }
    Singleton(w, a);
  }

  lemma Singleton(w: seq<Pid>, a: Pid)
    requires w != [] && (forall i :: 0 <= i < |w| ==> w[i] == a) && (|w| >= 2 ==> w[0] != w[1])
    ensures w == [a]
  {
  }

  lemma WokenScene(k: State, fl: set<Pid>, a: Pid, b: Pid, p: Pid)
    requires Inv(k, fl) && Scene(k, Some(b), [p], {a}, a, b, p)
    ensures Waiters(k, DISK) == [a] && Scene(RemoveBlocked(k, DISK), Some(b), [p], {}, a, b, p)
  {
    OnlyWaiter(k, fl, a);
    hide Inv, RemoveBlocked, Waiters;
    WokenKeys(k, fl, DISK);
    WokenReady(k, fl, DISK);
    KeyCleared(k, RemoveBlocked(k, DISK), a, b, p);
  }

  lemma KeyCleared(k: State, k': State, a: Pid, b: Pid, p: Pid)
    requires Scene(k, Some(b), [p], {a}, a, b, p) && k'.pcb == k.pcb[a := k.pcb[a].(semKey := None)]
    requires k'.current == k.current && Queue(k', Ready) == Queue(k, Ready)
    requires forall x: Pid :: Free(k', x) <==> Free(k, x)
    ensures Scene(k', Some(b), [p], {}, a, b, p)
  {
    forall x: Pid ensures !BlockedOn(k', x, DISK) { assert BlockedOn(k, x, DISK) <==> x == a; }
  }

  lemma EnqueueScene(k: State, a: Pid, b: Pid, p: Pid)
    requires Scene(k, Some(b), [p], {}, a, b, p)
    ensures Scene(EnqueueProcess(k, a), Some(b), [a, p], {}, a, b, p)
  {
  }

  lemma UnblockScene(k: State, fl: set<Pid>, a: Pid, b: Pid, p: Pid)
    requires Inv(k, fl) && Scene(k, Some(b), [p], {a}, a, b, p)
    ensures Waiters(k, DISK) != [] && Scene(Unblock(k, Completion(DISK, 0)), Some(b), [a, p], {}, a, b, p)
  {
    hide Inv, RemoveBlocked, EnqueueProcess, Waiters, Scene;
    WokenScene(k, fl, a, b, p);
    var k1 := RemoveBlocked(k, DISK);
    EnqueueScene(k1, a, b, p);
    var k2 := EnqueueProcess(k1, a);
    SceneFacts(k2, Some(b), [a, p], {}, a, b, p);
    SceneFrame(k2, Unblock(k, Completion(DISK, 0)), Some(b), [a, p], {}, a, b, p);
  }

  lemma DoneForm(target: Target, k: State)
    ensures var k1 := AccountTime(k.(delays := []), false);
            && (Waiters(k1, DISK) != [] ==> Enabled(k, DONE))
            && Step(target, k, DONE)
               == Resume(Unblock(k1, Completion(DISK, 0)), false, InterruptContext(target, ZERO_CONTEXT))
  {
    hide AccountTime, Resume, Unblock, AllDone, Waiters;
    OneCompletion();
    var k1, c := AccountTime(k.(delays := []), false), Completion(DISK, 0);
    assert [c][1..] == [];
    assert UnblockAll(Unblock(k1, c), []) == Unblock(k1, c) && AllAwaited(Unblock(k1, c), []);
  }

  lemma ResumeScene(k: State, s: Context, a: Pid, b: Pid, p: Pid)
    requires Scene(k, Some(b), [a, p], {}, a, b, p)
    ensures var k' := Resume(k, false, s); Scene(k', Some(b), [a, p], {}, b, a, p) && !k'.cpu.Running?
  {
  }

  lemma DoneStep(target: Target, k: State, a: Pid, b: Pid, p: Pid)
    requires KernelInv(k) && Scene(k, Some(b), [p], {a}, a, b, p)
    ensures var k' := Step(target, k, DONE);
            Enabled(k, DONE) && KernelInv(k') && Scene(k', Some(b), [a, p], {}, b, a, p) && !k'.cpu.Running?
  {
    SceneFacts(k, Some(b), [p], {a}, a, b, p);
    hide KernelInv, AccountTime, Unblock, Resume, Scene, Step, Inv, Enabled, Waiters;
    EntryInv(k, b);
    var k1, s := AccountTime(k.(delays := []), false), InterruptContext(target, ZERO_CONTEXT);
    SceneFrame(k, k1, Some(b), [p], {a}, a, b, p);
    UnblockScene(k1, {b}, a, b, p);
    DoneForm(target, k);
    StepInv(target, k, DONE);
    ResumeScene(Unblock(k1, Completion(DISK, 0)), s, a, b, p);
  }

  // ----- for ever

  lemma ReadyNow(k: State, current: Option<Pid>, ready: seq<Pid>, waiting: set<Pid>, a: Pid, b: Pid, p: Pid)
    requires Scene(k, current, ready, waiting, a, b, p) && p in ready && current.Some?
    ensures IsReady(k, p) && k.current.Some?
  {
  }

  /** Any number of dispatches, no slice expiry, and `p` is ready all along. */
  lemma {:induction false} Starved(target: Target, k: State, a: Pid, b: Pid, p: Pid, m: nat)
    requires KernelInv(k) && Scene(k, Some(a), [b, p], {}, a, b, p)
    ensures EnabledRun(target, k, PingPong(m)) && ReadyThroughout(target, k, PingPong(m), p)
    ensures Dispatches(target, k, PingPong(m)) == m && Expiries(target, k, PingPong(m)) == 0
    decreases m
  {
    hide KernelInv, Scene, Step, Enabled, IsReady, EnabledRun, ReadyThroughout, Dispatches, Expiries;
    ReadyNow(k, Some(a), [b, p], {}, a, b, p);
    if m == 0 {
      NoMore(target, k, p);
    } else {
      var k1 := Step(target, k, WAIT);
      WaitStep(target, k, a, b, p);
      ReadyNow(k1, Some(b), [p], {a}, a, b, p);
      var k2 := Step(target, k1, DONE);
      DoneStep(target, k1, a, b, p);
      Starved(target, k2, b, a, p, m - 1);
      TwoMore(target, k, WAIT, DONE, PingPong(m - 1), p);
    }
  }

  lemma NoMore(target: Target, k: State, p: Pid)
    requires IsReady(k, p)
    ensures EnabledRun(target, k, []) && ReadyThroughout(target, k, [], p)
    ensures Dispatches(target, k, []) == 0 && Expiries(target, k, []) == 0
  {
  }

  lemma TwoMore(target: Target, k: State, e: Event, f: Event, rest: seq<Event>, p: Pid)
    requires var k1 := Step(target, k, e);
             && Enabled(k, e) && Enabled(k1, f) && IsReady(k, p) && IsReady(k1, p)
             && EnabledRun(target, Step(target, k1, f), rest) && ReadyThroughout(target, Step(target, k1, f), rest, p)
    ensures EnabledRun(target, k, [e, f] + rest) && ReadyThroughout(target, k, [e, f] + rest, p)
    ensures var k1 := Step(target, k, e); var k2 := Step(target, k1, f);
            && Dispatches(target, k, [e, f] + rest)
               == (if k1.cpu.Running? then 1 else 0) + (if k2.cpu.Running? then 1 else 0) + Dispatches(target, k2, rest)
            && Expiries(target, k, [e, f] + rest)
               == (if Expiry(k, e) then 1 else 0) + (if Expiry(k1, f) then 1 else 0) + Expiries(target, k2, rest)
  {
    hide Step, Enabled, IsReady, Expiry;
    OneMore(target, Step(target, k, e), f, rest, p);
    OneMore(target, k, e, [f] + rest, p);
    assert [e, f] + rest == [e] + ([f] + rest);
  }

  lemma OneMore(target: Target, k: State, e: Event, rest: seq<Event>, p: Pid)
    requires Enabled(k, e) && IsReady(k, p)
    requires EnabledRun(target, Step(target, k, e), rest) && ReadyThroughout(target, Step(target, k, e), rest, p)
    ensures EnabledRun(target, k, [e] + rest) && ReadyThroughout(target, k, [e] + rest, p)
    ensures var k1 := Step(target, k, e);
            && Dispatches(target, k, [e] + rest) == (if k1.cpu.Running? then 1 else 0) + Dispatches(target, k1, rest)
            && Expiries(target, k, [e] + rest) == (if Expiry(k, e) then 1 else 0) + Expiries(target, k1, rest)
  {
  }

  // ----- from boot, with three PCBs: process 2 starts 1 and 0, and its slice ends

  const FORK_URGENT := Event(Syscall(CreateProcess(ZERO_CONTEXT, 2)), ZERO_CONTEXT, [])

  /** What is live: nobody waits for anything, and only `2` has original priority 1. */
  ghost predicate Family(k: State, free: seq<Pid>, ready: seq<Pid>) {
    && k.current == Some(2) && Queue(k, PcbFree) == free && Queue(k, Ready) == ready
    && |k.pcb| == 3 && k.pcb[2].originalPriority == 1
    && (forall x: Pid :: x < 3 ==> k.pcb[x].semKey == None)
    && (forall x: Pid :: x < 3 && x in ready ==> k.pcb[x].originalPriority == 2 && k.pcb[x].priority == 2)
  }

  lemma ThreeFree()
    ensures Queue(Tables(3, map[], []), PcbFree) == [2, 1, 0] && Queue(Tables(3, map[], []), Ready) == []
  {
  }

  lemma BootFamily()
    ensures Family(Boot(3, ZERO_CONTEXT, map[], []), [1, 0], [])
  {
    ThreeFree();
    hide Heads, Pool;
    var k := Tables(3, map[], []);
    var k1 := AllocPcb(k);
    assert Queue(k1, PcbFree) == [1, 0];
    var k2 := SetProc(k1, 2, Proc(k1, 2).(ps := ZERO_CONTEXT, originalPriority := DEFAULT_PRIORITY));
    assert Queue(EnqueueProcess(k2, 2), Ready) == [2];
  }

  lemma CreateFamily(k: State, c: Pid, free: seq<Pid>, ready: seq<Pid>)
    requires Family(k, [c] + free, ready) && c < 2 && (ready == [] || (|ready| == 1 && ready[0] < 2 && ready[0] != c))
    ensures Family(Create(k, ZERO_CONTEXT, 2), free, ready + [c])
  {
    var k1 := AllocPcb(k);
    var k2 := SetProc(k1, c, Proc(k1, c).(ps := ZERO_CONTEXT, originalPriority := 2));
    assert Queue(EnqueueProcess(k2, c), Ready) == ready + [c];
  }

  lemma ForkFamily(target: Target, k: State, c: Pid, free: seq<Pid>, ready: seq<Pid>)
    requires Family(k, [c] + free, ready) && c < 2 && (ready == [] || (|ready| == 1 && ready[0] < 2 && ready[0] != c))
    ensures Family(Step(target, k, FORK_URGENT), free, ready + [c])
  {
    hide AccountTime, Create;
    var k1 := AccountTime(k.(delays := []), false);
    CreateFamily(k1, c, free, ready);
  }

  /** The slice of process 2 ends: 1 runs, 0 and 2 are ready, in this order. */
  lemma SliceQueue(k: State, s: Context)
    requires Family(k, [], [1, 0])
    ensures var k' := EnqueueProcess(SaveContext(Aging(k), 2, s), 2);
            && Queue(k', Ready) == [1, 0, 2] && |k'.pcb| == 3 && k'.pcb[2].priority == 1
            && k'.pcb[2].originalPriority == 1
            && (forall x: Pid :: x < 3 ==> k'.pcb[x].semKey == None)
            && k'.pcb[0].originalPriority == 2 && k'.pcb[1].originalPriority == 2
  {
    AgedFamily(k, s);
    hide Aging, SaveContext, Family;
    var k1 := SaveContext(Aging(k), 2, s);
    BehindBoth(SetProc(k1, 2, k1.pcb[2].(priority := 1)).pcb);
  }

  lemma AgedFamily(k: State, s: Context)
    requires Family(k, [], [1, 0])
    ensures var k1 := SaveContext(Aging(k), 2, s);
            && Queue(k1, Ready) == [1, 0] && |k1.pcb| == 3 && k1.pcb[1].priority == 3 && k1.pcb[0].priority == 3
            && k1.pcb[0].originalPriority == 2 && k1.pcb[1].originalPriority == 2 && k1.pcb[2].originalPriority == 1
            && forall x: Pid :: x < 3 ==> k1.pcb[x].semKey == None
  {
  }

  lemma BehindBoth(pcb: seq<Pcb>)
    requires |pcb| == 3 && pcb[1].priority == 3 && pcb[0].priority == 3
    ensures InsertAt([1, 0], InsertIndex(pcb, [1, 0], 1), 2) == [1, 0, 2]
  {
    assert [1, 0][1..] == [0] && [0][1..] == [];
    assert InsertIndex(pcb, [0], 1) == 1;
    assert InsertIndex(pcb, [1, 0], 1) == 2;
  }

  lemma SliceRun(k: State)
    requires Queue(k, Ready) == [1, 0, 2] && |k.pcb| == 3 && k.pcb[2].priority == 1
    requires forall x: Pid :: x < 3 ==> k.pcb[x].semKey == None
    requires k.pcb[0].originalPriority == 2 && k.pcb[1].originalPriority == 2
    requires k.pcb[2].originalPriority == 1
    ensures Scene(Dispatch(k), Some(1), [0, 2], {}, 1, 0, 2) && Bounded(Dispatch(k), 2)
  {
    RunQueues(k);
    RunSame(k);
    WithoutFirst();
    hide Run, Minus;
  }

  lemma WithoutFirst()
    ensures Minus([1, 0, 2], {1}) == [0, 2]
  {
  }

  lemma SliceScene(target: Target, k: State)
    requires Family(k, [], [1, 0])
    ensures var k' := Step(target, k, Counterexamples.SLICE_END);
            Scene(k', Some(1), [0, 2], {}, 1, 0, 2) && Bounded(k', 2)
  {
    hide AccountTime, AllDone, EnqueueProcess, SaveContext, Aging, Dispatch, Scene, Bounded;
    Counterexamples.NothingPending();
    var s := InterruptContext(target, ZERO_CONTEXT);
    var k1 := AccountTime(AccountTime(k.(delays := []), false), true);
    assert Family(k1, [], [1, 0]);
    SliceQueue(k1, s);
    SliceRun(EnqueueProcess(SaveContext(Aging(k1), 2, s), 2));
  }

  lemma ThreeSteps(target: Target, k: State, e: Event, f: Event, g: Event)
    requires var k1 := Step(target, k, e); var k2 := Step(target, k1, f);
             Enabled(k, e) && Enabled(k1, f) && Enabled(k2, g)
    ensures EnabledRun(target, k, [e, f, g])
    ensures RunSteps(target, k, [e, f, g]) == Step(target, Step(target, Step(target, k, e), f), g)
  {
    hide Step, Enabled;
    assert [e, f, g][1..] == [f, g];
    Counterexamples.TwoSteps(target, Step(target, k, e), f, g);
  }

  lemma FamilyEnabled(k: State, free: seq<Pid>, ready: seq<Pid>)
    requires Family(k, free, ready)
    ensures Enabled(k, FORK_URGENT) && Enabled(k, Counterexamples.SLICE_END)
  {
  }

  /** The run up to the ping-pong. */
  lemma SetUp(target: Target)
    ensures var k0 := Boot(3, ZERO_CONTEXT, map[], []);
            && EnabledRun(target, k0, [FORK_URGENT, FORK_URGENT, Counterexamples.SLICE_END])
            && var k := RunSteps(target, k0, [FORK_URGENT, FORK_URGENT, Counterexamples.SLICE_END]);
               KernelInv(k) && Scene(k, Some(1), [0, 2], {}, 1, 0, 2) && Bounded(k, 2)
  {
    hide KernelInv, Scene, Bounded, Step, Enabled, RunSteps, EnabledRun, Boot, Family;
    var k0 := Boot(3, ZERO_CONTEXT, map[], []);
    var es := [FORK_URGENT, FORK_URGENT, Counterexamples.SLICE_END];
    BootFamily();
    FamilyEnabled(k0, [1, 0], []);
    assert [1] + [0] == [1, 0] && [] + [1] == [1] && [0] + [] == [0] && [1, 0] == [1] + [0];
    ForkFamily(target, k0, 1, [0], []);
    var k1 := Step(target, k0, FORK_URGENT);
    FamilyEnabled(k1, [0], [1]);
    ForkFamily(target, k1, 0, [], [1]);
    var k2 := Step(target, k1, FORK_URGENT);
    FamilyEnabled(k2, [], [1, 0]);
    SliceScene(target, k2);
    ThreeSteps(target, k0, FORK_URGENT, FORK_URGENT, Counterexamples.SLICE_END);
    ReachableInv(target, 3, ZERO_CONTEXT, map[], [], es);
  }

  lemma {:induction false} PingPongModest(m: nat)
    ensures ModestRun(PingPong(m), 2)
  {
    if m > 0 {
      PingPongModest(m - 1);
      var es := PingPong(m);
      forall i | 0 <= i < |es|
        ensures Modest(es[i], 2)
      {
        assert i < 2 || es[i] == PingPong(m - 1)[i - 2];
      }
    }
  }

  /**
   With priorities bounded by 2 and three PCBs, the booted kernel has a reachable
   state with a ready process and, for every `m`, a run from there that makes `m`
   dispatches without ever dispatching it.
   */
  lemma DispatchesUnbounded(target: Target, m: nat)
    ensures var k0, es := Boot(3, ZERO_CONTEXT, map[], []), PingPong(m);
            && EnabledRun(target, k0, [FORK_URGENT, FORK_URGENT, Counterexamples.SLICE_END])
            && var k := RunSteps(target, k0, [FORK_URGENT, FORK_URGENT, Counterexamples.SLICE_END]);
               && Bounded(k, 2) && ModestRun(es, 2) && EnabledRun(target, k, es) && ReadyThroughout(target, k, es, 2)
               && Dispatches(target, k, es) == m && Expiries(target, k, es) == 0
  {
    hide KernelInv, Scene, Bounded, Step, Enabled, RunSteps, EnabledRun;
    hide Boot, ReadyThroughout, Dispatches, Expiries, PingPong;
    SetUp(target);
    PingPongModest(m);
    var es := [FORK_URGENT, FORK_URGENT, Counterexamples.SLICE_END];
    Starved(target, RunSteps(target, Boot(3, ZERO_CONTEXT, map[], []), es), 1, 0, 2, m);
  }
}
