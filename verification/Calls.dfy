/**
 What each system call does, as one step of the kernel: the words, areas, processes and
 queues it changes, that it changes nothing else, the value it answers, and who runs next.
 */
module Calls {
  import opened Sequences
  import opened KernelState
  import opened KernelSteps
  import opened Invariants
  import opened ActiveSemaphores
  import opened Termination
  import opened ProcessTree
  import opened KernelRuns
  import opened Contexts
  import opened Wakeups
  import Semaphores
  import RoundTrips

  // ----- steps that return to their program

  /** The same state but for the clock, the accounts of the current process and what the processor is given to. */
  ghost predicate ExceptTimes(k: State, k': State) {
    && k' == k.(pcb := k'.pcb, now := k'.now, delays := k'.delays, switchTick := k'.switchTick,
                ledger := k'.ledger, cpu := k'.cpu)
    && k'.ledger == k.ledger.(switchAt := k'.ledger.switchAt)
    && |k'.pcb| == |k.pcb|
    && forall q: Pid :: q < |k.pcb| ==>
         k'.pcb[q] == if k.current == Some(q)
                      then k.pcb[q].(userTm := k'.pcb[q].userTm, kernelTm := k'.pcb[q].kernelTm) else k.pcb[q]
  }

  lemma ExceptTrans(k: State, k1: State, k2: State)
    requires ExceptTimes(k, k1) && ExceptTimes(k1, k2)
    ensures ExceptTimes(k, k2)
  {
  }

  lemma AccountExcept(k: State, kernel: bool)
    ensures ExceptTimes(k, AccountTime(k, kernel))
  {
  }

  lemma EntryExcept(k: State, delays: seq<nat>)
    ensures ExceptTimes(k, AccountTime(k.(delays := delays), false))
  {
    AccountExcept(k.(delays := delays), false);
    hide AccountTime;
  }

  /** A handler's effect `k2`, seen from the state `k` before the entry accounting. */
  lemma StaysForm(k2: State, s: Context, p: Pid)
    requires k2.current == Some(p)
    ensures ExceptTimes(k2, Resume(k2, false, s)) && Resume(k2, false, s).cpu == Resumed(s)
  {
    AccountExcept(k2, true);
    hide AccountTime;
  }

  lemma CallForm(target: Target, k: State, e: Event, call: Call)
    requires k.current.Some? && e.entry == Syscall(call) && !call.OtherCall?
    ensures var k1, s := AccountTime(k.(delays := e.delays), false), EntryState(target, e);
            Step(target, k, e) == Resume(Served(k1, call, s), false, Answer(k1, call, s))
  {
    hide AccountTime, Served, Resume, Answer;
  }

  /** The step does to `k` exactly what `want` says, and returns to its program with `s`. */
  ghost predicate Returns(k': State, want: State, s: Context) {
    ExceptTimes(want, k') && k'.cpu == Resumed(s)
  }

  lemma CallReturns(target: Target, k: State, e: Event, call: Call, p: Pid, want: State)
    requires k.current == Some(p) && e.entry == Syscall(call) && !call.OtherCall? && want.current == Some(p)
    requires var k1 := AccountTime(k.(delays := e.delays), false);
             ExceptTimes(want, Served(k1, call, EntryState(target, e)))
    ensures var k1 := AccountTime(k.(delays := e.delays), false);
            Returns(Step(target, k, e), want, Answer(k1, call, EntryState(target, e)))
  {
    hide AccountTime, Served, Resume, Answer, EntryState;
    var k1, s := AccountTime(k.(delays := e.delays), false), EntryState(target, e);
    CallForm(target, k, e, call);
    StaysForm(Served(k1, call, s), Answer(k1, call, s), p);
    ExceptTrans(want, Served(k1, call, s), Step(target, k, e));
  }

  /** A breakpoint, GETPID and GETCPUTIME change nothing but the accounts. */
  lemma PassiveStep(target: Target, k: State, e: Event)
    requires k.current.Some?
    requires e.entry == Breakpoint || e.entry == Syscall(GetPid) || e.entry == Syscall(GetCpuTime)
    ensures Returns(Step(target, k, e), k, EntryState(target, e))
  {
    hide AccountTime, Resume, HandleException;
    var k1 := AccountTime(k.(delays := e.delays), false);
    EntryExcept(k, e.delays);
    if e.entry == Breakpoint {
      StaysForm(k1, e.saved, k.current.value);
      ExceptTrans(k, k1, Step(target, k, e));
    } else {
      AccountExcept(k1, true);
      ExceptTrans(k, k1, AccountTime(k1, true));
      CallReturns(target, k, e, e.entry.call, k.current.value, k);
    }
  }

  /** A P that finds a token: the word drops by one, nothing else changes, and the caller goes on. */
  lemma PasserenTakes(target: Target, k: State, e: Event, key: Key)
    requires k.current.Some? && e.entry == Syscall(Passeren(key)) && Word(k, key) != 0
    ensures var want := k.(words := k.words[key := Word(k, key) - 1]);
            Returns(Step(target, k, e), want, EntryState(target, e))
  {
    EntryExcept(k, e.delays);
    hide AccountTime, BlockCurrent, EntryState;
    CallReturns(target, k, e, Passeren(key), k.current.value, k.(words := k.words[key := Word(k, key) - 1]));
  }

  /** A V without waiters: the word grows by one, nothing else changes, and the caller goes on. */
  lemma VerhogenGives(target: Target, k: State, e: Event, key: Key)
    requires k.current.Some? && e.entry == Syscall(Verhogen(key)) && Waiters(k, key) == []
    ensures var want := k.(words := k.words[key := Word(k, key) + 1]);
            Returns(Step(target, k, e), want, EntryState(target, e))
  {
    var k1 := AccountTime(k.(delays := e.delays), false);
    EntryExcept(k, e.delays);
    Semaphores.WaitersFrame(k, k1, key);
    hide AccountTime, EntryState, Waiters, RemoveBlocked, EnqueueProcess;
    CallReturns(target, k, e, Verhogen(key), k.current.value, k.(words := k.words[key := Word(k, key) + 1]));
  }

  /** An interrupt with nothing completed and no timer changes nothing either. */
  lemma PassiveInterrupt(target: Target, k: State, e: Event)
    requires k.current.Some? && e.entry.Interrupt? && !e.entry.timer && AllDone(e.entry) == []
    ensures Returns(Step(target, k, e), k, EntryState(target, e))
  {
    hide AccountTime, Resume, AllDone;
    var k1 := AccountTime(k.(delays := e.delays), false);
    EntryExcept(k, e.delays);
    InterruptForm(target, k, e);
    StaysForm(k1, EntryState(target, e), k.current.value);
    ExceptTrans(k, k1, Step(target, k, e));
  }

  /**
   A V with waiters: the best of them becomes ready at its original priority with its
   saved state as it was; the rest of the queue and the words stay, and the caller goes on.
   */
  lemma VerhogenHandsOver(target: Target, k: State, e: Event, key: Key)
    requires KernelInv(k) && k.current.Some? && e.entry == Syscall(Verhogen(key)) && Waiters(k, key) != []
    ensures var q, k' := Waiters(k, key)[0], Step(target, k, e);
            && q < |k.pcb| == |k'.pcb| && On(k'.queues, Ready, q) && Waiters(k', key) == Waiters(k, key)[1..]
            && k'.pcb[q].semKey == None && k'.pcb[q].ps == k.pcb[q].ps
            && k'.pcb[q].priority == k'.pcb[q].originalPriority == k.pcb[q].originalPriority
            && k'.words == k.words && k'.current == k.current && k'.cpu == Resumed(EntryState(target, e))
    ensures forall w: Pid :: w in Waiters(k, key) ==>
              w == Waiters(k, key)[0] || Before(k.pcb, k.ledger.stamp, Waiters(k, key)[0], w)
    ensures forall other: Key :: other != key ==> Waiters(Step(target, k, e), other) == Waiters(k, other)
  {
    hide Inv, AccountTime, Waiters, DoVerhogen, EntryState, Resume;
    var k1, s := AccountTime(k.(delays := e.delays), false), EntryState(target, e);
    EntryWaiters(k, e.delays, key);
    forall w: Pid | w in Waiters(k, key)
      ensures w == Waiters(k, key)[0] || Before(k.pcb, k.ledger.stamp, Waiters(k, key)[0], w)
    {
      HeadIsBest(k, Floating(k), key, w);
    }
    hide KernelInv, Before;
    VerhogenWakes(k1, key);
    CallForm(target, k, e, Verhogen(key));
    ServedIsVerhogen(k1, key, s);
    VerhogenCurrent(k1, key);
    StaysForm(DoVerhogen(k1, key), s, k.current.value);
    Semaphores.WaitersFrame(DoVerhogen(k1, key), Step(target, k, e), key);
    hide Step;
    forall other: Key | other != key
      ensures Waiters(Step(target, k, e), other) == Waiters(k, other)
    {
      VerhogenOther(k1, key, other);
      EntryWaiters(k, e.delays, other);
      Semaphores.WaitersFrame(DoVerhogen(k1, key), Step(target, k, e), other);
    }
  }

  lemma ServedIsVerhogen(k: State, key: Key, s: Context)
    requires k.current.Some?
    ensures Served(k, Verhogen(key), s) == DoVerhogen(k, key) && Answer(k, Verhogen(key), s) == s
  {
    hide DoVerhogen;
  }

  // ----- blocking calls

  /** Blocking under a key adds exactly the process to the waiters of that key. */
  lemma InsertWaiters(k: State, fl: set<Pid>, key: Key, p: Pid)
    requires Inv(k, fl) && p in fl
    ensures var w := Waiters(InsertBlocked(k, key, p), key); p in w && Minus(w, {p}) == Waiters(k, key)
  {
    DescriptorAvailable(k, fl);
    var s := InsertBlockedForm(k, fl, key, p);
    var k' := InsertBlocked(k, key, p);
    BlockedInv(k, k', fl, key, p, s);
    AslSemdIsLookup(k', fl - {p}, Some(key), s);
    FirstWithFacts(k.semKeys, k.semds[Asl], Some(key));
    var w := Queue(k, ProcQ(s));
    assert !On(k.queues, ProcQ(s), p);
    InsertThenMinus(w, InsertIndex(k.pcb, w, Proc(k, p).priority), p);
    hide InsertBlocked;
  }

  lemma InsertThenMinus(s: seq<Pid>, i: nat, p: Pid)
    requires i <= |s| && p !in s
    ensures p in InsertAt(s, i, p) && Minus(InsertAt(s, i, p), {p}) == s
  {
    hide Minus;
    InsertAtFacts(s, i, p);
    assert InsertAt(s, i, p) == s[..i] + ([p] + s[i..]);
    MinusConcat(s[..i], [p] + s[i..], {p});
    MinusConcat([p], s[i..], {p});
    MinusNothing(s[..i], {p});
    MinusNothing(s[i..], {p});
    MinusSelf(p);
    assert s[..i] + ([] + s[i..]) == s;
  }

  lemma MinusSelf(p: Pid)
    ensures Minus([p], {p}) == []
  {
  }

  lemma BlockWaiters(k: State, key: Key, s: Context, p: Pid)
    requires Inv(k, {p}) && k.current == Some(p)
    ensures var k' := BlockCurrent(k, key, s); var w := Waiters(k', key);
            p in w && Minus(w, {p}) == Waiters(k, key) && k'.words == k.words && k'.areas == k.areas
  {
    hide Inv, AccountTime, SaveContext, InsertBlocked, Waiters;
    var k1 := SaveContext(k, p, s);
    var k2 := AccountTime(k1, true);
    SaveContextInv(k, {p}, p, s);
    AccountInv(k1, {p}, true);
    Semaphores.WaitersFrame(k, k2, key);
    InsertWaiters(k2, {p}, key, p);
    Semaphores.WaitersFrame(InsertBlocked(k2, key, p), BlockCurrent(k, key, s), key);
  }

  /** The step parks its process under `key`, behind nobody it precedes, and changes no word. */
  ghost predicate BlocksUnder(k: State, k': State, key: Key, p: Pid) {
    && k'.words == k.words && k'.areas == k.areas && k'.current != Some(p) && !Free(k', p)
    && p < |k'.pcb| && k'.pcb[p].semKey == Some(key)
    && p in Waiters(k', key) && Minus(Waiters(k', key), {p}) == Waiters(k, key)
  }

  lemma BlockingCall(target: Target, k: State, e: Event, key: Key, p: Pid)
    requires KernelInv(k) && Enabled(k, e) && k.current == Some(p) && e.entry.Syscall?
    requires var call := e.entry.call;
             || (call == Passeren(key) && Word(k, key) == 0)
             || (call.WaitIo? && key == DeviceKey(call.dev, call.reception))
    ensures BlocksUnder(k, Step(target, k, e), key, p)
  {
    hide Inv, AccountTime, Waiters, BlockCurrent, Resume, DoSyscall;
    var k1, s := AccountTime(k.(delays := e.delays), false), EntryState(target, e);
    EntryWaiters(k, e.delays, key);
    StepInv(target, k, e);
    BlocksForm(k1, e.entry.call, key, s);
    hide KernelInv, EntryState, Step;
    BlockWaiters(k1, key, s, p);
    var k2, k' := BlockCurrent(k1, key, s), Step(target, k, e);
    SyscallStep(target, k, e);
    ResumeWaiters(k2, false, s, key);
    ResumeWords(k2, false, s);
    StillWaiting(k', key, p);
  }

  lemma SyscallStep(target: Target, k: State, e: Event)
    requires e.entry.Syscall?
    ensures Step(target, k, e)
            == DoSyscall(AccountTime(k.(delays := e.delays), false), e.entry.call, EntryState(target, e))
  {
    hide AccountTime, DoSyscall;
  }

  lemma StillWaiting(k: State, key: Key, p: Pid)
    requires KernelInv(k) && p in Waiters(k, key)
    ensures k.current != Some(p) && !Free(k, p) && p < |k.pcb| && k.pcb[p].semKey == Some(key)
  {
    WaiterKey(k, Floating(k), key, p);
    var s := AslSemd(k, Some(key)).value;
    assert On(k.queues, ProcQ(s), p) && !On(k.queues, PcbFree, p);
  }

  lemma ResumeWords(k: State, sliceEnded: bool, s: Context)
    ensures Resume(k, sliceEnded, s).words == k.words && Resume(k, sliceEnded, s).areas == k.areas
  {
    hide AccountTime, EnqueueProcess, SaveContext, Aging, Run;
    RunWords(k);
    if k.current.Some? {
      RunWords(EnqueueProcess(SaveContext(Aging(AccountTime(k, true)), k.current.value, s), k.current.value));
    }
  }

  lemma RunWords(k: State)
    ensures Run(k).words == k.words && Run(k).areas == k.areas
  {
    hide Activation, RemoveFromQueue;
  }

  /** A P on a word that is 0 blocks the caller on that semaphore. */
  lemma PasserenBlocks(target: Target, k: State, e: Event, key: Key, p: Pid)
    requires KernelInv(k) && Enabled(k, e) && k.current == Some(p)
    requires e.entry == Syscall(Passeren(key)) && Word(k, key) == 0
    ensures BlocksUnder(k, Step(target, k, e), key, p)
  {
    hide KernelInv, Step, Enabled, BlocksUnder;
    BlockingCall(target, k, e, key, p);
  }

  /**
   WAITIO on device `i` of a line blocks the caller on the row of that line, and on a
   terminal on row 4 for transmission and row 5 for reception.
   */
  lemma WaitIoBlocks(target: Target, k: State, e: Event, line: nat, i: nat, reception: bool, p: Pid)
    requires KernelInv(k) && Enabled(k, e) && k.current == Some(p) && 3 <= line <= 7 && i < 8
    requires e.entry == Syscall(WaitIo(8 * (line - 3) + i, reception))
    ensures BlocksUnder(k, Step(target, k, e), Device(if line == 7 && reception then 5 else line - 3, i), p)
  {
    hide KernelInv, Step, Enabled, BlocksUnder;
    KeyOfLine(line, i, reception);
    BlockingCall(target, k, e, DeviceKey(8 * (line - 3) + i, reception), p);
  }

  // ----- the areas

  lemma {:induction false} UnblockAllAreas(k: State, cs: seq<Completion>)
    ensures UnblockAll(k, cs).areas == k.areas
    decreases |cs|
  {
    hide RemoveBlocked, EnqueueProcess, SaveContext, Waiters;
    if cs != [] {
      UnblockAllAreas(Unblock(k, cs[0]), cs[1..]);
    }
  }

  lemma ServedAreas(k: State, call: Call, s: Context)
    requires k.current.Some?
    ensures Served(k, call, s).areas == k.areas
  {
    hide AccountTime, AllocPcb, EnqueueProcess, RemoveBlocked, InsertBlocked, SaveContext, KillProcess, Raised, Waiters;
    match call {
      case TerminateProcess(pid) => KillAreas(k, Victim(k, pid));
      case SpecPassUp(_, _, _) => KillAreas(k, k.current.value);
      case _ =>
    }
  }

  lemma KillAreas(k: State, p: Pid)
    ensures KillProcess(k, p).areas == k.areas
  {
    var k1 := if k.current == Some(p) then k.(current := None) else k;
    FinishAllAreas(k1, Post(k1.children, k1.ledger.rank, p));
  }

  lemma {:induction false} FinishAllAreas(k: State, ds: seq<Pid>)
    ensures FinishAll(k, ds).areas == k.areas
    decreases |ds|
  {
    if ds != [] {
      assert Finish(k, ds[0]).areas == k.areas;
      hide Finish;
      FinishAllAreas(Finish(k, ds[0]), ds[1..]);
    }
  }

  /** Only an exception that is passed up writes to a registered area. */
  lemma StepAreas(target: Target, k: State, e: Event)
    requires Raises(e) == None && (e.entry.Syscall? ==> k.current.Some?)
    ensures Step(target, k, e).areas == k.areas
  {
    hide AccountTime, Served, Resume, HandleException, UnblockAll, AllDone, Answer;
    var k1 := AccountTime(k.(delays := e.delays), false);
    match e.entry {
      case Syscall(call) =>
        var s := SyscallContext(target, e.saved);
        ServedAreas(k1, call, s);
        ResumeWords(Served(k1, call, s), false, Answer(k1, call, s));
      case Breakpoint =>
        ResumeWords(k1, false, e.saved);
      case Interrupt(timer, _, _, _, _, _) =>
        UnblockAllAreas(k1, AllDone(e.entry));
        ResumeWords(UnblockAll(k1, AllDone(e.entry)), timer, InterruptContext(target, e.saved));
    }
  }

  // ----- termination

  /** What is left when the subtree of `v` has been killed in a step of `p`. */
  ghost predicate Killed(k: State, k': State, p: Pid, v: Pid) {
    && (forall q: Pid :: Free(k', q) <==> Free(k, q) || Descends(k.pcb, q, v))
    && k'.words == k.words && k'.areas == k.areas
    && (v == p ==> !k'.cpu.Resumed? && k'.current != Some(p))
    && (v != p ==>
          forall h: QueueHead :: h in k.queues && h != PcbFree ==>
            h in k'.queues && k'.queues[h] == Minus(k.queues[h], ToSet(Post(k.children, k.ledger.rank, v))))
  }

  /** The handler killed the subtree of `v`, and `scheduler_resume` follows. */
  lemma KillThenResume(k: State, k1: State, v: Pid, p: Pid, s: Context)
    requires Inv(k1, {p}) && k1.current == Some(p) && v < |k1.pcb| && !Free(k1, v) && ExceptTimes(k, k1)
    ensures var k' := Resume(KillProcess(k1, v), false, s);
            && Killed(k, k', p, v) && (v != p ==> k'.cpu == Resumed(s) && k'.current == Some(p))
  {
    hide Inv, KillProcess, AccountTime, Run;
    KillsDescendants(k1, p, v);
    var k2 := KillProcess(k1, v);
    forall q: Pid ensures Descends(k1.pcb, q, v) <==> Descends(k.pcb, q, v) { DescendsFrame(k.pcb, k1.pcb, q, v); }
    assert forall q: Pid :: Free(k1, q) <==> Free(k, q);
    ResumeFree(k2, false, s);
    ResumeWords(k2, false, s);
    if v == p {
      assert Descends(k.pcb, p, p) by { assert Up(k.pcb, p, 0) == Some(p); }
      ResumeCpu(k2, s);
      NotCurrent(k1, p, s);
    }
  }

  lemma NotCurrent(k: State, p: Pid, s: Context)
    requires Inv(k, {p}) && k.current == Some(p)
    ensures Resume(KillProcess(k, p), false, s).current != Some(p)
  {
    hide Inv, KillProcess, Resume;
    KillCurrentInv(k);
    var k2 := KillProcess(k, p);
    ResumeInv(k2, false, s);
    RoundTrips.DiesHere(k, p);
    ResumeFree(k2, false, s);
    if Resume(k2, false, s).current == Some(p) {
      DanglingBreaks(Resume(k2, false, s), p);
    }
  }

  /**
   TERMINATEPROCESS of `v`, the given pid or the caller itself: a free PCB is refused;
   otherwise exactly `v` and its descendants are freed, and the caller goes on with
   SUCCESS unless it was the target.
   */
  lemma TerminateStep(target: Target, k: State, e: Event, pid: Option<Pid>, p: Pid)
    requires KernelInv(k) && Enabled(k, e) && k.current == Some(p) && e.entry == Syscall(TerminateProcess(pid))
    ensures var v, k', s := if pid == None then p else pid.value, Step(target, k, e), EntryState(target, e);
            if Free(k, v) then Returns(k', k, s.(ret := -1))
            else Killed(k, k', p, v) && (v != p ==> k'.cpu == Resumed(s.(ret := 0)) && k'.current == Some(p))
  {
    var v := if pid == None then p else pid.value;
    CurrentLive(k, p);
    assert Free(k, v) <==> v in Queue(k, PcbFree);
    hide Inv, AccountTime, KillProcess, Resume, EntryState, Enabled;
    var k1, s := AccountTime(k.(delays := e.delays), false), EntryState(target, e);
    EntryExcept(k, e.delays);
    EntryWaiters(k, e.delays, User(0));
    hide KernelInv;
    CallForm(target, k, e, TerminateProcess(pid));
    if Free(k, v) {
      CallReturns(target, k, e, TerminateProcess(pid), p, k);
    } else {
      KillThenResume(k, k1, v, p, s.(ret := 0));
    }
  }

  // ----- SPECPASSUP

  /** A first registration puts the two areas where an exception of that kind finds them. */
  lemma SpecPassUpRegisters(target: Target, k: State, e: Event, kind: nat, o: nat, n: nat, p: Pid)
    requires KernelInv(k) && Enabled(k, e) && k.current == Some(p) && e.entry == Syscall(SpecPassUp(kind, o, n))
    requires p < |k.pcb| && Area(k.pcb[p].newAreas, kind) == 0
    ensures var k', x := Step(target, k, e), k.pcb[p];
            && p < |k'.pcb| && Area(k'.pcb[p].newAreas, kind) == n && Area(k'.pcb[p].oldAreas, kind) == o
            && (forall j: nat :: j != kind ==> Area(k'.pcb[p].newAreas, j) == Area(x.newAreas, j)
                                               && Area(k'.pcb[p].oldAreas, j) == Area(x.oldAreas, j))
            && Returns(k', k.(pcb := k.pcb[p := x.(newAreas := k'.pcb[p].newAreas, oldAreas := k'.pcb[p].oldAreas)]),
                       EntryState(target, e).(ret := 0))
  {
    hide Inv, AccountTime, KillProcess, Resume, EntryState;
    var k1, x := AccountTime(k.(delays := e.delays), false), k.pcb[p];
    EntryExcept(k, e.delays);
    var want := k.(pcb := k.pcb[p := x.(newAreas := x.newAreas[kind := n], oldAreas := x.oldAreas[kind := o])]);
    CallReturns(target, k, e, SpecPassUp(kind, o, n), p, want);
    assert Step(target, k, e).pcb[p].newAreas == want.pcb[p].newAreas;
    assert Step(target, k, e).pcb[p].oldAreas == want.pcb[p].oldAreas;
  }

  /** A second registration frees exactly the caller and its descendants. */
  lemma SpecPassUpTwice(target: Target, k: State, e: Event, kind: nat, o: nat, n: nat, p: Pid)
    requires KernelInv(k) && Enabled(k, e) && k.current == Some(p) && e.entry == Syscall(SpecPassUp(kind, o, n))
    requires p < |k.pcb| && Area(k.pcb[p].newAreas, kind) != 0
    ensures Killed(k, Step(target, k, e), p, p)
  {
    CurrentLive(k, p);
    hide Inv, AccountTime, KillProcess, Resume, EntryState, Enabled;
    var k1, s := AccountTime(k.(delays := e.delays), false), EntryState(target, e);
    EntryExcept(k, e.delays);
    EntryWaiters(k, e.delays, User(0));
    hide KernelInv, Served, Answer, Step;
    CallForm(target, k, e, SpecPassUp(kind, o, n));
    ServedTwice(k1, kind, o, n, p, s);
    KillThenResume(k, k1, p, p, s.(ret := -1));
  }

  lemma ServedTwice(k: State, kind: nat, o: nat, n: nat, p: Pid, s: Context)
    requires k.current == Some(p) && p < |k.pcb| && Area(k.pcb[p].newAreas, kind) != 0
    ensures Served(k, SpecPassUp(kind, o, n), s) == KillProcess(k, p)
    ensures Answer(k, SpecPassUp(kind, o, n), s) == s.(ret := -1)
  {
    hide KillProcess;
  }

  // ----- CREATEPROCESS

  /** What a creation by `c` leaves: a new last child `q`, ready at its own priority, and nothing else moved. */
  ghost predicate Created(k: State, k': State, c: Pid, q: Pid, start: Context, priority: int) {
    && Queue(k, PcbFree) == [q] + Queue(k', PcbFree) && |k'.pcb| == |k.pcb| && q < |k'.pcb|
    && k'.pcb[q] == ZERO_PCB.(ps := start, originalPriority := priority, priority := priority, parent := Some(c))
    && (forall x: Pid :: x < |k.pcb| && x != q && x != c ==> k'.pcb[x] == k.pcb[x])
    && q != c && k.current == Some(c) && c < |k.pcb|
    && k'.pcb[c] == k.pcb[c].(userTm := k'.pcb[c].userTm, kernelTm := k'.pcb[c].kernelTm)
    && k'.children == k.children[q := []][c := KidsOf(k.children, c) + [q]]
    && q in Queue(k', Ready) && Minus(Queue(k', Ready), {q}) == Queue(k, Ready)
    && (forall s: Semd :: Queue(k', ProcQ(s)) == Queue(k, ProcQ(s)))
    && k'.words == k.words && k'.areas == k.areas && k'.semds == k.semds && k'.semKeys == k.semKeys
    && k'.current == k.current
  }

  lemma EnqueueQueue(k: State, q: Pid)
    requires q !in Queue(k, Ready) && q < |k.pcb|
    ensures var k' := EnqueueProcess(k, q);
            && q in Queue(k', Ready) && Minus(Queue(k', Ready), {q}) == Queue(k, Ready)
            && (forall h: QueueHead :: h != Ready ==> Queue(k', h) == Queue(k, h))
            && k'.pcb == k.pcb[q := k.pcb[q].(priority := k.pcb[q].originalPriority)]
  {
    var k1 := SetProc(k, q, k.pcb[q].(priority := k.pcb[q].originalPriority));
    var s := Queue(k, Ready);
    InsertThenMinus(s, InsertIndex(k1.pcb, s, k1.pcb[q].priority), q);
  }

  lemma CreateCreates(k: State, c: Pid, q: Pid, start: Context, priority: int)
    requires Inv(k, {c}) && k.current == Some(c) && Queue(k, PcbFree) != [] && q == Queue(k, PcbFree)[0]
    ensures Created(k, Create(k, start, priority), c, q, start, priority)
  {
    hide Inv, EnqueueProcess, Raised, AllocPcb, Created;
    NewcomerApart(k, c, q);
    AllocLaw(k, q);
    var k1 := AllocPcb(k);
    var k2 := SetProc(k1, q, Proc(k1, q).(ps := start, originalPriority := priority));
    EnqueueQueue(k2, q);
    CreatedForm(k, k1, k2, EnqueueProcess(k2, q), c, q, start, priority);
  }

  lemma NewcomerApart(k: State, c: Pid, q: Pid)
    requires Inv(k, {c}) && Queue(k, PcbFree) != [] && q == Queue(k, PcbFree)[0]
    ensures q < |k.pcb| && c < |k.pcb| && q != c && q !in Queue(k, Ready)
  {
    assert On(k.queues, PcbFree, q) && !On(k.queues, Ready, q);
    assert c in {c};
  }

  lemma CreatedForm(k: State, k1: State, k2: State, k3: State, c: Pid, q: Pid, start: Context, priority: int)
    requires k.current == Some(c) && q < |k.pcb| && c < |k.pcb| && q != c
    requires Queue(k, PcbFree) == [q] + Queue(k1, PcbFree) && k1.pcb == k.pcb[q := ZERO_PCB]
    requires k1.children == k.children[q := []]
    requires k1 == k.(queues := k1.queues, children := k1.children, pcb := k1.pcb, ledger := k1.ledger)
    requires forall h: QueueHead :: h != PcbFree ==> Queue(k1, h) == Queue(k, h)
    requires k2 == k1.(pcb := k1.pcb[q := ZERO_PCB.(ps := start, originalPriority := priority)])
    requires q in Queue(k3, Ready) && Minus(Queue(k3, Ready), {q}) == Queue(k2, Ready)
    requires forall h: QueueHead :: h != Ready ==> Queue(k3, h) == Queue(k2, h)
    requires k3.pcb == k2.pcb[q := k2.pcb[q].(priority := k2.pcb[q].originalPriority)]
    requires k3 == k2.(queues := k3.queues, pcb := k3.pcb, ledger := k3.ledger)
    ensures Created(k, InsertChild(k3, c, q), c, q, start, priority)
  {
    hide Raised;
    var k4 := InsertChild(k3, c, q);
    assert KidsOf(k3.children, c) == KidsOf(k.children, c);
    assert forall h: QueueHead :: Queue(k4, h) == Queue(k3, h);
    assert k4.pcb == k3.pcb[q := k3.pcb[q].(parent := Some(c))];
  }

  lemma AllocLaw(k: State, q: Pid)
    requires Queue(k, PcbFree) != [] && q == Queue(k, PcbFree)[0] && q < |k.pcb|
    ensures var k' := AllocPcb(k);
            && Queue(k, PcbFree) == [q] + Queue(k', PcbFree) && k'.pcb == k.pcb[q := ZERO_PCB]
            && k'.children == k.children[q := []]
            && forall h: QueueHead :: h != PcbFree ==> Queue(k', h) == Queue(k, h)
  {
  }

  /**
   CREATEPROCESS fails exactly without a free PCB; otherwise the first free PCB becomes
   the last child of the caller, ready at the given priority in the given state, and
   the caller goes on with SUCCESS.
   */
  lemma CreateStep(target: Target, k: State, e: Event, start: Context, priority: int, c: Pid)
    requires KernelInv(k) && Enabled(k, e) && k.current == Some(c) && e.entry == Syscall(CreateProcess(start, priority))
    ensures var k', s, free := Step(target, k, e), EntryState(target, e), Queue(k, PcbFree);
            if free == [] then Returns(k', k, s.(ret := -1))
            else Created(k, k', c, free[0], start, priority) && k'.cpu == Resumed(s.(ret := 0))
  {
    hide Inv, AccountTime, Create, Resume, EntryState, Enabled;
    var k1, s := AccountTime(k.(delays := e.delays), false), EntryState(target, e);
    EntryExcept(k, e.delays);
    EntryWaiters(k, e.delays, User(0));
    hide KernelInv;
    if Queue(k, PcbFree) == [] {
      NothingToCreate(k1, start, priority);
      CallReturns(target, k, e, CreateProcess(start, priority), c, k);
    } else {
      var q := Queue(k, PcbFree)[0];
      CreateCreates(k1, c, q, start, priority);
      CallForm(target, k, e, CreateProcess(start, priority));
      StaysForm(Create(k1, start, priority), s.(ret := 0), c);
      CreatedFrame(k, k1, Create(k1, start, priority), Step(target, k, e), c, q, start, priority);
    }
  }

  lemma NothingToCreate(k: State, start: Context, priority: int)
    requires Queue(k, PcbFree) == []
    ensures Create(k, start, priority) == k
  {
  }

  lemma CreatedFrame(k: State, k1: State, k2: State, k': State, c: Pid, q: Pid, start: Context, priority: int)
    requires ExceptTimes(k, k1) && Created(k1, k2, c, q, start, priority) && ExceptTimes(k2, k')
    ensures Created(k, k', c, q, start, priority)
  {
  }

  // ----- boot

  lemma BootForm(k: State, q: Pid, start: Context)
    requires Queue(k, PcbFree) != [] && q == Queue(k, PcbFree)[0] && q < |k.pcb| && Queue(k, Ready) == []
    ensures var k1 := AllocPcb(k);
            var x := Proc(k1, q).(ps := start, originalPriority := DEFAULT_PRIORITY);
            var k2 := EnqueueProcess(SetProc(k1, q, x), q);
            && Queue(k, PcbFree) == [q] + Queue(k2, PcbFree) && Queue(k2, Ready) == [q] && |k2.pcb| == |k.pcb|
            && k2.pcb[q] == ZERO_PCB.(ps := start, originalPriority := 1, priority := 1) && k2.words == k.words
  {
    AllocLaw(k, q);
    hide AllocPcb, EnqueueProcess;
    var k1 := AllocPcb(k);
    var k2 := SetProc(k1, q, Proc(k1, q).(ps := start, originalPriority := DEFAULT_PRIORITY));
    EnqueueQueue(k2, q);
    OnlyOne(Queue(EnqueueProcess(k2, q), Ready), q);
  }

  lemma OnlyOne(s: seq<Pid>, q: Pid)
    requires q in s && Minus(s, {q}) == [] && |s| <= 1
    ensures s == [q]
  {
  }

  /**
   The kernel boots into one process: it runs in the given state at priority 1, without a
   parent, every other PCB is free, and the semaphore words are the given ones.
   */
  lemma BootLaw(n: nat, start: Context, words: map<Key, int>, delays: seq<nat>)
    requires n >= 1
    ensures var k := Boot(n, start, words, delays); var q: Pid := n - 1;
            && k.cpu == Running(q, start) && k.current == Some(q) && |k.pcb| == n && k.words == words
            && k.pcb[q].ps == start && k.pcb[q].priority == k.pcb[q].originalPriority == 1 && k.pcb[q].parent == None
            && Queue(k, Ready) == [] && forall p: Pid :: Free(k, p) <==> p < n - 1
  {
    var k := Tables(n, words, delays);
    var q: Pid := n - 1;
    BootTables(n, words, delays);
    hide Tables, AllocPcb, EnqueueProcess, Run;
    BootForm(k, q, start);
    var k1 := AllocPcb(k);
    var k2 := EnqueueProcess(SetProc(k1, q, Proc(k1, q).(ps := start, originalPriority := DEFAULT_PRIORITY)), q);
    RunAlone(k2, q);
  }

  lemma BootTables(n: nat, words: map<Key, int>, delays: seq<nat>)
    requires n >= 1
    ensures var k := Tables(n, words, delays);
            Queue(k, PcbFree) == [n - 1] + Down(n - 1) && Queue(k, Ready) == [] && |k.pcb| == n && k.words == words
  {
  }

  lemma RunAlone(k: State, q: Pid)
    requires Queue(k, Ready) == [q] && q < |k.pcb|
    ensures var k' := Run(k);
            && k'.cpu == Running(q, k.pcb[q].ps) && k'.current == Some(q) && |k'.pcb| == |k.pcb| && k'.words == k.words
            && k'.pcb[q] == k.pcb[q].(startTm := k'.pcb[q].startTm)
            && Queue(k', Ready) == [] && Queue(k', PcbFree) == Queue(k, PcbFree)
  {
    RunLoads(k);
    RunWords(k);
    hide Activation;
    MinusSelf(q);
  }
}
