/**
 Semaphore accounting over runs.  V's, completed P's and holders are read off the events
 of a run and the states in which they occur: a word is its initial value plus the V's
 minus the completed P's, it is 0 while somebody waits, and no more processes than it
 started with are ever between a completed P and their V.
 */
module Semaphores {
  import opened Sequences
  import opened KernelState
  import opened KernelSteps
  import opened Invariants
  import opened ActiveSemaphores
  import opened Termination
  import opened ProcessTree
  import opened KernelRuns

  function Initial(words: map<Key, int>, key: Key): int {
    if key in words then words[key] else 0
  }

  ghost predicate BlockedOn(k: State, p: Pid, key: Key) {
    p < |k.pcb| && !Free(k, p) && k.pcb[p].semKey == Some(key)
  }

  /** No positive value while somebody waits. */
  ghost predicate Calm(k: State, key: Key) {
    forall p: Pid :: BlockedOn(k, p, key) ==> Word(k, key) == 0
  }

  /** Nothing happens to `key`, except that waiters of a user program may disappear. */
  ghost predicate Quiet(k: State, k': State, key: Key) {
    && Word(k', key) == Word(k, key)
    && (key.User? ==> forall p: Pid :: BlockedOn(k', p, key) ==> BlockedOn(k, p, key))
  }

  lemma SubsetSize(a: set<Pid>, b: set<Pid>)
    requires a <= b
    ensures |a| <= |b|
  {
    if a != {} {
      var x :| x in a;
      SubsetSize(a - {x}, b - {x});
    }
  }

  lemma QuietTrans(k: State, k1: State, k2: State, key: Key)
    requires Quiet(k, k1, key) && Quiet(k1, k2, key)
    ensures Quiet(k, k2, key)
  {
  }

  /** Whatever leaves words, keys and the free list alone is quiet. */
  lemma SameKeysQuiet(k: State, k': State, key: Key)
    requires k'.words == k.words && |k'.pcb| == |k.pcb|
    requires forall p: Pid :: p < |k.pcb| ==> k'.pcb[p].semKey == k.pcb[p].semKey || k'.pcb[p].semKey != Some(key)
    requires forall p: Pid :: Free(k, p) ==> Free(k', p) || (p < |k.pcb| && k'.pcb[p].semKey != Some(key))
    ensures Quiet(k, k', key)
  {
  }

  lemma AccountQuiet(k: State, kernel: bool, key: Key)
    ensures Quiet(k, AccountTime(k, kernel), key)
  {
  }

  lemma RunQuiet(k: State, key: Key)
    ensures Quiet(k, Run(k), key)
  {
  }

  lemma DispatchQuiet(k: State, key: Key)
    ensures Quiet(k, Dispatch(k), key)
  {
    hide Run;
    if Queue(k, Ready) == [] {
      SameKeysQuiet(k, Dispatch(k), key);
    } else {
      RunQuiet(k, key);
    }
  }

  lemma EnqueueQuiet(k: State, p: Pid, key: Key)
    ensures Quiet(k, EnqueueProcess(k, p), key)
  {
  }

  lemma EnqueueFree(k: State, p: Pid)
    ensures forall x: Pid :: Free(EnqueueProcess(k, p), x) <==> Free(k, x)
  {
  }

  lemma ExpireQuiet(k: State, p: Pid, s: Context, key: Key)
    ensures Quiet(k, EnqueueProcess(SaveContext(Aging(k), p, s), p), key)
  {
    hide EnqueueProcess, SaveContext;
    var k1 := SaveContext(Aging(k), p, s);
    SameKeysQuiet(k, k1, key);
    EnqueueQuiet(k1, p, key);
    QuietTrans(k, k1, EnqueueProcess(k1, p), key);
  }

  lemma ResumeQuiet(k: State, sliceEnded: bool, s: Context, key: Key)
    ensures Quiet(k, Resume(k, sliceEnded, s), key)
  {
    hide AccountTime, EnqueueProcess, SaveContext, Aging, Dispatch, Quiet;
    if k.current.None? {
      DispatchQuiet(k, key);
    } else {
      var p, k1 := k.current.value, AccountTime(k, true);
      AccountQuiet(k, true, key);
      if sliceEnded {
        var k2 := EnqueueProcess(SaveContext(Aging(k1), p, s), p);
        ExpireQuiet(k1, p, s, key);
        QuietTrans(k, k1, k2, key);
        DispatchQuiet(k2, key);
        QuietTrans(k, k2, Dispatch(k2), key);
      } else {
        var k2 := k1.(cpu := Resumed(s));
        SameKeysQuiet(k1, k2, key);
        QuietTrans(k, k1, k2, key);
      }
    }
  }

  lemma RemovedQuiet(k: State, k': State, ds: seq<Pid>, key: Key)
    requires Removed(k, k', ds)
    ensures Quiet(k, k', key)
  {
  }

  lemma KillQuiet(k: State, p: Pid, key: Key)
    requires Inv(k, Floating(k)) && k.current.Some? && p < |k.pcb| && !Free(k, p)
    ensures Quiet(k, KillProcess(k, p), key)
  {
    var q := k.current.value;
    var k1 := if k.current == Some(p) then k.(current := None) else k;
    AlikeInv(k, k1, {q});
    SameKeysQuiet(k, k1, key);
    hide Inv, KillTree, Quiet;
    KillTreeTheorem(k1, {q}, p);
    RemovedQuiet(k1, KillTree(k1, p), Post(k1.children, k1.ledger.rank, p), key);
    QuietTrans(k, k1, KillTree(k1, p), key);
  }

  lemma AllocQuiet(k: State, fl: set<Pid>, key: Key)
    requires Inv(k, fl) && Queue(k, PcbFree) != []
    ensures Quiet(k, AllocPcb(k), key)
  {
  }

  lemma NewcomerQuiet(k: State, fl: set<Pid>, start: Context, priority: int, key: Key)
    requires Inv(k, fl) && Queue(k, PcbFree) != []
    ensures var p, k1 := Queue(k, PcbFree)[0], AllocPcb(k);
            Quiet(k, EnqueueProcess(SetProc(k1, p, Proc(k1, p).(ps := start, originalPriority := priority)), p), key)
  {
    AllocQuiet(k, fl, key);
    hide Inv, AllocPcb, EnqueueProcess, Quiet;
    var p, k1 := Queue(k, PcbFree)[0], AllocPcb(k);
    var k2 := SetProc(k1, p, Proc(k1, p).(ps := start, originalPriority := priority));
    SameKeysQuiet(k1, k2, key);
    QuietTrans(k, k1, k2, key);
    EnqueueQuiet(k2, p, key);
    QuietTrans(k, k2, EnqueueProcess(k2, p), key);
  }

  lemma CreateQuiet(k: State, start: Context, priority: int, key: Key)
    requires Inv(k, Floating(k))
    ensures Quiet(k, Create(k, start, priority), key)
  {
    hide Inv, AllocPcb, EnqueueProcess, Quiet, Raised;
    if Queue(k, PcbFree) != [] && k.current.Some? {
      var p, k1 := Queue(k, PcbFree)[0], AllocPcb(k);
      NewcomerQuiet(k, Floating(k), start, priority, key);
      var k3 := EnqueueProcess(SetProc(k1, p, Proc(k1, p).(ps := start, originalPriority := priority)), p);
      var k4 := InsertChild(k3, k.current.value, p);
      SameKeysQuiet(k3, k4, key);
      QuietTrans(k, k3, k4, key);
    } else {
      SameKeysQuiet(k, k, key);
    }
  }

  /** Blocking on one key does not concern another. */
  lemma BlockQuiet(k: State, other: Key, s: Context, key: Key)
    requires Inv(k, Floating(k)) && k.current.Some? && (key.User? ==> other != key)
    ensures Quiet(k, BlockCurrent(k, other, s), key)
  {
    var p := k.current.value;
    CurrentLive(k, p);
    hide Inv, AccountTime, SaveContext, InsertBlocked, Quiet;
    SaveContextInv(k, {p}, p, s);
    var k1 := SaveContext(k, p, s);
    SameKeysQuiet(k, k1, key);
    AccountInv(k1, {p}, true);
    AccountQuiet(k1, true, key);
    var k2 := AccountTime(k1, true);
    QuietTrans(k, k1, k2, key);
    InsertQuiet(k2, other, p, key);
    QuietTrans(k, k2, BlockCurrent(k, other, s), key);
  }

  lemma InsertQuiet(k: State, other: Key, p: Pid, key: Key)
    requires Inv(k, {p}) && p < |k.pcb| && (key.User? ==> other != key)
    ensures Quiet(k, InsertBlocked(k, other, p).(current := None), key)
  {
    hide Inv, InsertBlocked;
    BlockedKeys(k, {p}, other, p);
  }

  lemma BlockedKeys(k: State, fl: set<Pid>, key: Key, p: Pid)
    requires Inv(k, fl) && p in fl
    ensures var k' := InsertBlocked(k, key, p);
            && k'.pcb == k.pcb[p := k.pcb[p].(semKey := Some(key))]
            && k'.ledger == k.ledger.(stamp := k'.ledger.stamp, stamps := k'.ledger.stamps)
            && forall x: Pid :: Free(k', x) <==> Free(k, x)
  {
    DescriptorAvailable(k, fl);
    var s := InsertBlockedForm(k, fl, key, p);
    BlockedInv(k, InsertBlocked(k, key, p), fl, key, p, s);
    hide Inv, InsertBlocked;
  }

  /** Waking a process never adds a waiter anywhere. */
  lemma WakeQuiet(k: State, fl: set<Pid>, other: Key, key: Key)
    requires Inv(k, fl) && Waiters(k, other) != []
    ensures Quiet(k, EnqueueProcess(RemoveBlocked(k, other), Waiters(k, other)[0]), key)
  {
    var p := Waiters(k, other)[0];
    var k1 := RemoveBlocked(k, other);
    RemoveBlockedInv(k, fl, other);
    WokenKeys(k, fl, other);
    hide Inv, RemoveBlocked, EnqueueProcess, Waiters;
    SameKeysQuiet(k, k1, key);
    EnqueueQuiet(k1, p, key);
    QuietTrans(k, k1, EnqueueProcess(k1, p), key);
  }

  lemma WokenKeys(k: State, fl: set<Pid>, key: Key)
    requires Inv(k, fl) && Waiters(k, key) != []
    ensures var p, k' := Waiters(k, key)[0], RemoveBlocked(k, key);
            && p < |k.pcb| && k'.pcb == k.pcb[p := k.pcb[p].(semKey := None)] && !Free(k, p)
            && forall x: Pid :: Free(k', x) <==> Free(k, x)
  {
    var k1, s, p := RemoveBlockedForm(k, key);
    RemoveBlockedInv(k, fl, key);
    assert On(k.queues, ProcQ(s), p) && !On(k.queues, PcbFree, p);
  }

  lemma UnblockQuiet(k: State, fl: set<Pid>, c: Completion, key: Key)
    requires Inv(k, fl)
    ensures Quiet(k, Unblock(k, c), key)
  {
    hide Inv, EnqueueProcess, RemoveBlocked, Waiters;
    var s := Waiters(k, c.key);
    if s == [] {
      SameKeysQuiet(k, k, key);
    } else {
      WakeQuiet(k, fl, c.key, key);
      var k1 := EnqueueProcess(RemoveBlocked(k, c.key), s[0]);
      SameKeysQuiet(k1, Unblock(k, c), key);
      QuietTrans(k, k1, Unblock(k, c), key);
    }
  }

  lemma {:induction false} UnblockAllQuiet(k: State, fl: set<Pid>, cs: seq<Completion>, key: Key)
    requires Inv(k, fl)
    ensures Quiet(k, UnblockAll(k, cs), key)
    decreases |cs|
  {
    hide Inv, Unblock;
    if cs == [] {
      SameKeysQuiet(k, k, key);
    } else {
      UnblockQuiet(k, fl, cs[0], key);
      UnblockInv(k, fl, cs[0]);
      UnblockAllQuiet(Unblock(k, cs[0]), fl, cs[1..], key);
      QuietTrans(k, Unblock(k, cs[0]), UnblockAll(k, cs), key);
    }
  }

  // ----- V and P on other keys, and every other call

  lemma VerhogenQuiet(k: State, other: Key, key: Key)
    requires Inv(k, Floating(k)) && k.current.Some? && other != key
    ensures Quiet(k, DoVerhogen(k, other), key)
  {
    hide Inv, EnqueueProcess, RemoveBlocked, Quiet, Waiters;
    if Waiters(k, other) != [] {
      WakeQuiet(k, Floating(k), other, key);
    } else {
      WordQuiet(k, other, Word(k, other) + 1, key);
    }
  }

  lemma WaitersFrame(k: State, k': State, key: Key)
    requires k'.semKeys == k.semKeys && k'.semds == k.semds && k'.queues == k.queues
    ensures Waiters(k', key) == Waiters(k, key)
  {
  }

  lemma WordQuiet(k: State, other: Key, x: int, key: Key)
    requires other != key
    ensures Quiet(k, k.(words := k.words[other := x]), key)
  {
  }

  lemma PasserenQuiet(k: State, other: Key, s: Context, key: Key)
    requires Inv(k, Floating(k)) && k.current.Some? && other != key
    ensures Quiet(k, DoPasseren(k, other, s), key)
  {
    hide Inv, BlockCurrent;
    if Word(k, other) == 0 {
      BlockQuiet(k, other, s, key);
    }
  }

  predicate Touches(call: Call, key: Key) {
    call == Verhogen(key) || call == Passeren(key)
  }

  lemma TerminateQuiet(k: State, pid: Option<Pid>, key: Key)
    requires Inv(k, Floating(k)) && k.current.Some? && (pid.Some? ==> pid.value < |k.pcb|)
    ensures Quiet(k, Terminate(k, Victim(k, pid)), key)
  {
    var v := Victim(k, pid);
    CurrentLive(k, k.current.value);
    hide Inv, KillProcess;
    if v !in Queue(k, PcbFree) {
      KillQuiet(k, v, key);
    }
  }

  lemma PassUpQuiet(k: State, kind: nat, oldArea: nat, newArea: nat, key: Key)
    requires Inv(k, Floating(k)) && k.current.Some?
    ensures Quiet(k, DoSpecPassUp(k, k.current.value, kind, oldArea, newArea), key)
  {
    CurrentLive(k, k.current.value);
    hide Inv, KillProcess, RegisterPassUp;
    KillQuiet(k, k.current.value, key);
    SameKeysQuiet(k, RegisterPassUp(k, k.current.value, kind, oldArea, newArea), key);
  }

  lemma ServedQuiet(k: State, call: Call, s: Context, key: Key)
    requires Inv(k, Floating(k)) && k.current.Some? && !Touches(call, key)
    requires call.TerminateProcess? && call.pid.Some? ==> call.pid.value < |k.pcb|
    ensures Quiet(k, Served(k, call, s), key)
  {
    hide Inv, AccountTime, Create, DoVerhogen, DoPasseren, BlockCurrent, Terminate, DoSpecPassUp, Quiet;
    SameKeysQuiet(k, k, key);
    match call {
      case GetCpuTime => AccountQuiet(k, true, key);
      case CreateProcess(start, priority) => CreateQuiet(k, start, priority, key);
      case TerminateProcess(pid) => TerminateQuiet(k, pid, key);
      case Verhogen(other) => VerhogenQuiet(k, other, key);
      case Passeren(other) => PasserenQuiet(k, other, s, key);
      case WaitIo(dev, reception) => BlockQuiet(k, DeviceKey(dev, reception), s, key);
      case SpecPassUp(kind, oldArea, newArea) => PassUpQuiet(k, kind, oldArea, newArea, key);
      case GetPid =>
      case OtherCall =>
    }
  }

  lemma ExceptionQuiet(k: State, kind: nat, s: Context, key: Key)
    requires Inv(k, Floating(k)) && k.current.Some?
    ensures Quiet(k, HandleException(k, kind, s), key)
  {
    hide Inv, AccountTime, KillProcess, Resume, Quiet;
    var p := k.current.value;
    AccountInv(k, {p}, false);
    AccountQuiet(k, false, key);
    var k1 := AccountTime(k, false);
    if Area(Proc(k1, p).newAreas, kind) != 0 {
      var k2 := k1.(areas := k1.areas[Area(Proc(k1, p).oldAreas, kind) := s]);
      SameKeysQuiet(k1, k2, key);
      QuietTrans(k, k1, k2, key);
      AccountQuiet(k2, true, key);
      QuietTrans(k, k2, AccountTime(k2, true), key);
      SameKeysQuiet(AccountTime(k2, true), HandleException(k, kind, s), key);
      QuietTrans(k, AccountTime(k2, true), HandleException(k, kind, s), key);
    } else {
      CurrentLive(k1, p);
      KillQuiet(k1, p, key);
      QuietTrans(k, k1, KillProcess(k1, p), key);
      ResumeQuiet(KillProcess(k1, p), false, ZERO_CONTEXT, key);
      QuietTrans(k, KillProcess(k1, p), HandleException(k, kind, s), key);
    }
  }

  // ----- V and P on the key itself

  lemma NobodyBlocked(k: State, key: Key)
    requires Inv(k, Floating(k)) && Waiters(k, key) == []
    ensures forall p: Pid :: !BlockedOn(k, p, key)
  {
    forall p: Pid | p < |k.pcb| && !Free(k, p)
      ensures k.pcb[p].semKey != Some(key)
    {
      SemKeyIsQueue(k, Floating(k), p, key);
    }
  }

  /** The effect of one step on the word of `key`, and on its waiters. */
  ghost predicate Moves(k: State, k': State, key: Key, d: int) {
    Word(k', key) == Word(k, key) + d && (key.User? && Calm(k, key) ==> Calm(k', key))
  }

  lemma QuietMoves(k: State, k': State, key: Key)
    requires Quiet(k, k', key)
    ensures Moves(k, k', key, 0)
  {
  }

  lemma MovesTrans(k: State, k1: State, k2: State, key: Key, c: int, d: int)
    requires Moves(k, k1, key, c) && Moves(k1, k2, key, d)
    ensures Moves(k, k2, key, c + d)
  {
  }

  lemma VerhogenMoves(k: State, key: Key)
    requires Inv(k, Floating(k))
    ensures Moves(k, DoVerhogen(k, key), key, if Waiters(k, key) == [] then 1 else 0)
  {
    hide Inv, EnqueueProcess, RemoveBlocked, Waiters;
    if Waiters(k, key) != [] {
      WakeQuiet(k, Floating(k), key, key);
    } else {
      NobodyBlocked(k, key);
      forall p: Pid
        ensures !BlockedOn(DoVerhogen(k, key), p, key)
      {
        assert !BlockedOn(k, p, key);
      }
    }
  }

  lemma PasserenMoves(k: State, s: Context, key: Key)
    requires Inv(k, Floating(k)) && k.current.Some?
    ensures Moves(k, DoPasseren(k, key, s), key, if Word(k, key) == 0 then 0 else -1)
  {
    hide Inv, BlockCurrent;
    if Word(k, key) != 0 {
      forall p: Pid
        ensures BlockedOn(DoPasseren(k, key, s), p, key) ==> BlockedOn(k, p, key)
      {
      }
    } else {
      BlockWords(k, key, s);
    }
  }

  lemma BlockWords(k: State, key: Key, s: Context)
    ensures BlockCurrent(k, key, s).words == k.words
  {
    hide AccountTime, SaveContext, InsertBlocked;
  }

  // ----- steps and runs

  /** The step is a V on `key`. */
  predicate Signals(e: Event, key: Key) {
    e.entry == Syscall(Verhogen(key))
  }

  /** The step completes a P on `key`: one that finds a token, or that of the first waiter at a V. */
  predicate Completes(k: State, e: Event, key: Key) {
    || (e.entry == Syscall(Passeren(key)) && Word(k, key) != 0)
    || (e.entry == Syscall(Verhogen(key)) && Waiters(k, key) != [])
  }

  function Change(k: State, e: Event, key: Key): int {
    (if Signals(e, key) then 1 else 0) - (if Completes(k, e, key) then 1 else 0)
  }

  lemma ServedMoves(k: State, call: Call, s: Context, key: Key, e: Event)
    requires Inv(k, Floating(k)) && k.current.Some? && e.entry == Syscall(call)
    requires call.TerminateProcess? && call.pid.Some? ==> call.pid.value < |k.pcb|
    ensures Moves(k, Served(k, call, s), key, Change(k, e, key))
  {
    hide Inv, Moves, DoVerhogen, DoPasseren, Waiters;
    if call == Verhogen(key) {
      VerhogenMoves(k, key);
    } else if call == Passeren(key) {
      PasserenMoves(k, s, key);
    } else {
      hide Served, Quiet;
      ServedQuiet(k, call, s, key);
      QuietMoves(k, Served(k, call, s), key);
    }
  }

  lemma EntryQuiet(k: State, delays: seq<nat>, key: Key)
    requires KernelInv(k)
    ensures var k0 := k.(delays := delays); var k1 := AccountTime(k0, false);
            && Inv(k0, Floating(k)) && Inv(k1, Floating(k)) && Quiet(k, k0, key) && Quiet(k, k1, key)
            && Waiters(k1, key) == Waiters(k, key) && Word(k1, key) == Word(k, key)
  {
    hide Inv, AccountTime;
    var k0 := k.(delays := delays);
    AlikeInv(k, k0, Floating(k));
    AccountInv(k0, Floating(k), false);
    SameKeysQuiet(k, AccountTime(k0, false), key);
    WaitersFrame(k, AccountTime(k0, false), key);
  }

  lemma SyscallMoves(k: State, call: Call, s: Context, key: Key, e: Event)
    requires Inv(k, Floating(k)) && k.current.Some? && e.entry == Syscall(call)
    requires call.TerminateProcess? && call.pid.Some? ==> call.pid.value < |k.pcb|
    ensures Moves(k, DoSyscall(k, call, s), key, Change(k, e, key))
  {
    hide Inv, Served, Resume, HandleException, Quiet, Moves, Waiters;
    if call.OtherCall? {
      ExceptionQuiet(k, 0, s, key);
      QuietMoves(k, HandleException(k, 0, s), key);
    } else {
      ServedMoves(k, call, s, key, e);
      var k1 := Served(k, call, s);
      ResumeQuiet(k1, false, Answer(k, call, s), key);
      QuietMoves(k1, DoSyscall(k, call, s), key);
      MovesTrans(k, k1, DoSyscall(k, call, s), key, Change(k, e, key), 0);
    }
  }

  /** Every step changes the word by its V and its completed P, and leaves it 0 while somebody waits. */
  lemma StepMoves(target: Target, k: State, e: Event, key: Key)
    requires KernelInv(k) && Enabled(k, e)
    ensures Moves(k, Step(target, k, e), key, Change(k, e, key))
  {
    EntryQuiet(k, e.delays, key);
    hide Inv, KernelInv, AccountTime, Resume, DoSyscall, HandleException, UnblockAll, AllDone, Quiet, Moves, Waiters;
    var k0, k' := k.(delays := e.delays), Step(target, k, e);
    var k1 := AccountTime(k0, false);
    QuietMoves(k, k1, key);
    match e.entry {
      case Syscall(call) =>
        SyscallMoves(k1, call, SyscallContext(target, e.saved), key, e);
        MovesTrans(k, k1, k', key, 0, Change(k, e, key));
      case Breakpoint =>
        ResumeQuiet(k1, false, e.saved, key);
        QuietTrans(k, k1, k', key);
        QuietMoves(k, k', key);
      case Trap(kind) =>
        ExceptionQuiet(k0, kind, e.saved, key);
        QuietTrans(k, k0, k', key);
        QuietMoves(k, k', key);
      case Interrupt(timer, _, _, _, _, _) =>
        UnblockAllQuiet(k1, Floating(k), AllDone(e.entry), key);
        var k2 := UnblockAll(k1, AllDone(e.entry));
        QuietTrans(k, k1, k2, key);
        ResumeQuiet(k2, timer, InterruptContext(target, e.saved), key);
        QuietTrans(k, k2, k', key);
        QuietMoves(k, k', key);
    }
  }

  /** How many V's on `key` the run contains. */
  function Vs(es: seq<Event>, key: Key): nat {
    if es == [] then 0 else (if Signals(es[0], key) then 1 else 0) + Vs(es[1..], key)
  }

  /** How many P's on `key` complete in the run. */
  function Ps(target: Target, k: State, es: seq<Event>, key: Key): nat
    decreases |es|
  {
    if es == [] then 0
    else (if Completes(k, es[0], key) then 1 else 0) + Ps(target, Step(target, k, es[0]), es[1..], key)
  }

  /**
   Conservation over every run: the word is what it was, plus the V's, minus the
   completed P's; and a semaphore of a user program stays 0 while somebody waits.
   */
  lemma {:induction false} Conservation(target: Target, k: State, es: seq<Event>, key: Key)
    requires KernelInv(k) && EnabledRun(target, k, es)
    ensures var k' := RunSteps(target, k, es);
            && Word(k', key) == Word(k, key) + Vs(es, key) - Ps(target, k, es, key)
            && (key.User? && Calm(k, key) ==> Calm(k', key) && (Waiters(k', key) != [] ==> Word(k', key) == 0))
    decreases |es|
  {
    if es == [] {
      WaitersZero(k, key);
    } else {
      hide KernelInv, Step, Calm, Waiters, Completes;
      StepInv(target, k, es[0]);
      StepMoves(target, k, es[0], key);
      Conservation(target, Step(target, k, es[0]), es[1..], key);
    }
  }

  lemma WaitersZero(k: State, key: Key)
    requires KernelInv(k)
    ensures Calm(k, key) && Waiters(k, key) != [] ==> Word(k, key) == 0
  {
    if Waiters(k, key) != [] {
      var p := Waiters(k, key)[0];
      var s := AslSemd(k, Some(key)).value;
      assert On(k.queues, ProcQ(s), p) && !On(k.queues, PcbFree, p);
      SemKeyIsQueue(k, Floating(k), p, key);
      assert BlockedOn(k, p, key);
    }
  }

  // ----- holders

  /** Who gives a token back in this step, and who gets one. */
  function Givers(k: State, e: Event, key: Key): set<Pid> {
    if Signals(e, key) && k.current.Some? then {k.current.value} else {}
  }

  function Takers(k: State, e: Event, key: Key): set<Pid> {
    if !Completes(k, e, key) then {}
    else if Signals(e, key) then {Waiters(k, key)[0]}
    else if k.current.Some? then {k.current.value}
    else {}
  }

  /** The holders after a step: without who gave, with who took, and without the dead. */
  ghost function HoldersAfter(target: Target, k: State, held: set<Pid>, e: Event, key: Key): set<Pid> {
    var k' := Step(target, k, e);
    set p | p in held - Givers(k, e, key) + Takers(k, e, key) && !Free(k', p)
  }

  /** The processes between a completed P and their V at the end of a run. */
  ghost function Holders(target: Target, k: State, held: set<Pid>, es: seq<Event>, key: Key): set<Pid>
    decreases |es|
  {
    if es == [] then held
    else Holders(target, Step(target, k, es[0]), HoldersAfter(target, k, held, es[0], key), es[1..], key)
  }

  /** Every V on `key` in the run comes from a holder. */
  ghost predicate DisciplinedRun(target: Target, k: State, held: set<Pid>, es: seq<Event>, key: Key)
    decreases |es|
  {
    || es == []
    || (&& Givers(k, es[0], key) <= held
        && DisciplinedRun(target, Step(target, k, es[0]), HoldersAfter(target, k, held, es[0], key), es[1..], key))
  }

  /** The tokens in the word and with the holders never exceed `n`. */
  ghost predicate HoldersInv(k: State, held: set<Pid>, n: int, key: Key) {
    Word(k, key) >= 0 && Word(k, key) + |held| <= n
  }

  lemma ExchangeSize(held: set<Pid>, a: set<Pid>, b: set<Pid>, c: set<Pid>)
    requires a <= held && c <= held - a + b
    ensures |c| <= |held| - |a| + |b|
  {
    SubsetSize(c, held - a + b);
    SubsetSize(a, held);
    assert held == (held - a) + a;
  }

  lemma StepHolders(target: Target, k: State, held: set<Pid>, e: Event, n: int, key: Key)
    requires KernelInv(k) && Enabled(k, e) && HoldersInv(k, held, n, key) && Givers(k, e, key) <= held
    ensures HoldersInv(Step(target, k, e), HoldersAfter(target, k, held, e, key), n, key)
  {
    hide KernelInv, Step, Waiters;
    StepMoves(target, k, e, key);
    ExchangeSize(held, Givers(k, e, key), Takers(k, e, key), HoldersAfter(target, k, held, e, key));
  }

  /** With P-then-V use, a semaphore that starts at `n` never has more than `n` holders. */
  lemma {:induction false} AtMostN(target: Target, k: State, held: set<Pid>, es: seq<Event>, n: int, key: Key)
    requires KernelInv(k) && EnabledRun(target, k, es) && DisciplinedRun(target, k, held, es, key)
    requires HoldersInv(k, held, n, key)
    ensures HoldersInv(RunSteps(target, k, es), Holders(target, k, held, es, key), n, key)
    decreases |es|
  {
    if es != [] {
      hide KernelInv, Step, HoldersAfter, HoldersInv, Enabled;
      StepInv(target, k, es[0]);
      StepHolders(target, k, held, es[0], n, key);
      AtMostN(target, Step(target, k, es[0]), HoldersAfter(target, k, held, es[0], key), es[1..], n, key);
    }
  }

  // ----- from boot

  /** Conservation from boot, for a semaphore that starts at 0 or above. */
  lemma ConservationFromBoot(target: Target, n: nat, start: Context, words: map<Key, int>, delays: seq<nat>,
                             es: seq<Event>, key: Key)
    requires n >= 1 && key.User? && Initial(words, key) >= 0
    requires EnabledRun(target, Boot(n, start, words, delays), es)
    ensures var k0 := Boot(n, start, words, delays); var k := RunSteps(target, k0, es);
            && 0 <= Word(k, key) == Initial(words, key) + Vs(es, key) - Ps(target, k0, es, key)
            && (Waiters(k, key) != [] ==> Word(k, key) == 0)
  {
    hide KernelInv, Boot, RunSteps, EnabledRun, Waiters;
    var k0 := Boot(n, start, words, delays);
    BootInv(n, start, words, delays);
    BootWords(n, start, words, delays, key);
    Conservation(target, k0, es, key);
    NeverNegative(target, k0, es, key);
  }

  lemma {:induction false} NeverNegative(target: Target, k: State, es: seq<Event>, key: Key)
    requires KernelInv(k) && EnabledRun(target, k, es) && Word(k, key) >= 0
    ensures Word(RunSteps(target, k, es), key) >= 0
    decreases |es|
  {
    if es != [] {
      hide KernelInv, Step, Waiters;
      StepInv(target, k, es[0]);
      StepMoves(target, k, es[0], key);
      NeverNegative(target, Step(target, k, es[0]), es[1..], key);
    }
  }

  /** A semaphore that starts at 1 is a mutex: two processes between a completed P and their V are one. */
  lemma MutualExclusion(target: Target, n: nat, start: Context, words: map<Key, int>, delays: seq<nat>,
                        es: seq<Event>, key: Key, p: Pid, q: Pid)
    requires n >= 1 && Initial(words, key) == 1
    requires var k := Boot(n, start, words, delays); EnabledRun(target, k, es) && DisciplinedRun(target, k, {}, es, key)
    requires var held := Holders(target, Boot(n, start, words, delays), {}, es, key); p in held && q in held
    ensures p == q && Word(RunSteps(target, Boot(n, start, words, delays), es), key) == 0
  {
    var k := Boot(n, start, words, delays);
    hide KernelInv, RunSteps, EnabledRun, DisciplinedRun, Boot, Holders;
    BootInv(n, start, words, delays);
    BootWords(n, start, words, delays, key);
    AtMostN(target, k, {}, es, 1, key);
    var held := Holders(target, k, {}, es, key);
    SubsetSize({p, q}, held);
  }

  /** At boot the words have their initial values and nobody waits. */
  lemma BootWords(n: nat, start: Context, words: map<Key, int>, delays: seq<nat>, key: Key)
    requires n >= 1
    ensures var k := Boot(n, start, words, delays); Word(k, key) == Initial(words, key) && (key.User? ==> Calm(k, key))
  {
    var k := Tables(n, words, delays);
    TablesWords(n, words, delays, key);
    TablesInv(n, words, delays);
    assert Queue(k, PcbFree) != [];
    hide Inv, AllocPcb, Tables, EnqueueProcess, Run, Quiet, Calm;
    NewcomerQuiet(k, {}, start, DEFAULT_PRIORITY, key);
    var p, k1 := Queue(k, PcbFree)[0], AllocPcb(k);
    var k2 := EnqueueProcess(SetProc(k1, p, Proc(k1, p).(ps := start, originalPriority := DEFAULT_PRIORITY)), p);
    RunQuiet(k2, key);
    QuietTrans(k, k2, Boot(n, start, words, delays), key);
    QuietMoves(k, Boot(n, start, words, delays), key);
  }

  lemma TablesWords(n: nat, words: map<Key, int>, delays: seq<nat>, key: Key)
    ensures var k := Tables(n, words, delays); Word(k, key) == Initial(words, key) && Calm(k, key)
  {
  }
}
