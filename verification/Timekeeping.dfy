/**
 Time accounting.  The kernel keeps 32-bit clock readings and charges wrapped
 differences; against the true clock the charged intervals are disjoint, so no
 process is charged for more than the time since it first ran, and all of them
 together for no more than the time since boot.
 */
module Timekeeping {
  import opened Sequences
  import opened KernelState
  import opened KernelSteps
  import opened Invariants
  import opened ActiveSemaphores
  import opened Termination
  import opened ProcessTree
  import opened KernelRuns
  import Semaphores

  function Used(x: Pcb): nat {
    x.userTm + x.kernelTm
  }

  /** What is charged to `p`, if it is live. */
  ghost function Share(k: State, p: Pid): nat
    requires p < |k.pcb|
  {
    if Free(k, p) then 0 else Used(k.pcb[p])
  }

  /** The time charged to the live processes below `n`. */
  ghost function Total(k: State, n: nat): nat
    requires n <= |k.pcb|
  {
    if n == 0 then 0 else Total(k, n - 1) + Share(k, n - 1)
  }

  /** One process: never charged beyond the last switch, counted from its first activation. */
  ghost predicate ProcessTime(k: State, p: Pid)
    requires p < |k.pcb|
  {
    if p in k.ledger.first then
      && k.ledger.first[p] <= k.ledger.switchAt && Used(k.pcb[p]) <= k.ledger.switchAt - k.ledger.first[p]
      && (k.ledger.first[p] % WORD != 0 ==> k.pcb[p].startTm == k.ledger.first[p] % WORD)
    else Used(k.pcb[p]) == 0 && k.pcb[p].startTm == 0
  }

  ghost predicate TimeInv(k: State) {
    && k.ledger.switchAt <= k.now && k.switchTick == k.ledger.switchAt % WORD
    && (forall p: Pid :: p < |k.pcb| && !Free(k, p) ==> ProcessTime(k, p))
    && Total(k, |k.pcb|) <= k.ledger.switchAt
    && (k.current.Some? ==> k.current.value < |k.pcb| && !Free(k, k.current.value) && k.current.value in k.ledger.first)
  }

  // ----- sums

  lemma {:induction false} TotalFrame(k: State, k': State, n: nat)
    requires n <= |k.pcb| == |k'.pcb|
    requires forall p: Pid :: p < n ==> Share(k', p) <= Share(k, p)
    ensures Total(k', n) <= Total(k, n)
  {
    if n > 0 {
      TotalFrame(k, k', n - 1);
    }
  }

  lemma {:induction false} TotalCharge(k: State, k': State, p: Pid, d: nat, n: nat)
    requires n <= |k.pcb| == |k'.pcb| && k'.queues == k.queues
    requires forall q: Pid :: q < |k.pcb| ==> Used(k'.pcb[q]) <= Used(k.pcb[q]) + (if q == p then d else 0)
    ensures Total(k', n) <= Total(k, n) + (if p < n then d else 0)
  {
    if n > 0 {
      TotalCharge(k, k', p, d, n - 1);
      assert Free(k', n - 1) <==> Free(k, n - 1);
    }
  }

  // ----- what does not concern time

  /** Clock, charges and activations are the same, and nobody new is live or running. */
  ghost predicate SameTimes(k: State, k': State) {
    && |k'.pcb| == |k.pcb| && k'.now >= k.now && k'.switchTick == k.switchTick
    && k'.ledger.switchAt == k.ledger.switchAt && k'.ledger.first == k.ledger.first
    && (k'.current == k.current || k'.current == None)
    && (forall p: Pid :: p < |k.pcb| ==>
          Used(k'.pcb[p]) == Used(k.pcb[p]) && k'.pcb[p].startTm == k.pcb[p].startTm)
    && (forall p: Pid :: p < |k.pcb| && Free(k, p) ==> Free(k', p))
    && (k'.current.Some? && k'.current.value < |k.pcb| ==> Free(k', k'.current.value) ==> Free(k, k'.current.value))
  }

  lemma SameTimesKeeps(k: State, k': State)
    requires TimeInv(k) && SameTimes(k, k')
    ensures TimeInv(k')
  {
    TotalFrame(k, k', |k.pcb|);
    forall p: Pid | p < |k'.pcb| && !Free(k', p)
      ensures ProcessTime(k', p)
    {
      assert ProcessTime(k, p);
    }
  }

  lemma SameTimesTrans(k: State, k1: State, k2: State)
    requires SameTimes(k, k1) && SameTimes(k1, k2)
    ensures SameTimes(k, k2)
  {
  }

  lemma PlainSameTimes(k: State, k': State)
    requires |k'.pcb| == |k.pcb| && k'.now == k.now && k'.switchTick == k.switchTick
    requires k'.ledger.switchAt == k.ledger.switchAt && k'.ledger.first == k.ledger.first
    requires k'.current == k.current || k'.current == None
    requires forall p: Pid :: p < |k.pcb| ==> Used(k'.pcb[p]) == Used(k.pcb[p]) && k'.pcb[p].startTm == k.pcb[p].startTm
    requires forall p: Pid :: Free(k', p) <==> Free(k, p)
    ensures SameTimes(k, k')
  {
  }

  // ----- accounting

  lemma WrappedDifference(a: nat, b: nat)
    requires b <= a
    ensures (a % WORD - b % WORD) % WORD == (a - b) % WORD <= a - b
  {
  }

  lemma ReducedBelow(a: nat, m: nat)
    requires m > 0
    ensures a % m <= a
  {
  }

  /** One charge never exceeds the true time since the last switch. */
  lemma ChargeTime(k: State, kernel: bool, p: Pid)
    requires TimeInv(k) && k.current == Some(p)
    ensures var k' := Charge(k, kernel);
            && p < |k.pcb| == |k'.pcb| && Used(k'.pcb[p]) <= Used(k.pcb[p]) + (k'.now - k.ledger.switchAt)
            && (forall q: Pid :: q < |k.pcb| && q != p ==> k'.pcb[q] == k.pcb[q])
            && (forall q: Pid :: q < |k.pcb| ==> k'.pcb[q].startTm == k.pcb[q].startTm)
  {
    var k1 := Tick(k);
    WrappedDifference(k1.now, k.ledger.switchAt);
    ReducedBelow(k.pcb[p].userTm + Elapsed(k1), DOUBLE_WORD);
    ReducedBelow(k.pcb[p].kernelTm + Elapsed(k1), DOUBLE_WORD);
  }

  /** The charge is the true interval exactly when that is below 2^32 ticks, and goes to the side asked for. */
  lemma ChargeExact(k: State, kernel: bool, p: Pid)
    requires TimeInv(k) && k.current == Some(p)
    requires Tick(k).now < DOUBLE_WORD
    ensures var k' := Charge(k, kernel); var d := k'.now - k.ledger.switchAt;
            && p < |k.pcb| == |k'.pcb| && (Used(k'.pcb[p]) == Used(k.pcb[p]) + d <==> d < WORD)
            && (if kernel then k'.pcb[p].userTm == k.pcb[p].userTm else k'.pcb[p].kernelTm == k.pcb[p].kernelTm)
  {
    var k1 := Tick(k);
    WrappedDifference(k1.now, k.ledger.switchAt);
    assert ProcessTime(k, p);
    var d := k1.now - k.ledger.switchAt;
    assert Elapsed(k1) == d % WORD;
    SmallMod(k.pcb[p].userTm + Elapsed(k1), DOUBLE_WORD);
    SmallMod(k.pcb[p].kernelTm + Elapsed(k1), DOUBLE_WORD);
    SmallMod(d, WORD);
  }

  lemma SmallMod(a: nat, m: nat)
    requires m > 0
    ensures a % m == a <==> a < m
  {
  }

  lemma AccountTimes(k: State, kernel: bool)
    requires TimeInv(k)
    ensures TimeInv(AccountTime(k, kernel))
  {
    var k1 := Charge(k, kernel);
    if k.current.Some? {
      var p := k.current.value;
      ChargeTime(k, kernel, p);
      hide Charge;
      StampTimes(k, k1, p, k1.now - k.ledger.switchAt);
    } else {
      StampTimes(k, k1, 0, 0);
    }
  }

  /** After a charge of at most the elapsed time, the switch stamp restores the invariant. */
  lemma StampTimes(k: State, k1: State, p: Pid, d: nat)
    requires TimeInv(k) && k1.queues == k.queues && k1.ledger == k.ledger && k1.current == k.current
    requires |k1.pcb| == |k.pcb| && k1.now >= k.now && (k.current.Some? ==> p == k.current.value)
    requires d <= k1.now - k.ledger.switchAt && (k.current == None ==> d == 0)
    requires forall q: Pid :: q < |k.pcb| ==> k1.pcb[q].startTm == k.pcb[q].startTm
    requires forall q: Pid :: q < |k.pcb| ==> Used(k1.pcb[q]) <= Used(k.pcb[q]) + (if q == p then d else 0)
    ensures TimeInv(StampSwitch(Tick(k1)))
  {
    var k' := StampSwitch(Tick(k1));
    TotalCharge(k, k', p, d, |k.pcb|);
    forall q: Pid | q < |k'.pcb| && !Free(k', q)
      ensures ProcessTime(k', q)
    {
      assert !Free(k, q) && ProcessTime(k, q);
    }
  }

  // ----- dispatching

  lemma RunTimes(k: State, fl: set<Pid>)
    requires TimeInv(k) && Inv(k, fl) && Queue(k, Ready) != []
    ensures TimeInv(Run(k))
  {
    var p := Queue(k, Ready)[0];
    assert On(k.queues, Ready, p) && !Free(k, p);
    var k0 := RemoveFromQueue(k, Ready, p).(current := Some(p));
    assert forall x: Pid :: Free(k0, x) <==> Free(k, x);
    hide RemoveFromQueue, Inv;
    ActivationTimes(k, k0, p);
  }

  lemma ActivationTimes(k: State, k0: State, p: Pid)
    requires TimeInv(k) && p < |k.pcb| && !Free(k, p)
    requires k0 == k.(queues := k0.queues, current := Some(p)) && forall x: Pid :: Free(k0, x) <==> Free(k, x)
    ensures TimeInv(StampSwitch(Tick(Activation(k0, p))).(cpu := Running(p, Proc(Activation(k0, p), p).ps)))
  {
    var k1 := Activation(k0, p);
    var k' := StampSwitch(Tick(k1)).(cpu := Running(p, Proc(k1, p).ps));
    assert ProcessTime(k, p);
    ActivationFacts(k0, p);
    hide Activation;
    TotalFrame(k, k', |k.pcb|);
    forall q: Pid | q < |k'.pcb| && !Free(k', q)
      ensures ProcessTime(k', q)
    {
      assert !Free(k, q) && ProcessTime(k, q);
    }
  }

  lemma ActivationFacts(k: State, p: Pid)
    requires p < |k.pcb| && (p !in k.ledger.first ==> k.pcb[p].startTm == 0)
    requires p in k.ledger.first && k.ledger.first[p] % WORD != 0 ==> k.pcb[p].startTm == k.ledger.first[p] % WORD
    ensures var k' := Activation(k, p);
            && p in k'.ledger.first && (forall q: Pid :: q != p ==> (q in k'.ledger.first <==> q in k.ledger.first))
            && (forall q: Pid :: q in k.ledger.first ==> k'.ledger.first[q] == k.ledger.first[q])
            && (p !in k.ledger.first ==> k'.ledger.first[p] == k'.now)
            && (forall q: Pid :: q < |k.pcb| && q != p ==> k'.pcb[q].startTm == k.pcb[q].startTm)
            && (k'.ledger.first[p] % WORD != 0 ==> k'.pcb[p].startTm == k'.ledger.first[p] % WORD)
  {
  }

  lemma DispatchTimes(k: State, fl: set<Pid>)
    requires TimeInv(k) && Inv(k, fl)
    ensures TimeInv(Dispatch(k))
  {
    if Queue(k, Ready) == [] {
      PlainSameTimes(k, Dispatch(k));
      SameTimesKeeps(k, Dispatch(k));
    } else {
      hide Run;
      RunTimes(k, fl);
    }
  }

  lemma EnqueueSame(k: State, p: Pid)
    ensures SameTimes(k, EnqueueProcess(k, p))
  {
  }

  lemma ResumeTimes(k: State, sliceEnded: bool, s: Context)
    requires TimeInv(k) && Inv(k, Floating(k))
    ensures TimeInv(Resume(k, sliceEnded, s))
  {
    hide Inv, AccountTime, Dispatch, EnqueueProcess, SaveContext, TimeInv, SameTimes;
    if k.current == None {
      DispatchTimes(k, {});
    } else {
      var p := k.current.value;
      AccountInv(k, {p}, true);
      AccountTimes(k, true);
      var k1 := AccountTime(k, true);
      if sliceEnded {
        var k2 := SaveContext(Aging(k1), p, s);
        PlainSameTimes(k1, k2);
        EnqueueSame(k2, p);
        SameTimesTrans(k1, k2, EnqueueProcess(k2, p));
        SameTimesKeeps(k1, EnqueueProcess(k2, p));
        ExpireInv(k1, p, s);
        DispatchTimes(EnqueueProcess(k2, p), {});
      } else {
        PlainSameTimes(k1, k1.(cpu := Resumed(s)));
        SameTimesKeeps(k1, k1.(cpu := Resumed(s)));
      }
    }
  }

  // ----- everything before scheduler_resume

  lemma KillTimes(k: State, v: Pid)
    requires TimeInv(k) && Inv(k, Floating(k)) && k.current.Some? && v < |k.pcb| && !Free(k, v)
    requires !ProperAncestor(k.pcb, v, k.current.value)
    ensures TimeInv(KillProcess(k, v))
  {
    var q := k.current.value;
    var k1 := if q == v then k.(current := None) else k;
    KillProcessInv(k, v);
    StillCurrent(KillProcess(k, v));
    hide Inv, KillTree, TimeInv, SameTimes;
    AlikeInv(k, k1, {q});
    PlainSameTimes(k, k1);
    SameTimesKeeps(k, k1);
    KillTreeTimes(k1, {q}, v);
  }

  lemma KillTreeTimes(k: State, fl: set<Pid>, v: Pid)
    requires TimeInv(k) && Inv(k, fl) && v < |k.pcb| && !Free(k, v)
    requires var k' := KillTree(k, v); k'.current.Some? ==> !Free(k', k'.current.value)
    ensures TimeInv(KillTree(k, v))
  {
    hide Inv, KillTree, TimeInv, SameTimes, Removed;
    KillTreeTheorem(k, fl, v);
    RemovedTimes(k, KillTree(k, v), Post(k.children, k.ledger.rank, v));
    SameTimesKeeps(k, KillTree(k, v));
  }

  lemma StillCurrent(k: State)
    requires Inv(k, Floating(k))
    ensures k.current.Some? ==> !Free(k, k.current.value)
  {
  }

  lemma RemovedTimes(k: State, k': State, ds: seq<Pid>)
    requires Removed(k, k', ds) && (k'.current.Some? ==> !Free(k', k'.current.value))
    ensures SameTimes(k, k')
  {
  }

  lemma BlockTimes(k: State, key: Key, s: Context)
    requires TimeInv(k) && Inv(k, Floating(k)) && k.current.Some?
    ensures TimeInv(BlockCurrent(k, key, s))
  {
    var p := k.current.value;
    hide Inv, AccountTime, SaveContext, InsertBlocked, TimeInv, SameTimes;
    SaveContextInv(k, {p}, p, s);
    var k1 := SaveContext(k, p, s);
    PlainSameTimes(k, k1);
    SameTimesKeeps(k, k1);
    AccountInv(k1, {p}, true);
    AccountTimes(k1, true);
    InsertTimes(AccountTime(k1, true), key, p);
  }

  lemma InsertTimes(k: State, key: Key, p: Pid)
    requires TimeInv(k) && Inv(k, {p})
    ensures TimeInv(InsertBlocked(k, key, p).(current := None))
  {
    hide Inv, InsertBlocked, TimeInv, SameTimes;
    FloatingBelow(k, p);
    Semaphores.BlockedKeys(k, {p}, key, p);
    var k' := InsertBlocked(k, key, p).(current := None);
    PlainSameTimes(k, k');
    SameTimesKeeps(k, k');
  }

  lemma FloatingBelow(k: State, p: Pid)
    requires Inv(k, {p})
    ensures p < |k.pcb|
  {
  }

  lemma WakeSame(k: State, fl: set<Pid>, key: Key)
    requires Inv(k, fl) && Waiters(k, key) != []
    ensures SameTimes(k, EnqueueProcess(RemoveBlocked(k, key), Waiters(k, key)[0]))
  {
    var q, k1 := Waiters(k, key)[0], RemoveBlocked(k, key);
    Semaphores.WokenKeys(k, fl, key);
    hide Inv, RemoveBlocked, EnqueueProcess, Waiters, SameTimes;
    PlainSameTimes(k, k1);
    EnqueueSame(k1, q);
    SameTimesTrans(k, k1, EnqueueProcess(k1, q));
  }

  lemma UnblockSame(k: State, fl: set<Pid>, c: Completion)
    requires Inv(k, fl)
    ensures SameTimes(k, Unblock(k, c))
  {
    hide Inv, RemoveBlocked, EnqueueProcess, Waiters, SameTimes;
    var s := Waiters(k, c.key);
    if s == [] {
      PlainSameTimes(k, k);
    } else {
      WakeSame(k, fl, c.key);
      var k1 := EnqueueProcess(RemoveBlocked(k, c.key), s[0]);
      PlainSameTimes(k1, Unblock(k, c));
      SameTimesTrans(k, k1, Unblock(k, c));
    }
  }

  lemma {:induction false} UnblockAllSame(k: State, fl: set<Pid>, cs: seq<Completion>)
    requires Inv(k, fl)
    ensures SameTimes(k, UnblockAll(k, cs))
    decreases |cs|
  {
    hide Inv, Unblock, SameTimes;
    if cs == [] {
      PlainSameTimes(k, k);
    } else {
      UnblockSame(k, fl, cs[0]);
      UnblockInv(k, fl, cs[0]);
      UnblockAllSame(Unblock(k, cs[0]), fl, cs[1..]);
      SameTimesTrans(k, Unblock(k, cs[0]), UnblockAll(k, cs));
    }
  }

  lemma VerhogenSame(k: State, key: Key)
    requires Inv(k, Floating(k)) && k.current.Some?
    ensures SameTimes(k, DoVerhogen(k, key))
  {
    hide Inv, RemoveBlocked, EnqueueProcess, SameTimes, Waiters;
    if Waiters(k, key) != [] {
      WakeSame(k, Floating(k), key);
    } else {
      PlainSameTimes(k, DoVerhogen(k, key));
    }
  }

  /** A free PCB comes alive cleared and without a first activation. */
  lemma FreshTimes(k: State, k': State, p: Pid)
    requires TimeInv(k) && p < |k.pcb| && Free(k, p) && k'.pcb == k.pcb[p := ZERO_PCB]
    requires k'.now == k.now && k'.switchTick == k.switchTick && k'.current == k.current
    requires k'.ledger == k.ledger.(first := k.ledger.first - {p})
    requires forall q: Pid :: Free(k', q) <==> Free(k, q) && q != p
    ensures TimeInv(k')
  {
    hide ProcessTime, Total, Free;
    FreshTotal(k, k', p);
    forall q: Pid | q < |k'.pcb| && !Free(k', q)
      ensures ProcessTime(k', q)
    {
      FreshOther(k, k', p, q);
    }
    FreshCurrent(k, k', p);
  }

  lemma FreshCurrent(k: State, k': State, p: Pid)
    requires TimeInv(k) && Free(k, p) && |k'.pcb| == |k.pcb| && k'.current == k.current
    requires k'.ledger.first == k.ledger.first - {p}
    requires forall q: Pid :: Free(k', q) <==> Free(k, q) && q != p
    ensures k'.current.Some? ==>
              && k'.current.value < |k'.pcb| && !Free(k', k'.current.value)
              && k'.current.value in k'.ledger.first
  {
  }

  lemma FreshTotal(k: State, k': State, p: Pid)
    requires p < |k.pcb| && Free(k, p) && k'.pcb == k.pcb[p := ZERO_PCB]
    requires forall q: Pid :: Free(k', q) <==> Free(k, q) && q != p
    ensures Total(k', |k.pcb|) <= Total(k, |k.pcb|)
  {
    forall q: Pid | q < |k.pcb|
      ensures Share(k', q) <= Share(k, q)
    {
      assert q != p ==> k'.pcb[q] == k.pcb[q];
    }
    TotalFrame(k, k', |k.pcb|);
  }

  lemma FreshOther(k: State, k': State, p: Pid, q: Pid)
    requires TimeInv(k) && p < |k.pcb| && k'.pcb == k.pcb[p := ZERO_PCB] && q < |k.pcb| && (q != p ==> !Free(k, q))
    requires k'.ledger == k.ledger.(first := k.ledger.first - {p})
    ensures ProcessTime(k', q)
  {
  }

  lemma AllocTimes(k: State, fl: set<Pid>)
    requires TimeInv(k) && Inv(k, fl) && Queue(k, PcbFree) != []
    ensures TimeInv(AllocPcb(k))
  {
    var p := Queue(k, PcbFree)[0];
    AllocInv(k, fl);
    assert Free(k, p);
    hide Inv, TimeInv;
    FreshTimes(k, AllocPcb(k), p);
  }

  lemma CreateTimes(k: State, start: Context, priority: int)
    requires TimeInv(k) && Inv(k, Floating(k)) && k.current.Some?
    ensures TimeInv(Create(k, start, priority))
  {
    hide Inv, AllocPcb, EnqueueProcess, Raised, TimeInv, SameTimes;
    if Queue(k, PcbFree) != [] {
      var p, k1 := Queue(k, PcbFree)[0], AllocPcb(k);
      AllocTimes(k, Floating(k));
      var k2 := SetProc(k1, p, Proc(k1, p).(ps := start, originalPriority := priority));
      PlainSameTimes(k1, k2);
      EnqueueSame(k2, p);
      var k3 := EnqueueProcess(k2, p);
      SameTimesTrans(k1, k2, k3);
      var k4 := InsertChild(k3, k.current.value, p);
      PlainSameTimes(k3, k4);
      SameTimesTrans(k1, k3, k4);
      SameTimesKeeps(k1, k4);
    }
  }

  lemma PasserenTimes(k: State, key: Key, s: Context)
    requires TimeInv(k) && Inv(k, Floating(k)) && k.current.Some?
    ensures TimeInv(DoPasseren(k, key, s))
  {
    hide Inv, BlockCurrent, TimeInv, SameTimes;
    if Word(k, key) == 0 {
      BlockTimes(k, key, s);
    } else {
      PlainSameTimes(k, DoPasseren(k, key, s));
      SameTimesKeeps(k, DoPasseren(k, key, s));
    }
  }

  lemma KillCurrentTimes(k: State)
    requires TimeInv(k) && Inv(k, Floating(k)) && k.current.Some?
    ensures TimeInv(KillProcess(k, k.current.value))
  {
    hide Inv, KillProcess, TimeInv;
    CurrentLive(k, k.current.value);
    NotOwnAncestor(k, k.current.value);
    KillTimes(k, k.current.value);
  }

  lemma ServedTimes(k: State, call: Call, s: Context)
    requires TimeInv(k) && Inv(k, Floating(k)) && k.current.Some?
    requires call.TerminateProcess? && call.pid.Some? ==>
               call.pid.value < |k.pcb| && !ProperAncestor(k.pcb, call.pid.value, k.current.value)
    ensures TimeInv(Served(k, call, s))
  {
    hide Inv, AccountTime, KillProcess, Create, DoVerhogen, DoPasseren;
    hide BlockCurrent, RegisterPassUp, TimeInv, SameTimes;
    match call {
      case GetCpuTime => AccountTimes(k, true);
      case CreateProcess(start, priority) => CreateTimes(k, start, priority);
      case TerminateProcess(pid) =>
        if Victim(k, pid) !in Queue(k, PcbFree) {
          if pid == None {
            KillCurrentTimes(k);
          } else {
            KillTimes(k, pid.value);
          }
        }
      case Verhogen(key) =>
        VerhogenSame(k, key);
        SameTimesKeeps(k, DoVerhogen(k, key));
      case Passeren(key) => PasserenTimes(k, key, s);
      case WaitIo(dev, reception) => BlockTimes(k, DeviceKey(dev, reception), s);
      case SpecPassUp(kind, oldArea, newArea) =>
        KillCurrentTimes(k);
        var k' := RegisterPassUp(k, k.current.value, kind, oldArea, newArea);
        PlainSameTimes(k, k');
        SameTimesKeeps(k, k');
      case GetPid =>
      case OtherCall =>
    }
  }

  lemma ExceptionTimes(k: State, kind: nat, s: Context)
    requires TimeInv(k) && Inv(k, Floating(k)) && k.current.Some?
    ensures TimeInv(HandleException(k, kind, s))
  {
    hide Inv, AccountTime, KillProcess, Resume, TimeInv, SameTimes;
    var p := k.current.value;
    AccountInv(k, {p}, false);
    AccountTimes(k, false);
    var k1 := AccountTime(k, false);
    if Area(Proc(k1, p).newAreas, kind) != 0 {
      var k2 := k1.(areas := k1.areas[Area(Proc(k1, p).oldAreas, kind) := s]);
      PlainSameTimes(k1, k2);
      SameTimesKeeps(k1, k2);
      AccountTimes(k2, true);
      PlainSameTimes(AccountTime(k2, true), HandleException(k, kind, s));
      SameTimesKeeps(AccountTime(k2, true), HandleException(k, kind, s));
    } else {
      KillCurrentTimes(k1);
      KillCurrentInv(k1);
      ResumeTimes(KillProcess(k1, p), false, ZERO_CONTEXT);
    }
  }

  // ----- steps and runs

  lemma StepTimes(target: Target, k: State, e: Event)
    requires KernelInv(k) && Enabled(k, e) && TimeInv(k)
    ensures TimeInv(Step(target, k, e))
  {
    hide Inv, AccountTime, Served, Resume, HandleException, UnblockAll, AllDone, TimeInv, SameTimes;
    var k0 := k.(delays := e.delays);
    AlikeInv(k, k0, Floating(k));
    PlainSameTimes(k, k0);
    SameTimesKeeps(k, k0);
    AccountInv(k0, Floating(k), false);
    AccountTimes(k0, false);
    var k1 := AccountTime(k0, false);
    match e.entry {
      case Syscall(call) =>
        var s := SyscallContext(target, e.saved);
        if call.OtherCall? {
          ExceptionTimes(k1, 0, s);
        } else {
          if call.TerminateProcess? && call.pid.Some? {
            AncestorFrame(k.pcb, k1.pcb, call.pid.value, k.current.value);
          }
          ServedInv(k1, call, s);
          ServedTimes(k1, call, s);
          ResumeTimes(Served(k1, call, s), false, Answer(k1, call, s));
        }
      case Breakpoint =>
        ResumeTimes(k1, false, e.saved);
      case Trap(kind) =>
        ExceptionTimes(k0, kind, e.saved);
      case Interrupt(timer, _, _, _, _, _) =>
        UnblockAllSame(k1, Floating(k), AllDone(e.entry));
        UnblockAllInv(k1, Floating(k), AllDone(e.entry));
        var k2 := UnblockAll(k1, AllDone(e.entry));
        SameTimesKeeps(k1, k2);
        ResumeTimes(k2, timer, InterruptContext(target, e.saved));
    }
  }

  lemma {:induction false} RunStepsTimes(target: Target, k: State, es: seq<Event>)
    requires KernelInv(k) && EnabledRun(target, k, es) && TimeInv(k)
    ensures TimeInv(RunSteps(target, k, es))
    decreases |es|
  {
    hide KernelInv, Step, TimeInv;
    if es != [] {
      StepInv(target, k, es[0]);
      StepTimes(target, k, es[0]);
      RunStepsTimes(target, Step(target, k, es[0]), es[1..]);
    }
  }

  lemma BootTimes(n: nat, start: Context, words: map<Key, int>, delays: seq<nat>)
    requires n >= 1
    ensures TimeInv(Boot(n, start, words, delays))
  {
    BootTablesTimes(n, words, delays);
    hide Inv, Tables, AllocPcb, EnqueueProcess, Run, TimeInv;
    FirstTimes(Tables(n, words, delays), start);
  }

  /** The first process of a kernel with a free PCB. */
  lemma FirstTimes(k: State, start: Context)
    requires TimeInv(k) && Inv(k, {}) && Queue(k, PcbFree) != []
    ensures var p, k1 := Queue(k, PcbFree)[0], AllocPcb(k);
            var x := Proc(k1, p).(ps := start, originalPriority := DEFAULT_PRIORITY);
            TimeInv(Run(EnqueueProcess(SetProc(k1, p, x), p)))
  {
    hide Inv, AllocPcb, EnqueueProcess, Run, TimeInv, SetProc, Proc;
    AllocInv(k, {});
    AllocTimes(k, {});
    assert {} + {Queue(k, PcbFree)[0]} == {Queue(k, PcbFree)[0]};
    StartTimes(AllocPcb(k), Queue(k, PcbFree)[0], start);
  }

  lemma BootTablesTimes(n: nat, words: map<Key, int>, delays: seq<nat>)
    requires n >= 1
    ensures var k := Tables(n, words, delays); TimeInv(k) && Inv(k, {}) && Queue(k, PcbFree) != []
  {
    hide Inv, TimeInv, Heads;
    TablesInv(n, words, delays);
    var k := Tables(n, words, delays);
    TablesTimes(k, n);
    TablesFree(k, n);
  }

  lemma TablesFree(k: State, n: nat)
    requires n >= 1 && k.queues == Heads(n, n)
    ensures Queue(k, PcbFree) != []
  {
  }

  lemma StartTimes(k: State, p: Pid, start: Context)
    requires TimeInv(k) && Inv(k, {p})
    ensures var x := Proc(k, p).(ps := start, originalPriority := DEFAULT_PRIORITY);
            TimeInv(Run(EnqueueProcess(SetProc(k, p, x), p)))
  {
    hide Inv, EnqueueProcess, Run, TimeInv, SameTimes;
    var k1 := SetProc(k, p, Proc(k, p).(ps := start, originalPriority := DEFAULT_PRIORITY));
    var k2 := EnqueueProcess(k1, p);
    PlainSameTimes(k, k1);
    EnqueueSame(k1, p);
    SameTimesTrans(k, k1, k2);
    SameTimesKeeps(k, k2);
    AlikeInv(k, k1, {p});
    EnqueueInv(k1, {p}, p);
    assert {p} - {p} == {};
    assert On(k2.queues, Ready, p);
    RunTimes(k2, {});
  }

  lemma TablesTimes(k: State, n: nat)
    requires |k.pcb| == n && k.queues == Heads(n, n) && k.current == None && k.now == 0 && k.switchTick == 0
             && k.ledger.switchAt == 0
    ensures TimeInv(k)
  {
    assert forall p: Pid :: p < n ==> Free(k, p);
    TotalNone(k, n);
  }

  lemma {:induction false} TotalNone(k: State, n: nat)
    requires n <= |k.pcb| && forall p: Pid :: p < n ==> Free(k, p)
    ensures Total(k, n) == 0
  {
    if n > 0 {
      TotalNone(k, n - 1);
    }
  }

  /**
   After any run from boot: user plus kernel time of a live process is at most the
   ticks since it first ran, and over all live processes at most the ticks since boot.
   */
  lemma TimeBounds(target: Target, n: nat, start: Context, words: map<Key, int>, delays: seq<nat>, es: seq<Event>,
                   p: Pid)
    requires n >= 1 && EnabledRun(target, Boot(n, start, words, delays), es)
    requires var k := RunSteps(target, Boot(n, start, words, delays), es); p < |k.pcb| && !Free(k, p)
    ensures var k := RunSteps(target, Boot(n, start, words, delays), es);
            && (if p in k.ledger.first then k.ledger.first[p] + k.pcb[p].userTm + k.pcb[p].kernelTm <= k.now
                else k.pcb[p].userTm + k.pcb[p].kernelTm == 0)
            && Total(k, |k.pcb|) <= k.now
  {
    var k0 := Boot(n, start, words, delays);
    BootInv(n, start, words, delays);
    BootTimes(n, start, words, delays);
    hide KernelInv, Boot;
    RunStepsTimes(target, k0, es);
    var k := RunSteps(target, k0, es);
    assert ProcessTime(k, p);
  }
}
