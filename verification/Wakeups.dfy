/**
 What an interrupt does for the processes that wait for devices: the first waiter of
 every completed operation gets the status in its return register and is ready or
 running when the kernel is left.
 */
module Wakeups {
  import opened Sequences
  import opened KernelState
  import opened KernelSteps
  import opened Invariants
  import opened ActiveSemaphores
  import opened KernelRuns
  import opened Contexts
  import Semaphores

  // ----- one completion

  /** `q` no longer waits, is ready, and has `status` as the answer. */
  ghost predicate Woken(k: State, k': State, q: Pid, status: nat) {
    && q < |k.pcb| == |k'.pcb| && k'.pcb[q].ps == k.pcb[q].ps.(ret := status)
    && k'.pcb[q].semKey == None && On(k'.queues, Ready, q)
  }

  lemma UnblockWakes(k: State, fl: set<Pid>, c: Completion)
    requires Inv(k, fl) && Waiters(k, c.key) != []
    ensures Woken(k, Unblock(k, c), Waiters(k, c.key)[0], c.status)
  {
    var q, k1 := Waiters(k, c.key)[0], RemoveBlocked(k, c.key);
    RemoveBlockedInv(k, fl, c.key);
    Semaphores.WokenKeys(k, fl, c.key);
    EnqueueInv(k1, fl + {q}, q);
    hide Inv, RemoveBlocked, Waiters, InsertInQueue;
    assert On(EnqueueProcess(k1, q).queues, Ready, q);
  }

  lemma LookupOther(k: State, k': State, fl: set<Pid>, s: Semd, q: Pid, key: Key)
    requires SemdsOk(k, fl) && SemdsOk(k', fl) && Unblocks(k, k', s, q) && s < |k.pcb| && k.semKeys[s] != Some(key)
    ensures AslSemd(k', Some(key)) == AslSemd(k, Some(key))
  {
    FirstWithFacts(k.semKeys, k.semds[Asl], Some(key));
    FirstWithFacts(k'.semKeys, k'.semds[Asl], Some(key));
    var r := AslSemd(k, Some(key));
    if r.Some? {
      AslSemdIsLookup(k', fl, Some(key), r.value);
    }
  }

  lemma RemoveOther(k: State, fl: set<Pid>, other: Key, key: Key)
    requires Inv(k, fl) && Waiters(k, other) != [] && other != key
    ensures Waiters(RemoveBlocked(k, other), key) == Waiters(k, key)
  {
    var k1, s, q := RemoveBlockedForm(k, other);
    FirstWithFacts(k.semKeys, k.semds[Asl], Some(other));
    FirstWithFacts(k.semKeys, k.semds[Asl], Some(key));
    UnblockedInv(k, k1, fl, s, q);
    LookupOther(k, k1, fl, s, q, key);
    hide RemoveBlocked;
  }

  lemma EnqueueWaiters(k: State, q: Pid, key: Key)
    ensures Waiters(EnqueueProcess(k, q), key) == Waiters(k, key)
  {
  }

  /** The waiters of other devices stay as they are. */
  lemma UnblockOther(k: State, fl: set<Pid>, c: Completion, key: Key)
    requires Inv(k, fl) && c.key != key
    ensures Waiters(Unblock(k, c), key) == Waiters(k, key)
  {
    hide Inv, RemoveBlocked, EnqueueProcess, Waiters;
    if Waiters(k, c.key) != [] {
      var q, k1 := Waiters(k, c.key)[0], RemoveBlocked(k, c.key);
      RemoveOther(k, fl, c.key, key);
      EnqueueWaiters(k1, q, key);
      Semaphores.WaitersFrame(EnqueueProcess(k1, q), Unblock(k, c), key);
    }
  }

  lemma UnblockReady(k: State, fl: set<Pid>, c: Completion, q: Pid)
    requires Inv(k, fl) && On(k.queues, Ready, q)
    ensures On(Unblock(k, c).queues, Ready, q)
  {
    if Waiters(k, c.key) != [] {
      var p := Waiters(k, c.key)[0];
      RemoveBlockedInv(k, fl, c.key);
      EnqueueInv(RemoveBlocked(k, c.key), fl + {p}, p);
      var k1, s, x := RemoveBlockedForm(k, c.key);
      assert On(k.queues, ProcQ(s), p) && !On(k.queues, Ready, p);
      hide Inv, RemoveBlocked, EnqueueProcess, Waiters;
    }
  }

  // ----- the queue of one semaphore

  /** The queue of the key loses exactly its head. */
  lemma RemoveHead(k: State, fl: set<Pid>, key: Key)
    requires Inv(k, fl) && Waiters(k, key) != []
    ensures Waiters(RemoveBlocked(k, key), key) == Waiters(k, key)[1..]
  {
    var k1, s, q := RemoveBlockedForm(k, key);
    var w := k.queues[ProcQ(s)];
    FirstWithFacts(k.semKeys, k.semds[Asl], Some(key));
    UnblockedInv(k, k1, fl, s, q);
    assert Minus(w, {w[0]}) == w[1..] by { MinusOne(w, 0); }
    LookupSame(k, k1, fl, s, q, key);
    hide RemoveBlocked;
  }

  lemma LookupSame(k: State, k': State, fl: set<Pid>, s: Semd, q: Pid, key: Key)
    requires SemdsOk(k, fl) && SemdsOk(k', fl) && Unblocks(k, k', s, q) && s in k.semds[Asl]
             && k.semKeys[s] == Some(key)
    ensures AslSemd(k', Some(key)) == if k'.queues[ProcQ(s)] == [] then None else Some(s)
  {
    AslSemdIsLookup(k', fl, Some(key), s);
    FirstWithFacts(k'.semKeys, k'.semds[Asl], Some(key));
    var r := AslSemd(k', Some(key));
    if r.Some? {
      assert r.value in k.semds[Asl];
    }
  }

  /** Everybody else in the queue comes after its head in service order. */
  lemma HeadIsBest(k: State, fl: set<Pid>, key: Key, w: Pid)
    requires Inv(k, fl) && w in Waiters(k, key)
    ensures w == Waiters(k, key)[0] || Before(k.pcb, k.ledger.stamp, Waiters(k, key)[0], w)
  {
    var s := AslSemd(k, Some(key)).value;
    var i :| 0 <= i < |k.queues[ProcQ(s)]| && k.queues[ProcQ(s)][i] == w;
    assert Ordered(k.pcb, k.ledger.stamp, k.queues[ProcQ(s)]);
  }

  /**
   A V on a semaphore with waiters: the first of them in service order becomes ready
   at its original priority with its saved state as it was, the others stay, and the
   word does not change.
   */
  lemma VerhogenWakes(k: State, key: Key)
    requires Inv(k, Floating(k)) && k.current.Some? && Waiters(k, key) != []
    ensures var q, k' := Waiters(k, key)[0], DoVerhogen(k, key);
            && q < |k.pcb| == |k'.pcb| && On(k'.queues, Ready, q) && Waiters(k', key) == Waiters(k, key)[1..]
            && k'.pcb[q] == k.pcb[q].(semKey := None, priority := k.pcb[q].originalPriority)
            && k'.words == k.words
            && forall w: Pid :: w in Waiters(k, key) ==> w == q || Before(k.pcb, k.ledger.stamp, q, w)
  {
    hide Inv, RemoveBlocked, Waiters, EnqueueProcess, Before;
    var q := Waiters(k, key)[0];
    forall w: Pid | w in Waiters(k, key)
      ensures w == q || Before(k.pcb, k.ledger.stamp, q, w)
    {
      HeadIsBest(k, Floating(k), key, w);
    }
    SignalWakes(k, Floating(k), key);
  }

  /** ... and the waiters of every other semaphore stay as they are. */
  lemma VerhogenOther(k: State, key: Key, other: Key)
    requires Inv(k, Floating(k)) && other != key
    ensures Waiters(DoVerhogen(k, key), other) == Waiters(k, other)
  {
    hide Inv, RemoveBlocked, EnqueueProcess, Waiters;
    if Waiters(k, key) != [] {
      RemoveOther(k, Floating(k), key, other);
      EnqueueWaiters(RemoveBlocked(k, key), Waiters(k, key)[0], other);
    } else {
      Semaphores.WaitersFrame(k, DoVerhogen(k, key), other);
    }
  }

  lemma SignalWakes(k: State, fl: set<Pid>, key: Key)
    requires Inv(k, fl) && Waiters(k, key) != []
    ensures var q, k' := Waiters(k, key)[0], EnqueueProcess(RemoveBlocked(k, key), Waiters(k, key)[0]);
            && q < |k.pcb| == |k'.pcb| && On(k'.queues, Ready, q) && Waiters(k', key) == Waiters(k, key)[1..]
            && k'.pcb[q] == k.pcb[q].(semKey := None, priority := k.pcb[q].originalPriority)
  {
    var q, k1 := Waiters(k, key)[0], RemoveBlocked(k, key);
    RemoveBlockedInv(k, fl, key);
    Semaphores.WokenKeys(k, fl, key);
    EnqueueInv(k1, fl + {q}, q);
    RemoveHead(k, fl, key);
    EnqueueWaiters(k1, q, key);
    hide Inv, RemoveBlocked, Waiters, InsertInQueue;
    assert On(EnqueueProcess(k1, q).queues, Ready, q);
  }

  // ----- all completions

  ghost predicate DistinctKeys(cs: seq<Completion>) {
    forall i, j :: 0 <= i < j < |cs| ==> cs[i].key != cs[j].key
  }

  /** Later completions leave a woken process alone. */
  lemma {:induction false} StaysWoken(k: State, fl: set<Pid>, cs: seq<Completion>, q: Pid)
    requires Inv(k, fl) && On(k.queues, Ready, q) && q < |k.pcb| && k.pcb[q].semKey == None
    ensures var k' := UnblockAll(k, cs);
            |k'.pcb| == |k.pcb| && k'.pcb[q].ps == k.pcb[q].ps && k'.pcb[q].semKey == None && On(k'.queues, Ready, q)
    decreases |cs|
  {
    hide Inv, Unblock;
    if cs != [] {
      UnblockCarried(k, fl, cs[0], q);
      UnblockInv(k, fl, cs[0]);
      UnblockReady(k, fl, cs[0], q);
      StaysWoken(Unblock(k, cs[0]), fl, cs[1..], q);
    }
  }

  /** How many completions before the i-th one are for the same key. */
  function Earlier(cs: seq<Completion>, i: nat): nat
    requires i < |cs|
  {
    if i == 0 then 0 else (if cs[0].key == cs[i].key then 1 else 0) + Earlier(cs[1..], i - 1)
  }

  /** After one completion, the waiters of any key are those before it, without the head for its own key. */
  lemma UnblockWaiters(k: State, fl: set<Pid>, c: Completion, key: Key)
    requires Inv(k, fl) && Waiters(k, c.key) != []
    ensures Waiters(Unblock(k, c), key) == if key == c.key then Waiters(k, key)[1..] else Waiters(k, key)
  {
    hide Inv, RemoveBlocked, EnqueueProcess, Waiters;
    if key == c.key {
      SignalWakes(k, fl, key);
      var k1 := EnqueueProcess(RemoveBlocked(k, key), Waiters(k, key)[0]);
      Semaphores.WaitersFrame(k1, Unblock(k, c), key);
    } else {
      UnblockOther(k, fl, c, key);
    }
  }

  /**
   The i-th completion goes to the waiter of its key that is as far back in the queue
   as there are earlier completions for that key.
   */
  lemma {:induction false} UnblockAllWakes(k: State, fl: set<Pid>, cs: seq<Completion>, i: nat)
    requires Inv(k, fl) && AllAwaited(k, cs) && i < |cs|
    ensures var w, m := Waiters(k, cs[i].key), Earlier(cs, i);
            m < |w| && Woken(k, UnblockAll(k, cs), w[m], cs[i].status)
    decreases |cs|
  {
    hide Inv, Unblock, Waiters;
    var k1, key := Unblock(k, cs[0]), cs[i].key;
    UnblockInv(k, fl, cs[0]);
    if i == 0 {
      UnblockWakes(k, fl, cs[0]);
      StaysWoken(k1, fl, cs[1..], Waiters(k, key)[0]);
    } else {
      assert cs[1..][i - 1] == cs[i];
      UnblockAllWakes(k1, fl, cs[1..], i - 1);
      UnblockWaiters(k, fl, cs[0], key);
      KeepsContext(k, fl, cs[0], key, Waiters(k1, key)[Earlier(cs[1..], i - 1)]);
    }
  }

  /** How many of the completions are for `key`. */
  function Times(cs: seq<Completion>, key: Key): nat {
    if cs == [] then 0 else (if cs[0].key == key then 1 else 0) + Times(cs[1..], key)
  }

  /** Every key loses as many waiters from the front as there are completions for it. */
  lemma {:induction false} UnblockAllWaiters(k: State, fl: set<Pid>, cs: seq<Completion>, key: Key)
    requires Inv(k, fl) && AllAwaited(k, cs)
    ensures Times(cs, key) <= |Waiters(k, key)| && Waiters(UnblockAll(k, cs), key) == Waiters(k, key)[Times(cs, key)..]
    decreases |cs|
  {
    hide Inv, Unblock, Waiters;
    if cs != [] {
      UnblockInv(k, fl, cs[0]);
      UnblockWaiters(k, fl, cs[0], key);
      UnblockAllWaiters(Unblock(k, cs[0]), fl, cs[1..], key);
    }
  }

  /** A process that still waits keeps its saved state. */
  lemma KeepsContext(k: State, fl: set<Pid>, c: Completion, key: Key, q: Pid)
    requires Inv(k, fl) && q in Waiters(Unblock(k, c), key)
    ensures q < |k.pcb| == |Unblock(k, c).pcb| && Unblock(k, c).pcb[q].ps == k.pcb[q].ps
  {
    UnblockInv(k, fl, c);
    var k1 := Unblock(k, c);
    WaiterKey(k1, fl, key, q);
    UnblockLength(k, c);
    hide Inv, Unblock, Waiters;
    UnblockCarried(k, fl, c, q);
  }

  lemma WaiterKey(k: State, fl: set<Pid>, key: Key, q: Pid)
    requires Inv(k, fl) && q in Waiters(k, key)
    ensures q < |k.pcb| && k.pcb[q].semKey == Some(key)
  {
    var s := AslSemd(k, Some(key)).value;
    assert On(k.queues, ProcQ(s), q) && !On(k.queues, PcbFree, q);
    SemKeyIsQueue(k, fl, q, key);
  }

  lemma UnblockLength(k: State, c: Completion)
    ensures |Unblock(k, c).pcb| == |k.pcb|
  {
    hide RemoveBlocked, EnqueueProcess, SaveContext, Waiters;
  }

  // ----- the keys of one interrupt are distinct

  /** Distinct device keys from the given rows and from column `i` on. */
  ghost predicate Spread(cs: seq<Completion>, rows: set<nat>, i: nat) {
    && DistinctKeys(cs)
    && forall c :: c in cs ==> c.key.Device? && c.key.row in rows && i <= c.key.col
  }

  function RowsOf(line: nat): set<nat>
    requires DEV_IL_START <= line
  {
    if line == IL_TERMINAL then {4, 5} else {line - DEV_IL_START}
  }

  lemma KeyOfLine(line: nat, i: nat, rcpt: bool)
    requires DEV_IL_START <= line <= IL_TERMINAL && i < N_DEV_PER_IL
    ensures DeviceKey(DeviceIndex(line, i), rcpt)
            == Device(line - DEV_IL_START + (if line == IL_TERMINAL && rcpt then 1 else 0), i)
  {
  }

  lemma DeviceSpread(line: nat, i: nat, r: Registers)
    requires DEV_IL_START <= line <= IL_TERMINAL && i < N_DEV_PER_IL
    ensures Spread(DeviceDone(line, i, r), RowsOf(line), i)
    ensures forall c :: c in DeviceDone(line, i, r) ==> c.key.Device? && c.key.col == i
  {
    KeyOfLine(line, i, false);
    KeyOfLine(line, i, true);
  }

  lemma DistinctConcat(a: seq<Completion>, b: seq<Completion>)
    requires DistinctKeys(a) && DistinctKeys(b)
    requires forall c, d :: c in a && d in b ==> c.key != d.key
    ensures DistinctKeys(a + b)
  {
  }

  lemma {:induction false} LineSpread(line: nat, v: LineView, i: nat)
    requires DEV_IL_START <= line <= IL_TERMINAL
    ensures Spread(LineDoneFrom(line, v, i), RowsOf(line), i)
    decreases N_DEV_PER_IL - i
  {
    hide BitSet, DeviceDone;
    if i < N_DEV_PER_IL {
      LineSpread(line, v, i + 1);
      if BitSet(v.bitmap, i) {
        DeviceSpread(line, i, RegistersOf(v, i));
        DistinctConcat(DeviceDone(line, i, RegistersOf(v, i)), LineDoneFrom(line, v, i + 1));
      } else {
        assert [] + LineDoneFrom(line, v, i + 1) == LineDoneFrom(line, v, i + 1);
      }
    }
  }

  lemma PendingSpread(line: nat, v: Option<LineView>)
    requires DEV_IL_START <= line <= IL_TERMINAL
    ensures Spread(LineDone(line, v), RowsOf(line), 0)
  {
    if v.Some? {
      LineSpread(line, v.value, 0);
    }
  }

  lemma SpreadConcat(a: seq<Completion>, rows: set<nat>, b: seq<Completion>, more: set<nat>)
    requires Spread(a, rows, 0) && Spread(b, more, 0) && (rows !! more || a == [] || b == [])
    ensures Spread(a + b, rows + more, 0)
  {
    DistinctConcat(a, b);
  }

  /** Unless Ethernet and printer are both pending, no semaphore is signalled twice. */
  lemma AllDistinct(e: Entry)
    requires e.Interrupt? && (e.ethernet == None || e.printer == None)
    ensures DistinctKeys(AllDone(e))
  {
    hide LineDone, Spread;
    PendingSpread(IL_DISK, e.disk);
    PendingSpread(IL_TAPE, e.tape);
    PendingSpread(IL_ETHERNET, e.ethernet);
    PendingSpread(IL_ETHERNET, e.printer);
    PendingSpread(IL_TERMINAL, e.terminal);
    NotPending(e);
    FiveSpread(LineDone(IL_DISK, e.disk), LineDone(IL_TAPE, e.tape), LineDone(IL_ETHERNET, e.ethernet),
               LineDone(IL_ETHERNET, e.printer), LineDone(IL_TERMINAL, e.terminal));
  }

  lemma NotPending(e: Entry)
    requires e.Interrupt? && (e.ethernet == None || e.printer == None)
    ensures LineDone(IL_ETHERNET, e.ethernet) == [] || LineDone(IL_ETHERNET, e.printer) == []
  {
  }

  lemma FiveSpread(a: seq<Completion>, b: seq<Completion>, c: seq<Completion>, d: seq<Completion>, f: seq<Completion>)
    requires Spread(a, {0}, 0) && Spread(b, {1}, 0) && Spread(c, {2}, 0) && Spread(d, {2}, 0) && Spread(f, {4, 5}, 0)
    requires c == [] || d == []
    ensures DistinctKeys(a + b + c + d + f)
  {
    hide Spread, DistinctKeys;
    var ab, cd := {0} + {1}, {2} + {2};
    SpreadConcat(c, {2}, d, {2});
    SpreadConcat(a, {0}, b, {1});
    SpreadConcat(a + b, ab, c + d, cd);
    assert a + b + (c + d) == a + b + c + d;
    SpreadConcat(a + b + c + d, ab + cd, f, {4, 5});
    SpreadDistinct(a + b + c + d + f, ab + cd + {4, 5}, 0);
  }

  lemma {:induction false} DistinctFirst(cs: seq<Completion>, i: nat)
    requires DistinctKeys(cs) && i < |cs|
    ensures Earlier(cs, i) == 0
  {
    if i > 0 {
      DistinctFirst(cs[1..], i - 1);
    }
  }

  lemma SpreadDistinct(cs: seq<Completion>, rows: set<nat>, i: nat)
    requires Spread(cs, rows, i)
    ensures DistinctKeys(cs)
  {
  }

  // ----- printers

  const PRINTER_ROW := 3

  lemma NoneOfRow(line: nat, v: Option<LineView>)
    requires DEV_IL_START <= line <= IL_TERMINAL && PRINTER_ROW !in RowsOf(line)
    ensures forall c :: c in LineDone(line, v) ==> c.key.Device? && c.key.row != PRINTER_ROW
  {
    PendingSpread(line, v);
  }

  /** No interrupt signals the semaphore of a printer. */
  lemma NoPrinterDone(e: Entry, c: Completion)
    requires e.Interrupt? && c in AllDone(e)
    ensures c.key.Device? && c.key.row != PRINTER_ROW
  {
    NoneOfRow(IL_DISK, e.disk);
    NoneOfRow(IL_TAPE, e.tape);
    NoneOfRow(IL_ETHERNET, e.ethernet);
    NoneOfRow(IL_ETHERNET, e.printer);
    NoneOfRow(IL_TERMINAL, e.terminal);
    hide LineDone;
  }

  lemma {:induction false} UnblockAllOther(k: State, fl: set<Pid>, cs: seq<Completion>, key: Key)
    requires Inv(k, fl) && forall c :: c in cs ==> c.key != key
    ensures Waiters(UnblockAll(k, cs), key) == Waiters(k, key)
    decreases |cs|
  {
    hide Inv, Unblock, Waiters;
    if cs != [] {
      UnblockOther(k, fl, cs[0], key);
      UnblockInv(k, fl, cs[0]);
      UnblockAllOther(Unblock(k, cs[0]), fl, cs[1..], key);
    }
  }

  lemma RunWaiters(k: State, key: Key)
    ensures Waiters(Run(k), key) == Waiters(k, key)
  {
    hide Activation;
  }

  lemma ResumeWaiters(k: State, sliceEnded: bool, s: Context, key: Key)
    ensures Waiters(Resume(k, sliceEnded, s), key) == Waiters(k, key)
  {
    hide AccountTime, Run, SaveContext, Aging, EnqueueProcess, Waiters;
    if k.current == None {
      RunWaiters(k, key);
      Semaphores.WaitersFrame(k, k.(cpu := Idle), key);
    } else {
      var k1 := AccountTime(k, true);
      Semaphores.WaitersFrame(k, k1.(cpu := Resumed(s)), key);
      if sliceEnded {
        var k2 := SaveContext(Aging(k1), k.current.value, s);
        Semaphores.WaitersFrame(k, k2, key);
        EnqueueWaiters(k2, k.current.value, key);
        var k3 := EnqueueProcess(k2, k.current.value);
        RunWaiters(k3, key);
        Semaphores.WaitersFrame(k3, k3.(cpu := Idle), key);
      }
    }
  }

  /** A process that waits for a printer is not woken by any interrupt, whatever is pending. */
  lemma PrinterWaitsOn(target: Target, k: State, e: Event, col: nat)
    requires KernelInv(k) && e.entry.Interrupt?
    ensures Waiters(Step(target, k, e), Device(PRINTER_ROW, col)) == Waiters(k, Device(PRINTER_ROW, col))
  {
    hide KernelInv, Inv, AccountTime, UnblockAll, Resume, AllDone, Waiters, Step;
    var key, cs := Device(PRINTER_ROW, col), AllDone(e.entry);
    EntryWaiters(k, e.delays, key);
    var k1 := AccountTime(k.(delays := e.delays), false);
    forall c | c in cs ensures c.key != key { NoPrinterDone(e.entry, c); }
    UnblockAllOther(k1, Floating(k), cs, key);
    InterruptForm(target, k, e);
    ResumeWaiters(UnblockAll(k1, cs), e.entry.timer, InterruptContext(target, e.saved), key);
  }

  // ----- the step

  lemma ResumeFree(k: State, sliceEnded: bool, s: Context)
    ensures forall x: Pid :: Free(Resume(k, sliceEnded, s), x) <==> Free(k, x)
  {
    hide AccountTime, Run, SaveContext, Aging, EnqueueProcess;
    if k.current == None {
      RunFree(k);
    } else if sliceEnded {
      var k1 := SaveContext(Aging(AccountTime(k, true)), k.current.value, s);
      Semaphores.EnqueueFree(k1, k.current.value);
      RunFree(EnqueueProcess(k1, k.current.value));
      assert forall x: Pid :: Free(k1, x) <==> Free(k, x);
    }
  }

  /** A live process with no key is ready or running. */
  lemma ReadyOrRunning(k: State, q: Pid)
    requires KernelInv(k) && q < |k.pcb| && !Free(k, q) && k.pcb[q].semKey == None
    ensures On(k.queues, Ready, q) || k.current == Some(q)
  {
    if k.current != Some(q) {
      assert q !in Floating(k);
      var h: QueueHead :| On(k.queues, h, q);
    }
  }

  /**
   After an interrupt each completed operation has reached a process that waited for
   it: the first waiter, or the next one if the same device was handled before.  It is
   ready or running, and its saved state is what it was with the status as return value.
   */
  lemma InterruptWakes(target: Target, k: State, e: Event, i: nat)
    requires KernelInv(k) && Enabled(k, e) && e.entry.Interrupt? && i < |AllDone(e.entry)|
    ensures var cs, k' := AllDone(e.entry), Step(target, k, e); var w, m := Waiters(k, cs[i].key), Earlier(cs, i);
            && m < |w| && var q := w[m];
               && q < |k.pcb| == |k'.pcb| && k'.pcb[q].ps == k.pcb[q].ps.(ret := cs[i].status)
               && k'.pcb[q].semKey == None
               && (On(k'.queues, Ready, q) || k'.current == Some(q))
  {
    hide KernelInv, Inv, AccountTime, UnblockAll, Resume, AllDone, Waiters, Step, Enabled, AllAwaited;
    EntryAwaited(k, e);
    var k1 := AccountTime(k.(delays := e.delays), false);
    var cs, s := AllDone(e.entry), InterruptContext(target, e.saved);
    StepInv(target, k, e);
    EntryWaiters(k, e.delays, cs[i].key);
    UnblockAllWakes(k1, Floating(k), cs, i);
    var q := Waiters(k, cs[i].key)[Earlier(cs, i)];
    InterruptForm(target, k, e);
    ResumedWoken(k1, cs, e.entry.timer, s, Floating(k), q);
    ReadyOrRunning(Step(target, k, e), q);
  }

  /** After an interrupt the waiters of every key are those before it, less one per completion, from the front. */
  lemma InterruptWaiters(target: Target, k: State, e: Event, key: Key)
    requires KernelInv(k) && Enabled(k, e) && e.entry.Interrupt?
    ensures var m := Times(AllDone(e.entry), key);
            m <= |Waiters(k, key)| && Waiters(Step(target, k, e), key) == Waiters(k, key)[m..]
  {
    hide KernelInv, Inv, AccountTime, UnblockAll, Resume, AllDone, Waiters, Step, Enabled, AllAwaited;
    EntryAwaited(k, e);
    EntryWaiters(k, e.delays, key);
    var k1 := AccountTime(k.(delays := e.delays), false);
    UnblockAllWaiters(k1, Floating(k), AllDone(e.entry), key);
    InterruptForm(target, k, e);
    ResumeWaiters(UnblockAll(k1, AllDone(e.entry)), e.entry.timer, InterruptContext(target, e.saved), key);
  }

  lemma EntryAwaited(k: State, e: Event)
    requires Enabled(k, e) && e.entry.Interrupt?
    ensures AllAwaited(AccountTime(k.(delays := e.delays), false), AllDone(e.entry))
  {
  }

  /** Unless Ethernet and printer are both pending, every completion goes to a first waiter. */
  lemma OncePerDevice(e: Entry, i: nat)
    requires e.Interrupt? && (e.ethernet == None || e.printer == None) && i < |AllDone(e)|
    ensures Earlier(AllDone(e), i) == 0
  {
    AllDistinct(e);
    DistinctFirst(AllDone(e), i);
  }

  lemma InterruptForm(target: Target, k: State, e: Event)
    requires e.entry.Interrupt?
    ensures Step(target, k, e) == Resume(UnblockAll(AccountTime(k.(delays := e.delays), false), AllDone(e.entry)),
                                         e.entry.timer, InterruptContext(target, e.saved))
  {
    hide AccountTime, UnblockAll, Resume, AllDone;
  }

  /** `scheduler_resume` leaves the saved state of a ready process alone, and nobody dies. */
  lemma ResumedWoken(k: State, cs: seq<Completion>, timer: bool, s: Context, fl: set<Pid>, q: Pid)
    requires Inv(k, fl) && fl == Floating(k)
    requires var k1 := UnblockAll(k, cs); On(k1.queues, Ready, q) && q < |k1.pcb| && k1.pcb[q].semKey == None
    ensures var k1 := UnblockAll(k, cs); var k' := Resume(k1, timer, s);
            && q < |k1.pcb| == |k'.pcb| && k'.pcb[q].ps == k1.pcb[q].ps && k'.pcb[q].semKey == None && !Free(k', q)
  {
    WokenLive(k, fl, q, cs);
    hide Inv, UnblockAll, Resume;
    ResumeUntouched(UnblockAll(k, cs), timer, s, q);
    ResumeFree(UnblockAll(k, cs), timer, s);
  }

  lemma EntryWaiters(k: State, delays: seq<nat>, key: Key)
    requires KernelInv(k)
    ensures var k1 := AccountTime(k.(delays := delays), false);
            Inv(k1, Floating(k)) && Waiters(k1, key) == Waiters(k, key)
  {
    hide Inv, AccountTime, Waiters;
    AlikeInv(k, k.(delays := delays), Floating(k));
    AccountInv(k.(delays := delays), Floating(k), false);
    Semaphores.WaitersFrame(k, AccountTime(k.(delays := delays), false), key);
  }

  lemma WokenLive(k: State, fl: set<Pid>, q: Pid, cs: seq<Completion>)
    requires Inv(k, fl) && fl == Floating(k) && On(UnblockAll(k, cs).queues, Ready, q)
    ensures !Free(UnblockAll(k, cs), q) && UnblockAll(k, cs).current != Some(q)
  {
    UnblockAllInv(k, fl, cs);
    assert q !in fl;
  }
}
