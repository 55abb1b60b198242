/**
 The kernel routines as they are: in-place updates of link fields, table entries
 and scheduler variables.  Each method is proved to turn the abstract state into
 the one that the function of the same routine in `KernelState` or `KernelSteps`
 gives, with every link still consistent.
 */
module Kernel {
  import opened Arithmetic
  import opened Sequences
  import opened ListX
  import opened KernelState
  import opened KernelSteps
  import opened Invariants
  import opened ActiveSemaphores
  import opened Termination
  import opened ProcessTree
  import opened BlockedSubtrees
  import opened KernelRuns
  import Contexts

  ghost predicate AllBelow(s: seq<nat>, n: nat) {
    forall i :: 0 <= i < |s| ==> s[i] < n
  }

  /** All sentinels exist and all list elements are table indices. */
  ghost predicate Typed(k: State) {
    && PcbFree in k.queues && Ready in k.queues && SemdFree in k.semds && Asl in k.semds
    && |k.semKeys| == |k.pcb| && |k.ledger.stamp| == |k.pcb|
    && (forall s: Semd :: s < |k.pcb| ==> ProcQ(s) in k.queues)
    && (forall h: QueueHead :: h in k.queues ==> AllBelow(k.queues[h], |k.pcb|))
    && (forall h: SemdHead :: h in k.semds ==> AllBelow(k.semds[h], |k.pcb|))
  }

  lemma InvTyped(k: State, fl: set<Pid>)
    requires Inv(k, fl)
    ensures Typed(k)
  {
    forall h: QueueHead | h in k.queues
      ensures AllBelow(k.queues[h], |k.pcb|)
    {
      forall i | 0 <= i < |k.queues[h]| ensures k.queues[h][i] < |k.pcb| { assert On(k.queues, h, k.queues[h][i]); }
    }
    forall h: SemdHead | h in k.semds
      ensures AllBelow(k.semds[h], |k.pcb|)
    {
      assert h == SemdFree || h == Asl;
      forall i | 0 <= i < |k.semds[h]| ensures k.semds[h][i] < |k.pcb| { assert k.semds[h][i] in k.semds[h]; }
    }
  }

  lemma TypedInsert(k: State, h: QueueHead, p: Pid)
    requires Typed(k) && h in k.queues && p < |k.pcb|
    ensures Typed(InsertInQueue(k, h, p))
  {
  }

  lemma TypedTables(n: nat, words: map<Key, int>, delays: seq<nat>)
    ensures Typed(Tables(n, words, delays))
  {
    TablesInv(n, words, delays);
    InvTyped(Tables(n, words, delays), {});
  }

  lemma TypedAlloc(k: State)
    requires Typed(k)
    ensures Typed(AllocPcb(k))
  {
  }

  lemma TypedRelease(k: State, p: Pid)
    requires Typed(k) && p < |k.pcb|
    ensures Typed(ReleasePcb(k, p))
  {
  }

  /** Taking elements off queues keeps what is left in range. */
  lemma TypedRemove(k: State, h: QueueHead, p: Pid)
    requires Typed(k)
    ensures Typed(RemoveFromQueue(k, h, p))
  {
    if p in Queue(k, h) {
      MinusBelow(k.queues[h], {p}, |k.pcb|);
    }
  }

  lemma MinusBelow(s: seq<nat>, ds: set<nat>, n: nat)
    requires AllBelow(s, n)
    ensures AllBelow(Minus(s, ds), n)
  {
  }

  lemma TypedDrop(k: State, s: Semd, p: Pid)
    requires Typed(k) && s < |k.pcb|
    ensures Typed(DropBlocked(k, s, p))
  {
    TypedRemove(k, ProcQ(s), p);
    MinusBelow(k.semds[Asl], {s}, |k.pcb|);
  }

  /** `asl_insert_blocked` spelled out: a pool descriptor is opened, or an active one joined. */
  lemma InsertBlockedOpens(k: State, key: Key, p: Pid)
    requires Typed(k) && p < |k.pcb| && AslSemd(k, Some(key)) == None && k.semds[SemdFree] != []
    ensures var s := k.semds[SemdFree][0];
            var k1 := k.(semds := k.semds[SemdFree := k.semds[SemdFree][1..]][Asl := [s] + k.semds[Asl]]);
            var k2 := InsertInQueue(k1, ProcQ(s), p);
            InsertBlocked(k, key, p)
            == k2.(semKeys := k.semKeys[s := Some(key)], pcb := k.pcb[p := k.pcb[p].(semKey := Some(key))])
  {
  }

  lemma InsertBlockedJoins(k: State, key: Key, p: Pid, s: Semd)
    requires Typed(k) && p < |k.pcb| && AslSemd(k, Some(key)) == Some(s)
    ensures s < |k.pcb| && k.semKeys[s] == Some(key)
    ensures InsertBlocked(k, key, p)
            == InsertInQueue(k, ProcQ(s), p).(pcb := k.pcb[p := k.pcb[p].(semKey := Some(key))])
  {
    FirstWithFacts(k.semKeys, k.semds[Asl], Some(key));
  }

  lemma NoneLeft(k: State, key: Key, p: Pid)
    requires NoDescriptor(k, key)
    ensures InsertBlocked(k, key, p) == k
  {
  }

  lemma TypedOpen(k: State)
    requires Typed(k) && k.semds[SemdFree] != []
    ensures var free, asl := k.semds[SemdFree], k.semds[Asl];
            Typed(k.(semds := k.semds[SemdFree := free[1..]][Asl := [free[0]] + asl]))
  {
  }

  lemma HeadsStep(n: nat, i: nat)
    ensures Heads(n, i)[ProcQ(i) := []] == Heads(n, i + 1)
  {
  }

  lemma PoolStep(i: nat)
    ensures SemdFree in Pool(i) && Unlinked(Pool(i), i)
    ensures Pool(i)[SemdFree := InsertAt(Pool(i)[SemdFree], 0, i)] == Pool(i + 1)
  {
    assert InsertAt(Down(i), 0, i) == Down(i + 1);
  }

  lemma StaysLive(k: State, p: Pid)
    ensures Free(LeaveParent(k, p), p) <==> Free(k, p)
    ensures forall q: Pid :: q < |k.pcb| && TreeOk(k) && k.pcb[q].parent.Some? ==>
              IsChild(k.children, k.pcb[q].parent.value, q)
  {
  }

  lemma LeftUnlinked(k: State, k': State, fl: set<Pid>, p: Pid)
    requires Left(k, k', fl, p)
    ensures Unlinked(k'.queues, p)
  {
  }

  /** A live process and the invariant around it. */
  ghost predicate LiveIn(k: State, fl: set<Pid>, p: Pid) {
    Inv(k, fl) && p < |k.pcb| && !Free(k, p)
  }

  lemma KillRound(k: State, fl: set<Pid>, p: Pid, i: nat)
    requires LiveIn(k, fl, p) && i < |KidsOf(k.children, p)|
    ensures var ki, c := FinishAll(k, Visited(k, p, i)), KidsOf(k.children, p)[i];
            && LiveIn(ki, fl - ToSet(Visited(k, p, i)), c)
            && p in ki.children && ki.children[p] == KidsOf(k.children, p)[i..]
            && c < |ki.pcb| && ki.pcb[c].parent == Some(p) && RankOf(ki.ledger.rank, c) < RankOf(k.ledger.rank, p)
            && KillTree(ki, c) == FinishAll(k, Visited(k, p, i + 1))
  {
    hide Inv, FinishAll, Visited, KillTree;
    KillLoop(k, fl, p, i);
    KillLoopChild(k, fl, p, i);
  }

  lemma BlockedRound(k: State, fl: set<Pid>, done: seq<Pid>, p: Pid, i: nat)
    requires LiveIn(k, fl, p) && IsBlocked(k.pcb, p) && i < |KidsOf(k.children, p)|
             && Droppable(k, done + BlockedWalk(k, p))
    ensures var c := KidsOf(k.children, p)[i];
            && LiveIn(k, fl, c) && RankOf(k.ledger.rank, c) < RankOf(k.ledger.rank, p)
            && DoneBefore(k, done, p, i + 1) == DoneBefore(k, done, p, i) + BlockedWalk(k, c)
            && Droppable(k, DoneBefore(k, done, p, i) + BlockedWalk(k, c))
  {
    WalkRound(k, fl, done, p, i);
  }

  lemma LiveHasList(k: State, fl: set<Pid>, p: Pid)
    requires LiveIn(k, fl, p)
    ensures p < |k.pcb| && p in k.children
  {
  }

  lemma FloatingUnlinked(k: State, fl: set<Pid>, p: Pid)
    requires Inv(k, fl) && p in fl
    ensures Unlinked(k.queues, p) && p < |k.pcb|
  {
    forall h: QueueHead | h in k.queues ensures p !in k.queues[h] { assert !On(k.queues, h, p); }
  }

  lemma AgedNothing(pcb: seq<Pcb>)
    ensures Aged(pcb, []) == pcb
  {
  }

  lemma LiveFrame(k: State, k': State, fl: set<Pid>, p: Pid)
    requires LiveIn(k, fl, p) && Alike(k, k')
    ensures LiveIn(k', fl, p)
  {
  }

  /** The first free PCB is on no child list. */
  lemma NewcomerUnlinked(k: State)
    requires Inv(k, Floating(k)) && k.current.Some?
    ensures var free := Queue(k, PcbFree);
            && k.current.value < |k.pcb| && k.current.value in k.children
            && (free != [] ==>
                  && free[0] != k.current.value && Unlinked(k.children, free[0])
                  && Unlinked(k.children[free[0] := []], free[0]))
  {
    var q := k.current.value;
    CurrentLive(k, q);
    var free := Queue(k, PcbFree);
    if free != [] {
      assert On(k.queues, PcbFree, free[0]);
      forall h: Pid | h in k.children ensures free[0] !in k.children[h] { assert !IsChild(k.children, h, free[0]); }
    }
  }

  lemma ActiveNonEmpty(k: State, fl: set<Pid>)
    requires Inv(k, fl)
    ensures forall s: Semd :: s in k.semds[Asl] ==> s < |k.pcb| && ProcQ(s) in k.queues && k.queues[ProcQ(s)] != []
  {
  }

  lemma WaitersIffActive(k: State, fl: set<Pid>, key: Key)
    requires Inv(k, fl)
    ensures AslSemd(k, Some(key)).Some? <==> Waiters(k, key) != []
  {
    FirstWithFacts(k.semKeys, k.semds[Asl], Some(key));
  }

  lemma NothingDone(k: State, rest: seq<Completion>)
    ensures UnblockAll(k, []) == k && [] + rest == rest
  {
  }

  /** The completions from device `i` on are those of device `i` and then the others. */
  lemma LineSplit(k: State, line: nat, v: LineView, i: nat, rest: seq<Completion>)
    requires DEV_IL_START <= line && i < N_DEV_PER_IL
    ensures var a := if BitSet(v.bitmap, i) then DeviceDone(line, i, RegistersOf(v, i)) else [];
            var b := LineDoneFrom(line, v, i + 1);
            && LineDoneFrom(line, v, i) == a + b && LineDoneFrom(line, v, i) + rest == a + (b + rest)
            && UnblockAll(k, LineDoneFrom(line, v, i)) == UnblockAll(UnblockAll(k, a), b)
            && UnblockAll(k, []) == k && [] + (b + rest) == b + rest
  {
    hide UnblockAll, DeviceDone, BitSet;
    var a := if BitSet(v.bitmap, i) then DeviceDone(line, i, RegistersOf(v, i)) else [];
    var b := LineDoneFrom(line, v, i + 1);
    assert LineDoneFrom(line, v, i) == a + b;
    hide LineDoneFrom;
    Assoc(a, b, rest);
    UnblockAllConcat(k, a, b);
    NothingDone(k, b + rest);
  }

  lemma Assoc<T>(a: seq<T>, b: seq<T>, c: seq<T>)
    ensures (a + b) + c == a + (b + c)
  {
  }

  lemma FiveLines(k: State, a: seq<Completion>, b: seq<Completion>, c: seq<Completion>, d: seq<Completion>,
                  f: seq<Completion>)
    ensures a + b + c + d + f == a + (b + (c + (d + f)))
    ensures UnblockAll(k, a + b + c + d + f)
            == UnblockAll(UnblockAll(UnblockAll(UnblockAll(UnblockAll(k, a), b), c), d), f)
  {
    hide UnblockAll;
    Assoc(a + b + c, d, f);
    Assoc(a + b, c, d + f);
    Assoc(a, b, c + (d + f));
    UnblockAllConcat(k, a, b);
    UnblockAllConcat(k, a + b, c);
    UnblockAllConcat(k, a + b + c, d);
    UnblockAllConcat(k, a + b + c + d, f);
  }

  lemma NothingLeft(f: seq<Completion>)
    ensures f + [] == f
  {
  }

  /** What the handlers need to know once the delays of the event are in place. */
  lemma EnterReady(k: State, e: Event)
    requires KernelInv(k)
    ensures var k0 := k.(delays := e.delays); var k1 := AccountTime(k0, false);
            && Inv(k0, Floating(k0)) && Inv(k1, Floating(k1)) && Floating(k1) == Floating(k0) == Floating(k)
            && (k.current.Some? ==> k.current.value < |k.pcb|)
  {
    if k.current.Some? {
      CurrentLive(k, k.current.value);
    }
    hide Inv, AccountTime;
    var k0 := k.(delays := e.delays);
    AlikeInv(k, k0, Floating(k));
    AccountInv(k0, Floating(k), false);
  }

  lemma AnsweringForm(k: State, call: Call, s: Context)
    requires k.current.Some?
    ensures match call
            case CreateProcess(start, priority) =>
              && Served(k, call, s) == Create(k, start, priority)
              && Answer(k, call, s) == s.(ret := if Queue(k, PcbFree) == [] then FAILURE else SUCCESS)
            case TerminateProcess(pid) =>
              && Served(k, call, s) == Terminate(k, Victim(k, pid))
              && Answer(k, call, s) == s.(ret := if Victim(k, pid) in Queue(k, PcbFree) then FAILURE else SUCCESS)
            case SpecPassUp(kind, oldArea, newArea) =>
              && Served(k, call, s) == DoSpecPassUp(k, k.current.value, kind, oldArea, newArea)
              && Answer(k, call, s)
                 == s.(ret := if Area(Proc(k, k.current.value).newAreas, kind) != 0 then FAILURE else SUCCESS)
            case _ => true
  {
    hide Create, Terminate, DoSpecPassUp;
  }

  lemma PlainForm(k: State, call: Call, s: Context)
    requires k.current.Some? && !call.CreateProcess? && !call.TerminateProcess? && !call.SpecPassUp?
    ensures Answer(k, call, s) == s
    ensures Served(k, call, s)
            == match call
               case GetCpuTime => AccountTime(k, true)
               case Verhogen(key) => DoVerhogen(k, key)
               case Passeren(key) => DoPasseren(k, key, s)
               case WaitIo(dev, reception) => BlockCurrent(k, DeviceKey(dev, reception), s)
               case _ => k
  {
    hide AccountTime, DoVerhogen, DoPasseren, BlockCurrent;
  }

  lemma FirstEvent(target: Target, k: State, es: seq<Event>, i: nat)
    requires i < |es| && EnabledRun(target, k, es[i..])
    ensures Possible(k, es[i]) && !KillsOwnAncestor(k, es[i])
    ensures EnabledRun(target, Step(target, k, es[i]), es[i + 1..])
    ensures RunSteps(target, k, es[i..]) == RunSteps(target, Step(target, k, es[i]), es[i + 1..])
  {
    hide Step, Possible, KillsOwnAncestor;
    assert es[i..][1..] == es[i + 1..];
  }

  lemma NoEvents(target: Target, k: State, es: seq<Event>)
    ensures RunSteps(target, k, es[|es|..]) == k
  {
  }

  lemma NobodysChild(n: nat, words: map<Key, int>, delays: seq<nat>)
    ensures forall p: Pid :: Unlinked(Tables(n, words, delays).children, p)
  {
  }

  lemma FirstFree(n: nat, words: map<Key, int>, delays: seq<nat>)
    requires n >= 1
    ensures var k := Tables(n, words, delays); Queue(k, PcbFree) == Down(n) && Down(n) != []
  {
  }

  lemma EnqueuedNonEmpty(k: State, p: Pid)
    ensures Queue(EnqueueProcess(k, p), Ready) != []
  {
  }

  lemma FinishSteps(k: State, p: Pid)
    ensures Finish(k, p)
            == ReleasePcb(LeaveQueues(LeaveParent(k, p), p), p)
  {
  }

  /** A child list that has not changed leads on to the same node. */
  lemma SameNext(k: State, k': State, next: Memory<Pid, Pid>, prev: Memory<Pid, Pid>,
                 next': Memory<Pid, Pid>, prev': Memory<Pid, Pid>, p: Pid)
    requires TreeOk(k) && p < |k.pcb| && k.pcb[p].parent.Some?
    requires KidsOf(k'.children, k.pcb[p].parent.value) == KidsOf(k.children, k.pcb[p].parent.value)
    requires forall h: Pid :: h in k.children ==> Circular(next, prev, h, k.children[h])
    requires forall h: Pid :: h in k'.children ==> Circular(next', prev', h, k'.children[h])
    ensures Elem(p) in next && Elem(p) in next' && next'[Elem(p)] == next[Elem(p)]
  {
    var g := k.pcb[p].parent.value;
    assert IsChild(k.children, g, p);
    var j: nat :| j < |k.children[g]| && k.children[g][j] == p;
    NextOfLinked(next, prev, g, k.children[g], j);
    NextOfLinked(next', prev', g, k.children[g], j);
  }

  lemma AgedStep(pcb: seq<Pcb>, s: seq<Pid>, i: nat)
    requires i < |s| && NoDup(s) && s[i] < |pcb|
    ensures var r := Aged(pcb, s[..i]); r[s[i] := r[s[i]].(priority := r[s[i]].priority + 1)] == Aged(pcb, s[..i + 1])
  {
    assert s[..i + 1] == s[..i] + [s[i]];
    assert s[i] !in s[..i];
  }

  /** The node after the link field of an element that is on a list. */
  lemma NextOfLinked<H, E>(next: Memory<H, E>, prev: Memory<H, E>, h: H, s: seq<E>, j: nat)
    requires Circular(next, prev, h, s) && j < |s|
    ensures Elem(s[j]) in next && next[Elem(s[j])] == At(h, s, j + 2)
  {
    assert Hop(next, prev, h, s, j + 1);
  }

  class Kernel {
    const queue: Links<QueueHead, Pid>   // the p_next fields
    const tree: Links<Pid, Pid>          // p_child sentinels and p_sib fields
    const semd: Links<SemdHead, Semd>    // the s_next fields
    var pcb: seq<Pcb>
    var semKeys: seq<Option<Key>>
    var current: Option<Pid>
    var switchTick: nat
    var words: map<Key, int>
    var areas: map<nat, Context>
    var cpu: Cpu
    var now: nat
    var delays: seq<nat>
    ghost var ledger: Ledger

    ghost function Abs(): State
      reads this, queue, tree, semd
    {
      State(queue.lists, tree.lists, semd.lists, pcb, semKeys, current, switchTick, words, areas, cpu,
            now, delays, ledger)
    }

    ghost predicate Apart()
      reads this
    {
      queue as object != tree as object && queue as object != semd as object && tree as object != semd as object
    }

    ghost predicate Valid()
      reads this, queue, tree, semd
    {
      && Apart()
      && queue.Valid() && tree.Valid() && semd.Valid()
      && Typed(Abs())
    }

    /** The static variables as the loader leaves them: zeroed tables, no list yet. */
    constructor (n: nat, words: map<Key, int>, delays: seq<nat>)
      ensures Apart() && queue.Valid() && tree.Valid() && semd.Valid() && fresh(queue) && fresh(tree) && fresh(semd)
      ensures Abs() == Tables(n, words, delays).(queues := map[], semds := map[])
    {
      queue := new Links();
      tree := new Links();
      semd := new Links();
      pcb := Repeat(n, ZERO_PCB);
      semKeys := Repeat(n, None);
      this.current, switchTick, this.words, areas, cpu, now, this.delays := None, 0, words, map[], Idle, 0, delays;
      ledger := Ledger(Repeat(n, 0), 1, Repeat(n, 0), 0, map[]);
    }

    /** The four `LIST_HEAD` declarations, `pcb_init` and `asl_init`. */
    method InitTables()
      requires Apart() && queue.Valid() && tree.Valid() && semd.Valid()
      requires Abs() == Tables(|pcb|, words, delays).(queues := map[], semds := map[])
      modifies queue, semd
      ensures Valid() && Abs() == Tables(|pcb|, words, delays)
    {
      TypedTables(|pcb|, words, delays);
      hide Circular, Exclusive, Typed, Heads, Repeat;
      queue.InitHead(PcbFree);
      queue.InitHead(Ready);
      semd.InitHead(SemdFree);
      semd.InitHead(Asl);
      PcbInit(|pcb|);
      AslInit(|pcb|);
    }

    /** `pcb_init` */
    method PcbInit(n: nat)
      requires queue.Valid() && queue.lists == map[PcbFree := [], Ready := []]
      modifies queue
      ensures queue.Valid() && queue.lists == Heads(n, 0)
    {
      for i := 0 to n
        invariant queue.Valid() && queue.lists == map[PcbFree := Down(i), Ready := []]
      {
        queue.Add(i, Head(PcbFree), PcbFree, 0);
        assert InsertAt(Down(i), 0, i) == Down(i + 1);
      }
    }

    /** `asl_init` */
    method AslInit(n: nat)
      requires queue as object != semd as object
      requires queue.Valid() && queue.lists == Heads(n, 0)
      requires semd.Valid() && semd.lists == Pool(0)
      modifies queue, semd
      ensures queue.Valid() && queue.lists == Heads(n, n)
      ensures semd.Valid() && semd.lists == Pool(n)
    {
      hide Circular, Exclusive, Heads, Pool, Unlinked;
      for i := 0 to n
        invariant queue.Valid() && queue.lists == Heads(n, i)
        invariant semd.Valid() && semd.lists == Pool(i)
      {
        queue.InitHead(ProcQ(i));
        HeadsStep(n, i);
        PoolStep(i);
        semd.Add(i, Head(SemdFree), SemdFree, 0);
      }
    }

    // ----- src/pcb.c

    /** `pcb_free` */
    method PcbRelease(p: Pid)
      requires Valid() && Unlinked(queue.lists, p) && p < |pcb|
      modifies queue
      ensures Valid() && Abs() == ReleasePcb(old(Abs()), p)
    {
      TypedRelease(Abs(), p);
      hide Circular, Exclusive, Unlinked;
      queue.Add(p, Head(PcbFree), PcbFree, 0);
      assert InsertAt(old(queue.lists)[PcbFree], 0, p) == [p] + old(queue.lists)[PcbFree];
    }

    /** `pcb_alloc`; a PCB on the free list must not be anybody's child. */
    method PcbAlloc() returns (r: Option<Pid>)
      requires Valid() && (queue.lists[PcbFree] != [] ==> Unlinked(tree.lists, queue.lists[PcbFree][0]))
      modifies this`pcb, this`ledger, queue, tree
      ensures Valid() && Abs() == AllocPcb(old(Abs()))
      ensures r == if Queue(old(Abs()), PcbFree) == [] then None else Some(Queue(old(Abs()), PcbFree)[0])
      ensures r.Some? ==> r.value < |pcb| && Unlinked(queue.lists, r.value)
      ensures r.Some? ==> Elem(r.value) in tree.next && tree.next[Elem(r.value)] == Elem(r.value)
      ensures r.Some? ==> Elem(r.value) in tree.prev && tree.prev[Elem(r.value)] == Elem(r.value)
    {
      if queue.Empty(PcbFree) {
        return None;
      }
      TypedAlloc(Abs());
      hide Circular, Exclusive, Unlinked, Typed;
      var p := TakeFree();
      ClearPcb(p);
      return Some(p);
    }

    /** All fields zero, an empty child list, and the sibling links reset. */
    method ClearPcb(p: Pid)
      requires tree.Valid() && p < |pcb| && Unlinked(tree.lists, p)
      modifies this`pcb, this`ledger, tree
      ensures tree.Valid() && tree.lists == old(tree.lists)[p := []]
      ensures pcb == old(pcb)[p := ZERO_PCB] && ledger == old(ledger).(first := old(ledger).first - {p})
      ensures Elem(p) in tree.next && tree.next[Elem(p)] == Elem(p)
      ensures Elem(p) in tree.prev && tree.prev[Elem(p)] == Elem(p)
    {
      hide Circular, Exclusive;
      pcb := pcb[p := ZERO_PCB];
      tree.InitHead(p);
      tree.InitElem(p);
      ledger := ledger.(first := ledger.first - {p});
    }

    /** The first PCB of a non-empty free list is unlinked and its `p_next` reset. */
    method TakeFree() returns (p: Pid)
      requires Valid() && queue.lists[PcbFree] != []
      modifies queue
      ensures p == old(queue.lists)[PcbFree][0] && p < |pcb|
      ensures queue.Valid() && queue.lists == old(queue.lists)[PcbFree := old(queue.lists)[PcbFree][1..]]
      ensures Unlinked(queue.lists, p)
    {
      ghost var free := queue.lists[PcbFree];
      p := queue.Next(Head(PcbFree), PcbFree, 0).e;
      queue.Del(p, PcbFree, 0);
      assert RemoveAt(free, 0) == free[1..];
      AfterDel(old(queue.lists), queue.lists, PcbFree, 0);
      queue.InitElem(p);
    }

    /** What `list_del` unlinks is on no list any more. */
    static lemma AfterDel<H, E>(lists: map<H, seq<E>>, lists': map<H, seq<E>>, h: H, i: nat)
      requires Exclusive(lists) && h in lists && i < |lists[h]| && lists' == lists[h := RemoveAt(lists[h], i)]
      ensures Unlinked(lists', lists[h][i])
    {
    }

    /** The search of `pcb_insert_in_queue`: the node before which a priority `x` goes. */
    method SearchQueue(h: QueueHead, x: int) returns (nd: Node<QueueHead, Pid>, ghost i: nat)
      requires Valid() && h in queue.lists
      ensures i == InsertIndex(pcb, queue.lists[h], x) && nd == At(h, queue.lists[h], i + 1)
    {
      ghost var s := queue.lists[h];
      i := 0;
      if queue.Empty(h) {
        return Head(h), 0;
      }
      nd := queue.Next(Head(h), h, 0);
      while nd != Head(h)
        invariant i <= |s| && nd == At(h, s, i + 1)
        invariant InsertIndex(pcb, s, x) == i + InsertIndex(pcb, s[i..], x)
        decreases |s| - i
      {
        if pcb[nd.e].priority < x {
          return;
        }
        nd := queue.Next(nd, h, i + 1);
        assert s[i..][1..] == s[i + 1..];
        i := i + 1;
      }
    }

    /** `pcb_insert_in_queue` */
    method PcbInsertInQueue(h: QueueHead, p: Pid)
      requires Valid() && h in queue.lists && Unlinked(queue.lists, p) && p < |pcb|
      modifies this`ledger, queue
      ensures Valid() && Abs() == InsertInQueue(old(Abs()), h, p)
    {
      assert |ledger.stamp| == |pcb|;
      hide Circular, Exclusive, Unlinked, Typed;
      var nd, i := SearchQueue(h, pcb[p].priority);
      queue.AddTail(p, nd, h, i);
      ledger := ledger.(stamp := ledger.stamp[p := ledger.stamps], stamps := ledger.stamps + 1);
      TypedInsert(old(Abs()), h, p);
    }

    /** `pcb_queue_head` */
    method PcbQueueHead(h: QueueHead) returns (r: Option<Pid>)
      requires Valid() && h in queue.lists
      ensures r == if queue.lists[h] == [] then None else Some(queue.lists[h][0])
    {
      if queue.Empty(h) {
        return None;
      }
      return Some(queue.Next(Head(h), h, 0).e);
    }

    /** `list_del` on a `p_next` field, in terms of the queue it is on. */
    method Unlink(p: Pid, ghost h: QueueHead, ghost i: nat)
      requires Valid() && h in queue.lists && i < |queue.lists[h]| && queue.lists[h][i] == p
      modifies queue
      ensures Valid() && Abs() == RemoveFromQueue(old(Abs()), h, p)
      ensures Unlinked(queue.lists, p)
    {
      TypedRemove(Abs(), h, p);
      queue.Del(p, h, i);
      MinusOne(old(queue.lists)[h], i);
      AfterDel(old(queue.lists), queue.lists, h, i);
    }

    /** `pcb_remove_from_queue` */
    method PcbRemoveFromQueue(h: QueueHead) returns (r: Option<Pid>)
      requires Valid() && h in queue.lists
      modifies queue
      ensures Valid() && r == if old(queue.lists)[h] == [] then None else Some(old(queue.lists)[h][0])
      ensures Abs() == if r == None then old(Abs()) else RemoveFromQueue(old(Abs()), h, r.value)
      ensures r.Some? ==> Unlinked(queue.lists, r.value)
    {
      r := PcbQueueHead(h);
      if r.Some? {
        Unlink(r.value, h, 0);
      }
    }

    /** The search loops over a queue for one PCB. */
    method SearchPcb(h: QueueHead, p: Pid) returns (found: bool, ghost i: nat)
      requires Valid() && h in queue.lists
      ensures found <==> p in queue.lists[h]
      ensures found ==> i < |queue.lists[h]| && queue.lists[h][i] == p
    {
      ghost var s := queue.lists[h];
      i := 0;
      var it := queue.Next(Head(h), h, 0);
      while it != Head(h)
        invariant i <= |s| && it == At(h, s, i + 1)
        invariant p !in s[..i]
        decreases |s| - i
      {
        if it.e == p {
          return true, i;
        }
        it := queue.Next(it, h, i + 1);
        i := i + 1;
      }
      assert s[..i] == s;
      return false, i;
    }

    /** `pcb_is_free` */
    method PcbIsFree(p: Pid) returns (r: bool)
      requires Valid()
      ensures r <==> Free(Abs(), p)
    {
      ghost var i;
      r, i := SearchPcb(PcbFree, p);
    }

    /** `pcb_find_and_remove` */
    method PcbFindAndRemove(h: QueueHead, p: Pid) returns (found: bool)
      requires Valid() && h in queue.lists
      modifies queue
      ensures Valid() && Abs() == RemoveFromQueue(old(Abs()), h, p)
      ensures found <==> p in old(queue.lists)[h]
    {
      ghost var i;
      found, i := SearchPcb(h, p);
      if found {
        Unlink(p, h, i);
      }
    }

    /** `pcb_insert_child` */
    method PcbInsertChild(q: Pid, p: Pid)
      requires Valid() && q in tree.lists && Unlinked(tree.lists, p) && p < |pcb|
      modifies this`pcb, this`ledger, tree
      ensures Valid() && Abs() == InsertChild(old(Abs()), q, p)
    {
      hide Circular, Exclusive, Unlinked;
      ghost var s := tree.lists[q];
      tree.AddTail(p, Head(q), q, |s|);
      assert InsertAt(s, |s|, p) == s + [p];
      pcb := pcb[p := pcb[p].(parent := Some(q))];
      ledger := ledger.(rank := Raised(ledger.rank, p));
    }

    /** `pcb_find_and_remove_child`; the `p_sib` field of `p` keeps its value. */
    method PcbFindAndRemoveChild(p: Pid) returns (r: bool)
      requires Valid() && p < |pcb|
      requires pcb[p].parent.Some? ==> IsChild(tree.lists, pcb[p].parent.value, p)
      modifies this`pcb, tree
      ensures Valid() && Abs() == LeaveParent(old(Abs()), p) && r == old(pcb)[p].parent.Some?
      ensures Elem(p) in old(tree.next) ==> Elem(p) in tree.next && tree.next[Elem(p)] == old(tree.next)[Elem(p)]
    {
      if pcb[p].parent == None {
        return false;
      }
      ghost var q := pcb[p].parent.value;
      ghost var s := tree.lists[q];
      ghost var i: nat :| i < |s| && s[i] == p;
      MinusOne(s, i);
      hide Circular, Exclusive;
      tree.Del(p, q, i);
      pcb := pcb[p := pcb[p].(parent := None)];
      return true;
    }

    /** `pcb_remove_child`: the first child leaves. */
    method PcbRemoveChild(p: Pid) returns (r: Option<Pid>)
      requires Valid() && p in tree.lists
      requires forall c: Pid :: IsChild(tree.lists, p, c) ==> c < |pcb| && pcb[c].parent == Some(p)
      modifies this`pcb, tree
      ensures Valid() && r == if old(tree.lists)[p] == [] then None else Some(old(tree.lists)[p][0])
      ensures Abs() == if r == None then old(Abs()) else LeaveParent(old(Abs()), r.value)
    {
      if tree.Empty(p) {
        return None;
      }
      var c := tree.Next(Head(p), p, 0).e;
      assert IsChild(tree.lists, p, c);
      MinusOne(tree.lists[p], 0);
      hide Circular, Exclusive;
      tree.Del(c, p, 0);
      pcb := pcb[c := pcb[c].(parent := None)];
      return Some(c);
    }

    // ----- src/asl.c

    /** `asl_semd` */
    method AslLookup(key: Option<Key>) returns (r: Option<Semd>)
      requires Valid()
      ensures r == AslSemd(Abs(), key)
      ensures r.Some? ==> r.value in semd.lists[Asl] && r.value < |pcb|
    {
      ghost var s := semd.lists[Asl];
      ghost var i := 0;
      var it := semd.Next(Head(Asl), Asl, 0);
      while it != Head(Asl)
        invariant 0 <= i <= |s| && it == At(Asl, s, i + 1)
        invariant FirstWith(semKeys, s, key) == FirstWith(semKeys, s[i..], key)
        decreases |s| - i
      {
        if semKeys[it.e] == key {
          return Some(it.e);
        }
        it := semd.Next(it, Asl, i + 1);
        assert s[i..][1..] == s[i + 1..];
        i := i + 1;
      }
      return None;
    }

    /** A descriptor moves from the front of the pool to the front of the active list. */
    method OpenDescriptor() returns (s: Semd)
      requires Valid() && semd.lists[SemdFree] != []
      modifies semd
      ensures semd.Valid() && s == old(semd.lists)[SemdFree][0]
      ensures semd.lists
              == old(semd.lists)[SemdFree := old(semd.lists)[SemdFree][1..]][Asl := [s] + old(semd.lists)[Asl]]
    {
      ghost var free, asl := semd.lists[SemdFree], semd.lists[Asl];
      s := semd.Next(Head(SemdFree), SemdFree, 0).e;
      semd.Del(s, SemdFree, 0);
      AfterDel(old(semd.lists), semd.lists, SemdFree, 0);
      hide Circular, Exclusive;
      assert RemoveAt(free, 0) == free[1..];
      semd.Add(s, Head(Asl), Asl, 0);
      assert InsertAt(asl, 0, s) == [s] + asl;
    }

    /** A descriptor goes back to the front of the pool. */
    method CloseDescriptor(s: Semd, ghost i: nat)
      requires Valid() && i < |semd.lists[Asl]| && semd.lists[Asl][i] == s
      modifies semd
      ensures semd.Valid()
      ensures semd.lists
              == old(semd.lists)[Asl := Minus(old(semd.lists)[Asl], {s})][SemdFree := [s] + old(semd.lists)[SemdFree]]
    {
      ghost var free, asl := semd.lists[SemdFree], semd.lists[Asl];
      semd.Del(s, Asl, i);
      AfterDel(old(semd.lists), semd.lists, Asl, i);
      MinusOne(asl, i);
      hide Circular, Exclusive;
      semd.Add(s, Head(SemdFree), SemdFree, 0);
      assert InsertAt(free, 0, s) == [s] + free;
    }

    /** The common tail of `asl_insert_blocked`: `p` joins the queue of descriptor `s` under `key`. */
    method QueueOn(s: Semd, key: Key, p: Pid)
      requires Valid() && Unlinked(queue.lists, p) && p < |pcb| && s < |pcb|
      modifies this`pcb, this`semKeys, this`ledger, queue
      ensures Valid()
      ensures Abs() == InsertInQueue(old(Abs()), ProcQ(s), p).(semKeys := old(semKeys)[s := Some(key)],
                                                               pcb := old(pcb)[p := old(pcb)[p].(semKey := Some(key))])
    {
      PcbInsertInQueue(ProcQ(s), p);
      hide Circular, Exclusive, InsertInQueue;
      semKeys := semKeys[s := Some(key)];
      pcb := pcb[p := pcb[p].(semKey := Some(key))];
    }

    /** `asl_insert_blocked`; the result says that the pool was empty. */
    method AslInsertBlocked(key: Key, p: Pid) returns (full: bool)
      requires Valid() && Unlinked(queue.lists, p) && p < |pcb|
      modifies this`pcb, this`semKeys, this`ledger, queue, semd
      ensures Valid() && Abs() == InsertBlocked(old(Abs()), key, p)
      ensures full == NoDescriptor(old(Abs()), key)
    {
      ghost var k := Abs();
      hide Circular, Exclusive, Unlinked, InsertBlocked, InsertInQueue, AslSemd;
      var r := AslLookup(Some(key));
      if r.Some? {
        InsertBlockedJoins(k, key, p, r.value);
        QueueOn(r.value, key, p);
      } else if semd.Empty(SemdFree) {
        NoneLeft(k, key, p);
        return true;
      } else {
        OpenAndQueue(key, p);
      }
      return false;
    }

    /** The first waiter of an inactive key takes a descriptor from the pool. */
    method OpenAndQueue(key: Key, p: Pid)
      requires Valid() && Unlinked(queue.lists, p) && p < |pcb|
      requires AslSemd(Abs(), Some(key)) == None && semd.lists[SemdFree] != []
      modifies this`pcb, this`semKeys, this`ledger, queue, semd
      ensures Valid() && Abs() == InsertBlocked(old(Abs()), key, p)
    {
      InsertBlockedOpens(Abs(), key, p);
      TypedOpen(Abs());
      hide Circular, Exclusive, Unlinked, InsertBlocked, InsertInQueue, AslSemd, Typed;
      var s := OpenDescriptor();
      QueueOn(s, key, p);
    }

    /** Takes `p` off the queue of `s` and closes `s` if that was the last waiter. */
    method DropPcb(s: Semd, p: Pid, ghost i: nat)
      requires Valid() && s < |pcb| && s in semd.lists[Asl]
      requires i < |queue.lists[ProcQ(s)]| && queue.lists[ProcQ(s)][i] == p
      modifies queue, semd
      ensures Valid() && Abs() == DropBlocked(old(Abs()), s, p)
      ensures Unlinked(queue.lists, p)
    {
      TypedDrop(Abs(), s, p);
      assert p in queue.lists[ProcQ(s)];
      Unlink(p, ProcQ(s), i);
      hide Circular, Exclusive, Unlinked, Typed;
      if queue.Empty(ProcQ(s)) {
        ghost var j: nat :| j < |semd.lists[Asl]| && semd.lists[Asl][j] == s;
        CloseDescriptor(s, j);
      }
    }

    /** `asl_remove_blocked` */
    method AslRemoveBlocked(key: Key) returns (r: Option<Pid>)
      requires Valid() && forall s: Semd :: s in semd.lists[Asl] ==> s < |pcb| && queue.lists[ProcQ(s)] != []
      modifies this`pcb, queue, semd
      ensures Valid() && Abs() == RemoveBlocked(old(Abs()), key)
      ensures r == if Waiters(old(Abs()), key) == [] then None else Some(Waiters(old(Abs()), key)[0])
      ensures r.Some? ==> r.value < |pcb| && Unlinked(queue.lists, r.value)
    {
      var d := AslLookup(Some(key));
      if d == None {
        return None;
      }
      var s := d.value;
      var p := queue.Next(Head(ProcQ(s)), ProcQ(s), 0).e;
      assert p < |pcb|;
      DropPcb(s, p, 0);
      hide Circular, Exclusive, Unlinked, DropBlocked, AslSemd;
      pcb := pcb[p := pcb[p].(semKey := None)];
      return Some(p);
    }

    /** `asl_find_and_remove_blocked` */
    method AslFindAndRemoveBlocked(p: Pid) returns (found: bool)
      requires Valid() && p < |pcb|
      modifies queue, semd
      ensures Valid() && Abs() == FindAndRemoveBlocked(old(Abs()), p)
      ensures var k := old(Abs()); var d := AslSemd(k, k.pcb[p].semKey);
              found <==> d.Some? && p in Queue(k, ProcQ(d.value))
    {
      var d := AslLookup(pcb[p].semKey);
      if d == None {
        return false;
      }
      var s := d.value;
      ghost var i;
      found, i := SearchPcb(ProcQ(s), p);
      if found {
        DropPcb(s, p, i);
      }
    }

    /** `asl_find_and_remove_blocked_child`, called on a live process. */
    method AslFindAndRemoveBlockedChild(p: Pid, ghost fl: set<Pid>)
      requires Valid() && LiveIn(Abs(), fl, p)
      modifies queue, semd
      ensures Valid() && Abs() == DropAll(old(Abs()), BlockedWalk(old(Abs()), p))
    {
      WalkDroppable(Abs(), p);
      assert [] + BlockedWalk(Abs(), p) == BlockedWalk(Abs(), p);
      DropBlockedTree(p, Abs(), fl, []);
    }

    /** The recursion, after `done` has been dropped from the queues of `k`. */
    method DropBlockedTree(p: Pid, ghost k: State, ghost fl: set<Pid>, ghost done: seq<Pid>)
      requires LiveIn(k, fl, p) && Droppable(k, done + BlockedWalk(k, p))
      requires Valid() && Abs() == DropAll(k, done)
      modifies queue, semd
      ensures Valid() && Abs() == DropAll(k, done + BlockedWalk(k, p))
      decreases RankOf(k.ledger.rank, p), 1, 0
    {
      EntryTest(k, fl, done, p);
      hide Circular, Exclusive, Typed, DropAll, DoneBefore, Droppable, AslSemd, Inv, FindAndRemoveBlocked;
      var d := AslLookup(pcb[p].semKey);
      if d == None {
        assert done + BlockedWalk(k, p) == done;
        return;
      }
      WalkEnds(k, done, p);
      DropBlockedChildren(p, k, fl, done);
      var r := AslFindAndRemoveBlocked(p);
    }

    /** The loop over the child list of a blocked process. */
    method DropBlockedChildren(p: Pid, ghost k: State, ghost fl: set<Pid>, ghost done: seq<Pid>)
      requires LiveIn(k, fl, p) && IsBlocked(k.pcb, p) && Droppable(k, done + BlockedWalk(k, p))
      requires Valid() && Abs() == DropAll(k, done)
      modifies queue, semd
      ensures Valid() && Abs() == DropAll(k, DoneBefore(k, done, p, |KidsOf(k.children, p)|))
      decreases RankOf(k.ledger.rank, p), 0, 1
    {
      LiveHasList(k, fl, p);
      WalkStarts(k, done, p);
      hide Circular, Exclusive, Typed, DropAll, BlockedWalk, DoneBefore, Droppable, LiveIn, FindAndRemoveBlocked;
      ghost var kids := KidsOf(k.children, p);
      ghost var i := 0;
      var it := tree.Next(Head(p), p, 0);
      while it != Head(p)
        invariant 0 <= i <= |kids| && it == At(p, kids, i + 1)
        invariant Valid() && Abs() == DropAll(k, DoneBefore(k, done, p, i))
        decreases |kids| - i
      {
        it := DropNthChild(p, it.e, k, fl, done, i);
        i := i + 1;
      }
    }

    /** One round of that loop. */
    method DropNthChild(p: Pid, c: Pid, ghost k: State, ghost fl: set<Pid>, ghost done: seq<Pid>, ghost i: nat)
      returns (it: Node<Pid, Pid>)
      requires LiveIn(k, fl, p) && IsBlocked(k.pcb, p) && Droppable(k, done + BlockedWalk(k, p))
      requires i < |KidsOf(k.children, p)| && c == KidsOf(k.children, p)[i]
      requires Valid() && Abs() == DropAll(k, DoneBefore(k, done, p, i))
      modifies queue, semd
      ensures Valid() && Abs() == DropAll(k, DoneBefore(k, done, p, i + 1))
      ensures it == At(p, KidsOf(k.children, p), i + 2)
      decreases RankOf(k.ledger.rank, p), 0, 0
    {
      LiveHasList(k, fl, p);
      hide Circular, Exclusive, Typed, DropAll, BlockedWalk, DoneBefore, Droppable, LiveIn;
      BlockedRound(k, fl, done, p, i);
      DropBlockedTree(c, k, fl, DoneBefore(k, done, p, i));
      it := tree.Next(Elem(c), p, i + 1);
    }

    /** `asl_blocked_head` */
    method AslBlockedHead(key: Key) returns (r: Option<Pid>)
      requires Valid()
      ensures r == if Waiters(Abs(), key) == [] then None else Some(Waiters(Abs(), key)[0])
    {
      var d := AslLookup(Some(key));
      if d == None || queue.Empty(ProcQ(d.value)) {
        return None;
      }
      return Some(queue.Next(Head(ProcQ(d.value)), ProcQ(d.value), 0).e);
    }

    // ----- src/scheduler.c

    /** `getTODLO`: the clock has moved on by the next delay. */
    method GetTodLo() returns (t: nat)
      modifies this`now, this`delays
      ensures Abs() == Tick(old(Abs())) && t == now % WORD
    {
      if delays != [] {
        now, delays := now + delays[0], delays[1..];
      }
      t := now % WORD;
    }

    /** `switch_tick = getTODLO()` */
    method SetSwitchTick()
      modifies this`now, this`delays, this`switchTick, this`ledger
      ensures Abs() == StampSwitch(Tick(old(Abs())))
    {
      switchTick := GetTodLo();
      ledger := ledger.(switchAt := now);
    }

    /** `scheduler_account_time` */
    method AccountTimeTo(kernel: bool)
      requires Valid() && (current.Some? ==> current.value < |pcb|)
      modifies this
      ensures Valid() && Abs() == AccountTime(old(Abs()), kernel)
    {
      hide Circular, Exclusive, Charge;
      ChargeCurrent(kernel);
      SetSwitchTick();
    }

    /** The time since the last switch is charged to kernel or user mode. */
    method ChargeCurrent(kernel: bool)
      requires Valid() && (current.Some? ==> current.value < |pcb|)
      modifies this`now, this`delays, this`pcb
      ensures Valid() && Abs() == Charge(old(Abs()), kernel)
    {
      if current == None {
        return;
      }
      var t := GetTodLo();
      var p := current.value;
      var dt := (t - switchTick) % WORD;
      var x := pcb[p];
      if kernel {
        x := x.(kernelTm := (x.kernelTm + dt) % DOUBLE_WORD);
      } else {
        x := x.(userTm := (x.userTm + dt) % DOUBLE_WORD);
      }
      pcb := pcb[p := x];
    }

    /** `aging`: one pass over the ready queue. */
    method AgeReady()
      requires Valid()
      modifies this`pcb
      ensures Valid() && Abs() == Aging(old(Abs()))
    {
      ghost var s := queue.lists[Ready];
      ghost var i := 0;
      ghost var before := pcb;
      assert NoDup(s) && AllBelow(s, |pcb|);
      AgedNothing(before);
      hide Circular, Exclusive, Aged;
      var it := queue.Next(Head(Ready), Ready, 0);
      while it != Head(Ready)
        invariant 0 <= i <= |s| && it == At(Ready, s, i + 1)
        invariant pcb == Aged(before, s[..i])
        decreases |s| - i
      {
        AgeOne(it.e, before, s, i);
        it := queue.Next(it, Ready, i + 1);
        i := i + 1;
      }
      assert s[..i] == s;
    }

    /** `it->priority++` */
    method AgeOne(p: Pid, ghost before: seq<Pcb>, ghost s: seq<Pid>, ghost i: nat)
      requires i < |s| && NoDup(s) && s[i] == p && p < |pcb| && pcb == Aged(before, s[..i])
      modifies this`pcb
      ensures pcb == Aged(before, s[..i + 1])
    {
      AgedStep(before, s, i);
      pcb := pcb[p := pcb[p].(priority := pcb[p].priority + 1)];
    }

    /** `scheduler_enqueue_process` */
    method Enqueue(p: Pid)
      requires Valid() && Unlinked(queue.lists, p) && p < |pcb|
      modifies this`pcb, this`ledger, queue
      ensures Valid() && Abs() == EnqueueProcess(old(Abs()), p)
    {
      hide Circular, Exclusive, Unlinked, InsertInQueue;
      pcb := pcb[p := pcb[p].(priority := pcb[p].originalPriority)];
      PcbInsertInQueue(Ready, p);
    }

    /** `scheduler_run` */
    method RunNext()
      requires Valid() && queue.lists[Ready] != []
      modifies this, queue
      ensures Valid() && Abs() == Run(old(Abs()))
    {
      var r := PcbRemoveFromQueue(Ready);
      assert r.value < |pcb|;
      hide Circular, Exclusive, Unlinked, RemoveFromQueue;
      current := r;
      MarkFirstRun(r.value);
      SetSwitchTick();
      cpu := Running(r.value, pcb[r.value].ps);
    }

    /** The first activation sets `start_tm`. */
    method MarkFirstRun(p: Pid)
      requires Valid() && p < |pcb|
      modifies this`now, this`delays, this`pcb, this`ledger
      ensures Valid() && Abs() == Activation(old(Abs()), p)
    {
      hide Circular, Exclusive;
      if pcb[p].startTm == 0 {
        var t := GetTodLo();
        pcb := pcb[p := pcb[p].(startTm := t)];
        ledger := ledger.(first := if p in ledger.first then ledger.first else ledger.first[p := now]);
      }
    }

    /** Off the queue of its semaphore or off the ready queue. */
    method LeaveQueuesOf(p: Pid, ghost fl: set<Pid>)
      requires Valid() && LiveIn(Abs(), fl, p)
      modifies queue, semd
      ensures Valid() && Abs() == LeaveQueues(old(Abs()), p) && Unlinked(queue.lists, p)
    {
      ghost var k := Abs();
      LeaveQueuesInv(k, fl, p);
      hide Circular, Exclusive, Inv, Typed, RemoveFromQueue, FindAndRemoveBlocked, Left;
      var r := AslFindAndRemoveBlocked(p);
      r := PcbFindAndRemove(Ready, p);
      LeftUnlinked(k, Abs(), fl, p);
    }

    /** The end of `kill_tree` for one process: off its parent, its queue, and free. */
    method FinishOne(p: Pid, ghost fl: set<Pid>)
      requires Valid() && LiveIn(Abs(), fl, p)
      modifies this`pcb, this`ledger, queue, tree, semd
      ensures Valid() && Abs() == Finish(old(Abs()), p)
      ensures Elem(p) in old(tree.next) ==> Elem(p) in tree.next && tree.next[Elem(p)] == old(tree.next)[Elem(p)]
    {
      ghost var k := Abs();
      LeaveParentInv(k, fl, p);
      StaysLive(k, p);
      hide Circular, Exclusive, Inv, Typed, LeaveParent, LeaveQueues, Finish;
      var r := PcbFindAndRemoveChild(p);
      LeaveQueuesOf(p, fl);
      FinishSteps(k, p);
      PcbRelease(p);
    }

    /** One round of the loop of `kill_tree`: the `p_sib` field of the child is read after it is freed. */
    method KillNthChild(p: Pid, c: Pid, ghost k: State, ghost fl: set<Pid>, ghost i: nat) returns (it: Node<Pid, Pid>)
      requires LiveIn(k, fl, p) && i < |KidsOf(k.children, p)| && c == KidsOf(k.children, p)[i]
      requires Valid() && Abs() == FinishAll(k, Visited(k, p, i))
      modifies this`pcb, this`ledger, queue, tree, semd
      ensures Valid() && Abs() == FinishAll(k, Visited(k, p, i + 1))
      ensures it == At(p, KidsOf(k.children, p), i + 2)
      decreases RankOf(k.ledger.rank, p), 0
    {
      hide LiveIn, Typed, FinishAll, Visited, KillTree;
      KillRound(k, fl, p, i);
      NextOfLinked(tree.next, tree.prev, p, KidsOf(k.children, p)[i..], 0);
      hide Exclusive, Circular;
      KillTreeAt(c, fl - ToSet(Visited(k, p, i)));
      it := tree.next[Elem(c)];
    }

    /** The loop of `kill_tree` over the child list of `p`. */
    method KillChildren(p: Pid, ghost fl: set<Pid>)
      requires Valid() && LiveIn(Abs(), fl, p)
      modifies this`pcb, this`ledger, queue, tree, semd
      ensures Valid() && var k := old(Abs()); Abs() == FinishAll(k, Visited(k, p, |KidsOf(k.children, p)|))
      decreases RankOf(ledger.rank, p), 1
    {
      ghost var k := Abs();
      ghost var kids := KidsOf(k.children, p);
      hide Circular, Exclusive, LiveIn, Typed, FinishAll, Visited;
      LiveHasList(k, fl, p);
      KillLoopStart(k, p);
      ghost var i := 0;
      var it := tree.Next(Head(p), p, 0);
      while it != Head(p)
        invariant 0 <= i <= |kids| && it == At(p, kids, i + 1)
        invariant Valid() && Abs() == FinishAll(k, Visited(k, p, i))
        decreases |kids| - i
      {
        it := KillNthChild(p, it.e, k, fl, i);
        i := i + 1;
      }
    }

    /** `kill_tree`; a process that was on a child list keeps the links it had there. */
    method KillTreeAt(p: Pid, ghost fl: set<Pid>)
      requires Valid() && LiveIn(Abs(), fl, p)
      modifies this`pcb, this`ledger, queue, tree, semd
      ensures Valid() && Abs() == KillTree(old(Abs()), p)
      ensures old(pcb)[p].parent.Some? ==>
                Elem(p) in old(tree.next) && Elem(p) in tree.next && tree.next[Elem(p)] == old(tree.next)[Elem(p)]
      decreases RankOf(ledger.rank, p), 2
    {
      ghost var k := Abs();
      ghost var n := |KidsOf(k.children, p)|;
      KillLoop(k, fl, p, n);
      KillLoopEnd(k, p);
      ghost var next0, prev0 := tree.next, tree.prev;
      hide Exclusive, Typed, FinishAll, Visited, KillTree, Finish;
      KillChildren(p, fl);
      if pcb[p].parent.Some? {
        SameNext(k, Abs(), next0, prev0, tree.next, tree.prev, p);
      }
      FinishOne(p, fl - ToSet(Visited(k, p, n)));
    }

    /** The slice of the running process `p` is over: the ready queue ages and `p` joins it. */
    method ExpireSlice(p: Pid, s: Context)
      requires Valid() && Inv(Abs(), {p})
      modifies this`pcb, this`ledger, queue
      ensures Valid() && Abs() == EnqueueProcess(SaveContext(Aging(old(Abs())), p, s), p)
    {
      FloatingUnlinked(Abs(), {p}, p);
      AgedNothing(pcb);
      hide Circular, Exclusive, Inv, Typed, Unlinked, EnqueueProcess, Aged;
      if !queue.Empty(Ready) {
        AgeReady();
      }
      StoreContext(p, s);
      Enqueue(p);
    }

    /** `memcpy(&p->p_s, s, sizeof(state_t))` */
    method StoreContext(p: Pid, s: Context)
      requires Valid() && p < |pcb|
      modifies this`pcb
      ensures Valid() && Abs() == SaveContext(old(Abs()), p, s)
    {
      pcb := pcb[p := pcb[p].(ps := s)];
    }

    /** `scheduler_resume`; without a preemption nothing is asked of the current process but to be in the table. */
    method ResumeScheduler(sliceEnded: bool, s: Context)
      requires Valid() && (current.Some? ==> current.value < |pcb|)
      requires sliceEnded && current.Some? ==> Inv(Abs(), Floating(Abs()))
      modifies this, queue
      ensures Valid() && Abs() == Resume(old(Abs()), sliceEnded, s)
    {
      ghost var k := Abs();
      hide Circular, Exclusive, Inv, AccountTime, EnqueueProcess, Aging, SaveContext, Run, Unlinked;
      if current.Some? {
        var p := current.value;
        AccountTimeTo(true);
        if !sliceEnded {
          cpu := Resumed(s);
          return;
        }
        AccountInv(k, {p}, true);
        ExpireSlice(p, s);
      }
      DispatchNext();
    }

    /** The end of `scheduler_resume`: idle, or the next process. */
    method DispatchNext()
      requires Valid()
      modifies this, queue
      ensures Valid() && Abs() == Dispatch(old(Abs()))
    {
      hide Circular, Exclusive, Run;
      if queue.Empty(Ready) {
        cpu := Idle;
      } else {
        RunNext();
      }
    }

    /** `scheduler_block_current`; the result of `asl_insert_blocked` is ignored. */
    method BlockCurrentOn(key: Key, s: Context)
      requires Valid() && Inv(Abs(), Floating(Abs())) && current.Some?
      modifies this, queue, semd
      ensures Valid() && Abs() == BlockCurrent(old(Abs()), key, s)
    {
      var p := current.value;
      hide Circular, Exclusive, Inv, AccountTime, InsertBlocked, SaveContext, Unlinked;
      FloatingUnlinked(Abs(), {p}, p);
      StoreContext(p, s);
      AccountTimeTo(true);
      var full := AslInsertBlocked(key, p);
      ClearCurrent();
    }

    method ClearCurrent()
      requires Valid()
      modifies this`current
      ensures Valid() && Abs() == old(Abs()).(current := None)
    {
      current := None;
    }

    /** `scheduler_kill_process` */
    method KillProcessAt(p: Pid)
      requires Valid() && current.Some? && LiveIn(Abs(), Floating(Abs()), p)
      modifies this, queue, tree, semd
      ensures Valid() && Abs() == KillProcess(old(Abs()), p)
    {
      ghost var fl := Floating(Abs());
      hide Circular, Exclusive, LiveIn, Typed, KillTree;
      if current == Some(p) {
        LiveFrame(Abs(), Abs().(current := None), fl, p);
        ClearCurrent();
      }
      KillTreeAt(p, fl);
    }

    /** `scheduler_handle_exception` */
    method PassUpOrDie(kind: nat, s: Context)
      requires Valid() && Inv(Abs(), Floating(Abs())) && current.Some? && kind < 3
      modifies this, queue, tree, semd
      ensures Valid() && Abs() == HandleException(old(Abs()), kind, s)
    {
      ghost var k := Abs();
      var p := current.value;
      hide Circular, Exclusive, Inv, AccountTime, KillProcess, Resume, Unlinked;
      FloatingUnlinked(k, {p}, p);
      AccountInv(k, {p}, false);
      AccountTimeTo(false);
      if Area(pcb[p].newAreas, kind) != 0 {
        PassUp(p, kind, s);
      } else {
        DieAndResume(p, ZERO_CONTEXT);
      }
    }

    /** The state is handed to the area registered by `p`. */
    method PassUp(p: Pid, kind: nat, s: Context)
      requires Valid() && p < |pcb| && current == Some(p)
      modifies this
      ensures Valid() && var k := old(Abs()); var x := Proc(k, p);
              Abs()
              == AccountTime(k.(areas := k.areas[Area(x.oldAreas, kind) := s]), true)
                 .(cpu := PassedUp(Area(x.newAreas, kind)))
    {
      hide Circular, Exclusive, AccountTime;
      var area := Area(pcb[p].newAreas, kind);
      SaveArea(Area(pcb[p].oldAreas, kind), s);
      AccountTimeTo(true);
      cpu := PassedUp(area);
    }

    method SaveArea(area: nat, s: Context)
      requires Valid()
      modifies this`areas
      ensures Valid() && Abs() == old(Abs()).(areas := old(areas)[area := s])
    {
      areas := areas[area := s];
    }

    /** The running process is killed and somebody else goes on. */
    method DieAndResume(p: Pid, s: Context)
      requires Valid() && Inv(Abs(), Floating(Abs())) && current == Some(p)
      modifies this, queue, tree, semd
      ensures Valid() && Abs() == Resume(KillProcess(old(Abs()), p), false, s)
    {
      KillCurrentInv(Abs());
      CurrentLive(Abs(), p);
      hide Circular, Exclusive, Inv, Typed, KillProcess, Resume;
      KillProcessAt(p);
      ResumeScheduler(false, s);
    }

    // ----- src/syscalls.c

    /** `create_process` */
    method CreateProcessWith(start: Context, priority: int) returns (ret: int, child: Option<Pid>)
      requires Valid() && Inv(Abs(), Floating(Abs())) && current.Some?
      modifies this, queue, tree
      ensures Valid() && Abs() == Create(old(Abs()), start, priority)
      ensures ret == if Queue(old(Abs()), PcbFree) == [] then FAILURE else SUCCESS
      ensures child == if Queue(old(Abs()), PcbFree) == [] then None else Some(Queue(old(Abs()), PcbFree)[0])
    {
      ghost var k := Abs();
      NewcomerUnlinked(k);
      hide Circular, Exclusive, Inv, Typed, AllocPcb, EnqueueProcess, InsertChild, Unlinked;
      var r := PcbAlloc();
      if r == None {
        return FAILURE, None;
      }
      FillPcb(r.value, start, priority);
      Enqueue(r.value);
      PcbInsertChild(current.value, r.value);
      return SUCCESS, r;
    }

    method FillPcb(p: Pid, start: Context, priority: int)
      requires Valid() && p < |pcb|
      modifies this`pcb
      ensures Valid() && var k := old(Abs());
              Abs() == SetProc(k, p, Proc(k, p).(ps := start, originalPriority := priority))
    {
      pcb := pcb[p := pcb[p].(ps := start, originalPriority := priority)];
    }

    /** A waiter of `key` is woken: off its queue and ready. */
    method Wake(key: Key, ghost fl: set<Pid>) returns (p: Pid)
      requires Valid() && Inv(Abs(), fl) && Waiters(Abs(), key) != []
      modifies this`pcb, this`ledger, queue, semd
      ensures Valid() && p == Waiters(old(Abs()), key)[0] && p < |pcb|
      ensures Abs() == EnqueueProcess(RemoveBlocked(old(Abs()), key), p)
    {
      ActiveNonEmpty(Abs(), fl);
      hide Circular, Exclusive, Inv, Typed, Unlinked, EnqueueProcess, RemoveBlocked, Waiters;
      var r := AslRemoveBlocked(key);
      p := r.value;
      Enqueue(p);
    }

    /** `*semaddr += d` */
    method SetWord(key: Key, d: int)
      requires Valid()
      modifies this`words
      ensures Valid() && Abs() == old(Abs()).(words := old(words)[key := Word(old(Abs()), key) + d])
    {
      words := words[key := (if key in words then words[key] else 0) + d];
    }

    /** `verhogen` */
    method VerhogenOn(key: Key)
      requires Valid() && Inv(Abs(), Floating(Abs()))
      modifies this, queue, semd
      ensures Valid() && Abs() == DoVerhogen(old(Abs()), key)
    {
      ghost var fl := Floating(Abs());
      WaitersIffActive(Abs(), fl, key);
      hide Circular, Exclusive, Inv, Typed, Waiters, RemoveBlocked, EnqueueProcess, AslSemd;
      var d := AslLookup(Some(key));
      if d.Some? {
        var p := Wake(key, fl);
      } else {
        SetWord(key, 1);
      }
    }

    /** `passeren` */
    method PasserenOn(key: Key, s: Context)
      requires Valid() && Inv(Abs(), Floating(Abs())) && current.Some?
      modifies this, queue, semd
      ensures Valid() && Abs() == DoPasseren(old(Abs()), key, s)
    {
      hide Circular, Exclusive, Inv, Typed, BlockCurrent;
      if key in words && words[key] != 0 {
        SetWord(key, -1);
      } else {
        BlockCurrentOn(key, s);
      }
    }

    /** `terminate_process` */
    method TerminateProcessOf(pid: Option<Pid>) returns (ret: int)
      requires Valid() && Inv(Abs(), Floating(Abs())) && current.Some?
      requires pid.Some? ==> pid.value < |pcb|
      modifies this, queue, tree, semd
      ensures var k := old(Abs()); var p := if pid == None then k.current.value else pid.value;
              && Valid()
              && ret == (if p in Queue(k, PcbFree) then FAILURE else SUCCESS) && Abs() == Terminate(k, p)
    {
      var p := if pid == None then current.value else pid.value;
      CurrentLive(Abs(), current.value);
      hide Circular, Exclusive, Inv, Typed, KillProcess;
      var free := PcbIsFree(p);
      if free {
        return FAILURE;
      }
      KillProcessAt(p);
      return SUCCESS;
    }

    /** `spec_pass_up` up to the registration; a second registration kills the caller. */
    method RegisterArea(kind: nat, oldArea: nat, newArea: nat)
      requires Valid() && current.Some? && current.value < |pcb|
      modifies this`pcb
      ensures Valid() && Abs() == RegisterPassUp(old(Abs()), current.value, kind, oldArea, newArea)
    {
      var x := pcb[current.value];
      pcb := pcb[current.value := x.(newAreas := x.newAreas[kind := newArea], oldAreas := x.oldAreas[kind := oldArea])];
    }

    method SpecPassUpFor(kind: nat, oldArea: nat, newArea: nat) returns (ret: int)
      requires Valid() && Inv(Abs(), Floating(Abs())) && current.Some? && kind < 3
      modifies this, queue, tree, semd
      ensures var k := old(Abs()); var p := k.current.value; var again := Area(Proc(k, p).newAreas, kind) != 0;
              && Valid() && ret == (if again then FAILURE else SUCCESS)
              && Abs() == DoSpecPassUp(k, p, kind, oldArea, newArea)
    {
      var p := current.value;
      CurrentLive(Abs(), p);
      hide Circular, Exclusive, Inv, Typed, KillProcess, RegisterPassUp;
      if Area(pcb[p].newAreas, kind) != 0 {
        KillProcessAt(p);
        return FAILURE;
      }
      RegisterArea(kind, oldArea, newArea);
      return SUCCESS;
    }

    /** The switch of `syscall_handler`, with the returned value in the saved state. */
    method Serve(call: Call, s: Context) returns (answer: Context)
      requires Valid() && Inv(Abs(), Floating(Abs())) && current.Some?
      requires call.TerminateProcess? && call.pid.Some? ==> call.pid.value < |pcb|
      requires call.SpecPassUp? ==> call.kind < 3
      modifies this, queue, tree, semd
      ensures Valid() && Abs() == Served(old(Abs()), call, s) && answer == Answer(old(Abs()), call, s)
    {
      answer := s;
      CurrentLive(Abs(), current.value);
      if !call.CreateProcess? && !call.TerminateProcess? && !call.SpecPassUp? {
        PlainForm(Abs(), call, s);
      }
      hide Circular, Exclusive, Inv, Typed, AccountTime, Create, DoVerhogen, DoPasseren, BlockCurrent;
      hide Served, Answer;
      match call {
        case GetCpuTime =>
          AccountTimeTo(true);
        case Verhogen(key) =>
          VerhogenOn(key);
        case Passeren(key) =>
          PasserenOn(key, s);
        case WaitIo(dev, reception) =>
          BlockCurrentOn(DeviceKey(dev, reception), s);
        case GetPid =>
        case OtherCall =>
        case _ =>
          var ret := ServeAnswering(call, s);
          answer := s.(ret := ret);
      }
    }

    /** The calls that put their result into the return register. */
    method ServeAnswering(call: Call, ghost s: Context) returns (ret: int)
      requires Valid() && Inv(Abs(), Floating(Abs())) && current.Some?
      requires call.CreateProcess? || call.TerminateProcess? || call.SpecPassUp?
      requires call.TerminateProcess? && call.pid.Some? ==> call.pid.value < |pcb|
      requires call.SpecPassUp? ==> call.kind < 3
      modifies this, queue, tree, semd
      ensures Valid() && Abs() == Served(old(Abs()), call, s) && Answer(old(Abs()), call, s) == s.(ret := ret)
    {
      AnsweringForm(Abs(), call, s);
      hide Circular, Exclusive, Inv, Typed, Terminate, Create, DoSpecPassUp, Served, Answer;
      match call {
        case CreateProcess(start, priority) =>
          var child;
          ret, child := CreateProcessWith(start, priority);
        case TerminateProcess(pid) =>
          ret := TerminateProcessOf(pid);
        case SpecPassUp(kind, oldArea, newArea) =>
          ret := SpecPassUpFor(kind, oldArea, newArea);
      }
    }

    /** `syscall_handler` after the time accounting. */
    method HandleSyscall(call: Call, s: Context)
      requires Valid() && Inv(Abs(), Floating(Abs())) && current.Some?
      requires call.TerminateProcess? && call.pid.Some? ==> call.pid.value < |pcb|
      requires call.SpecPassUp? ==> call.kind < 3
      modifies this, queue, tree, semd
      ensures Valid() && Abs() == DoSyscall(old(Abs()), call, s)
    {
      SyscallForm(Abs(), call, s);
      hide Circular, Exclusive, Inv, Typed, Served, Resume, HandleException, Answer, DoSyscall;
      if call.OtherCall? {
        PassUpOrDie(0, s);
      } else {
        ServeAndResume(call, s);
      }
    }

    /** The switch and the `scheduler_resume` behind it. */
    method ServeAndResume(call: Call, s: Context)
      requires Valid() && Inv(Abs(), Floating(Abs())) && current.Some?
      requires call.TerminateProcess? && call.pid.Some? ==> call.pid.value < |pcb|
      requires call.SpecPassUp? ==> call.kind < 3
      modifies this, queue, tree, semd
      ensures Valid() && var k := old(Abs()); Abs() == Resume(Served(k, call, s), false, Answer(k, call, s))
    {
      CurrentLive(Abs(), current.value);
      hide Circular, Exclusive, Inv, Typed, Served, Resume, Answer;
      Contexts.ServedCurrent(Abs(), call, s);
      var answer := Serve(call, s);
      ResumeScheduler(false, answer);
    }

    // ----- src/interrupts.c

    /** `unblock_process` */
    method UnblockProcess(key: Key, status: nat, ghost fl: set<Pid>)
      requires Valid() && Inv(Abs(), fl) && Waiters(Abs(), key) != []
      modifies this`pcb, this`ledger, queue, semd
      ensures Valid() && Abs() == Unblock(old(Abs()), Completion(key, status))
    {
      hide Circular, Exclusive, Inv, Typed, EnqueueProcess, RemoveBlocked, Waiters;
      var p := Wake(key, fl);
      StoreContext(p, pcb[p].ps.(ret := status));
    }

    /** `unblock_process` for a device that has something to report. */
    method Complete(key: Key, status: nat, ghost fl: set<Pid>, ghost rest: seq<Completion>)
      requires Valid() && Inv(Abs(), fl) && AllAwaited(Abs(), [Completion(key, status)] + rest)
      modifies this`pcb, this`ledger, queue, semd
      ensures Valid() && Inv(Abs(), fl) && Abs() == UnblockAll(old(Abs()), [Completion(key, status)])
      ensures AllAwaited(Abs(), rest)
    {
      ghost var c := Completion(key, status);
      UnblockInv(Abs(), fl, c);
      hide Circular, Exclusive, Inv, Typed, Unblock, Waiters;
      assert ([c] + rest)[1..] == rest && [c][1..] == [];
      UnblockProcess(key, status, fl);
    }

    /** One of the two tests of `handle_term`. */
    method CompleteIf(done: bool, key: Key, status: nat, ghost fl: set<Pid>, ghost rest: seq<Completion>)
      requires Valid() && Inv(Abs(), fl) && AllAwaited(Abs(), (if done then [Completion(key, status)] else []) + rest)
      modifies this`pcb, this`ledger, queue, semd
      ensures Valid() && Inv(Abs(), fl)
              && Abs() == UnblockAll(old(Abs()), if done then [Completion(key, status)] else [])
      ensures AllAwaited(Abs(), rest)
    {
      hide Circular, Exclusive, Inv, Typed, UnblockAll, AllAwaited;
      if done {
        Complete(key, status, fl, rest);
      } else {
        NothingDone(Abs(), rest);
      }
    }

    /** `handle_term`: transmission and reception complete independently. */
    method HandleTerm(line: nat, i: nat, r: Registers, ghost fl: set<Pid>, ghost rest: seq<Completion>)
      requires DEV_IL_START <= line && Valid() && Inv(Abs(), fl)
      requires AllAwaited(Abs(), TermTx(line, i, r) + TermRx(line, i, r) + rest)
      modifies this`pcb, this`ledger, queue, semd
      ensures Valid() && Inv(Abs(), fl) && Abs() == UnblockAll(old(Abs()), TermTx(line, i, r) + TermRx(line, i, r))
      ensures AllAwaited(Abs(), rest)
    {
      var dev := DeviceIndex(line, i);
      hide Circular, Exclusive, Inv, Typed, UnblockAll, AllAwaited;
      Assoc(TermTx(line, i, r), TermRx(line, i, r), rest);
      UnblockAllConcat(Abs(), TermTx(line, i, r), TermRx(line, i, r));
      CompleteIf(r.transmStatus % TERM_STATUS_MASK == ST_TRANSMITTED, DeviceKey(dev, false), r.transmStatus,
                 fl, TermRx(line, i, r) + rest);
      CompleteIf(r.recvStatus % TERM_STATUS_MASK == ST_TRANSMITTED, DeviceKey(dev, true), r.recvStatus, fl, rest);
    }

    /** The choice between `handle_dtp` and `handle_term`. */
    method HandleDevice(line: nat, i: nat, r: Registers, ghost fl: set<Pid>, ghost rest: seq<Completion>)
      requires DEV_IL_START <= line && Valid() && Inv(Abs(), fl) && AllAwaited(Abs(), DeviceDone(line, i, r) + rest)
      modifies this`pcb, this`ledger, queue, semd
      ensures Valid() && Inv(Abs(), fl) && Abs() == UnblockAll(old(Abs()), DeviceDone(line, i, r))
      ensures AllAwaited(Abs(), rest)
    {
      hide Circular, Exclusive, Inv, Typed, UnblockAll, AllAwaited;
      if line < IL_TERMINAL {
        Complete(DeviceKey(DeviceIndex(line, i), false), r.status, fl, rest);
      } else {
        HandleTerm(line, i, r, fl, rest);
      }
    }

    /** `handle_interrupt`: the bitmap is shifted right once per device. */
    method HandleLine(line: nat, v: LineView, ghost fl: set<Pid>, ghost rest: seq<Completion>)
      requires DEV_IL_START <= line && Valid() && Inv(Abs(), fl) && AllAwaited(Abs(), LineDoneFrom(line, v, 0) + rest)
      modifies this`pcb, this`ledger, queue, semd
      ensures Valid() && Inv(Abs(), fl) && Abs() == UnblockAll(old(Abs()), LineDoneFrom(line, v, 0))
      ensures AllAwaited(Abs(), rest)
    {
      ghost var k := Abs();
      hide Circular, Exclusive, Inv, Typed, Unblock, Waiters, UnblockAll, AllAwaited, DeviceDone;
      var bitmap := v.bitmap;
      for i := 0 to N_DEV_PER_IL
        invariant bitmap == v.bitmap / Pow2(i)
        invariant Valid() && Inv(Abs(), fl) && AllAwaited(Abs(), LineDoneFrom(line, v, i) + rest)
        invariant UnblockAll(Abs(), LineDoneFrom(line, v, i)) == UnblockAll(k, LineDoneFrom(line, v, 0))
      {
        LineSplit(Abs(), line, v, i, rest);
        if bitmap % 2 == 1 {
          HandleDevice(line, i, RegistersOf(v, i), fl, LineDoneFrom(line, v, i + 1) + rest);
        }
        bitmap := bitmap / 2;
        HalfAgain(v.bitmap, i);
      }
      NothingDone(Abs(), rest);
    }

    method HandlePending(line: nat, v: Option<LineView>, ghost fl: set<Pid>, ghost rest: seq<Completion>)
      requires DEV_IL_START <= line && Valid() && Inv(Abs(), fl) && AllAwaited(Abs(), LineDone(line, v) + rest)
      modifies this`pcb, this`ledger, queue, semd
      ensures Valid() && Inv(Abs(), fl) && Abs() == UnblockAll(old(Abs()), LineDone(line, v))
      ensures AllAwaited(Abs(), rest)
    {
      hide Circular, Exclusive, Inv, Typed, UnblockAll, AllAwaited, LineDoneFrom;
      if v.Some? {
        HandleLine(line, v.value, fl, rest);
      } else {
        NothingDone(Abs(), rest);
      }
    }

    /** The five line tests of `interrupts_handler`; a pending printer line reads the Ethernet devices. */
    method HandleLines(e: Entry, ghost fl: set<Pid>)
      requires e.Interrupt? && Valid() && Inv(Abs(), fl) && AllAwaited(Abs(), AllDone(e))
      modifies this`pcb, this`ledger, queue, semd
      ensures Valid() && Abs() == UnblockAll(old(Abs()), AllDone(e))
    {
      ghost var k := Abs();
      ghost var a, b, c := LineDone(IL_DISK, e.disk), LineDone(IL_TAPE, e.tape), LineDone(IL_ETHERNET, e.ethernet);
      ghost var d, f := LineDone(IL_ETHERNET, e.printer), LineDone(IL_TERMINAL, e.terminal);
      FiveLines(k, a, b, c, d, f);
      hide Circular, Exclusive, Inv, Typed, UnblockAll, AllAwaited, LineDone;
      HandlePending(IL_DISK, e.disk, fl, b + (c + (d + f)));
      HandlePending(IL_TAPE, e.tape, fl, c + (d + f));
      HandlePending(IL_ETHERNET, e.ethernet, fl, d + f);
      HandlePending(IL_ETHERNET, e.printer, fl, f);
      NothingLeft(f);
      HandlePending(IL_TERMINAL, e.terminal, fl, []);
    }

    /** `interrupts_handler` after the time accounting. */
    method HandleInterrupt(e: Entry, s: Context)
      requires e.Interrupt? && Valid() && Inv(Abs(), Floating(Abs())) && AllAwaited(Abs(), AllDone(e))
      modifies this, queue, semd
      ensures Valid() && Abs() == Resume(UnblockAll(old(Abs()), AllDone(e)), e.timer, s)
    {
      UnblockAllInv(Abs(), Floating(Abs()), AllDone(e));
      hide Circular, Exclusive, Inv, Typed, UnblockAll, AllAwaited, AllDone, Resume;
      HandleLines(e, Floating(Abs()));
      ResumeScheduler(e.timer, s);
    }

    // ----- kernel entry

    method SetDelays(delays: seq<nat>)
      requires Valid()
      modifies this`delays
      ensures Valid() && Abs() == old(Abs()).(delays := delays)
    {
      this.delays := delays;
    }

    /** Any kernel entry: the concrete kernel does what the step system says. */
    method Enter(target: Target, e: Event)
      requires Valid() && KernelInv(Abs()) && Possible(Abs(), e)
      modifies this, queue, tree, semd
      ensures Valid() && Abs() == Step(target, old(Abs()), e)
      ensures KernelInv(Abs()) <==> !KillsOwnAncestor(old(Abs()), e)
    {
      ghost var k := Abs();
      StepInvIff(target, k, e);
      EnterReady(k, e);
      hide Circular, Exclusive, Inv, Typed, AccountTime, Resume;
      hide DoSyscall, HandleException, UnblockAll, AllAwaited, AllDone;
      SetDelays(e.delays);
      match e.entry {
        case Syscall(call) =>
          AccountTimeTo(false);
          HandleSyscall(call, SyscallContext(target, e.saved));
        case Breakpoint =>
          AccountTimeTo(false);
          ResumeScheduler(false, e.saved);
        case Trap(kind) =>
          PassUpOrDie(kind, e.saved);
        case Interrupt(_, _, _, _, _, _) =>
          AccountTimeTo(false);
          HandleInterrupt(e.entry, InterruptContext(target, e.saved));
      }
    }

    /** `main` after the tables are set up: `scheduler_init` and `scheduler_run`. */
    method Start(start: Context)
      requires Valid() && |pcb| >= 1 && Abs() == Tables(|pcb|, words, delays)
      modifies this, queue, tree
      ensures Valid() && Abs() == Boot(old(|pcb|), start, old(words), old(delays)) && KernelInv(Abs())
    {
      BootInv(|pcb|, start, words, delays);
      NobodysChild(|pcb|, words, delays);
      hide Circular, Exclusive, KernelInv, Typed, AllocPcb, EnqueueProcess, Run, Unlinked, Tables, Inv;
      FirstFree(|pcb|, words, delays);
      var r := PcbAlloc();
      FillPcb(r.value, start, DEFAULT_PRIORITY);
      EnqueuedNonEmpty(Abs(), r.value);
      Enqueue(r.value);
      RunNext();
    }

    /** Boot and a whole run of kernel entries. */
    method Execute(target: Target, start: Context, es: seq<Event>)
      requires Valid() && |pcb| >= 1 && Abs() == Tables(|pcb|, words, delays)
      requires EnabledRun(target, Boot(|pcb|, start, words, delays), es)
      modifies this, queue, tree, semd
      ensures Valid() && KernelInv(Abs())
      ensures Abs() == RunSteps(target, Boot(old(|pcb|), start, old(words), old(delays)), es)
    {
      ghost var k := Boot(|pcb|, start, words, delays);
      hide Circular, Exclusive, KernelInv, Typed, Step, Boot, Tables, RunSteps, EnabledRun, Possible, KillsOwnAncestor;
      Start(start);
      assert es[0..] == es;
      for i := 0 to |es|
        invariant Valid() && KernelInv(Abs())
        invariant EnabledRun(target, Abs(), es[i..])
        invariant RunSteps(target, k, es) == RunSteps(target, Abs(), es[i..])
      {
        FirstEvent(target, Abs(), es, i);
        Enter(target, es[i]);
      }
      NoEvents(target, Abs(), es);
    }
  }
}
