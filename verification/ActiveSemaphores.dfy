/**
 The active semaphore list as a map from keys to queues of blocked processes, and
 the two operations that change it.
 */
module ActiveSemaphores {
  import opened Sequences
  import opened KernelState
  import opened Invariants

  lemma {:induction false} FirstWithFacts(keys: seq<Option<Key>>, s: seq<Semd>, key: Option<Key>)
    ensures var r := FirstWith(keys, s, key);
            && (r.Some? ==> r.value in s && r.value < |keys| && keys[r.value] == key)
            && (r.None? ==> forall x: Semd :: x in s && x < |keys| ==> keys[x] != key)
  {
    if s != [] {
      FirstWithFacts(keys, s[1..], key);
    }
  }

  /** `asl_semd` is exactly lookup in the map from active keys to descriptors. */
  lemma AslSemdIsLookup(k: State, fl: set<Pid>, key: Option<Key>, s: Semd)
    requires SemdsOk(k, fl)
    ensures AslSemd(k, key) == Some(s) <==> s in k.semds[Asl] && k.semKeys[s] == key
    ensures AslSemd(k, None) == None
  {
    FirstWithFacts(k.semKeys, k.semds[Asl], key);
    FirstWithFacts(k.semKeys, k.semds[Asl], None);
  }

  /** A live process has `key` in `p_semkey` iff it is among the waiters of `key`. */
  lemma SemKeyIsQueue(k: State, fl: set<Pid>, p: Pid, key: Key)
    requires QueuesOk(k, fl) && SemdsOk(k, fl) && p < |k.pcb| && !Free(k, p)
    ensures k.pcb[p].semKey == Some(key) <==> p in Waiters(k, key)
  {
    FirstWithFacts(k.semKeys, k.semds[Asl], Some(key));
    if p in Waiters(k, key) {
      var s := AslSemd(k, Some(key)).value;
      assert On(k.queues, ProcQ(s), p);
    }
    if k.pcb[p].semKey == Some(key) {
      assert p !in fl;
      var h: QueueHead :| On(k.queues, h, p);
      assert h != PcbFree && h != Ready;
      AslSemdIsLookup(k, fl, Some(key), h.s);
    }
  }

  /** With a PCB on no list there are fewer active descriptors than PCBs: blocking cannot fail. */
  lemma DescriptorAvailable(k: State, fl: set<Pid>)
    requires QueuesOk(k, fl) && SemdsOk(k, fl)
    ensures |k.semds[Asl]| <= |k.pcb| - |fl|
    ensures fl != {} ==> k.semds[SemdFree] != []
  {
    var asl := k.semds[Asl];
    forall i | 0 <= i < |asl|
      ensures ProcQ(asl[i]) in k.queues && k.queues[ProcQ(asl[i])] != []
    {
      assert asl[i] in asl;
    }
    var heads := seq(|asl|, i requires 0 <= i < |asl| => k.queues[ProcQ(asl[i])][0]);
    forall i | 0 <= i < |asl|
      ensures On(k.queues, ProcQ(asl[i]), heads[i])
    {
    }
    forall i, j | 0 <= i < j < |asl|
      ensures heads[i] != heads[j]
    {
      assert On(k.queues, ProcQ(asl[i]), heads[i]) && On(k.queues, ProcQ(asl[j]), heads[j]);
    }
    var all := Below(|k.pcb|);
    assert fl <= all;
    PigeonHole(heads, all - fl);
    if fl != {} && k.semds[SemdFree] == [] {
      var full := seq(|k.pcb|, i requires 0 <= i => i as nat);
      forall i | 0 <= i < |full| ensures full[i] in ToSet(asl) { assert i in asl; }
      PigeonHole(full, ToSet(asl));
      ToSetSize(asl);
    }
  }

  function Below(n: nat): (r: set<nat>)
    ensures |r| == n
    ensures forall x: nat :: x in r <==> x < n
  {
    if n == 0 then {} else Below(n - 1) + {n - 1}
  }

  lemma {:induction false} ToSetSize(s: seq<nat>)
    ensures |ToSet(s)| <= |s|
  {
    if s != [] {
      ToSetSize(s[1..]);
      assert ToSet(s) == ToSet(s[1..]) + {s[0]};
    }
  }

  // ----- blocking

  /** The queue of descriptor `s` is the only one that changes, by gaining or losing `p`. */
  ghost predicate OnlyQueue(k: State, k': State, s: Semd) {
    && |k'.pcb| == |k.pcb| && s < |k.pcb|
    && (forall r: Semd :: r < |k.pcb| ==> ProcQ(r) in k'.queues && ProcQ(r) in k.queues)
    && (forall r: Semd :: r < |k.pcb| && r != s ==> k'.queues[ProcQ(r)] == k.queues[ProcQ(r)])
    && (forall x: Pid :: On(k'.queues, Ready, x) <==> On(k.queues, Ready, x))
  }

  /** A process joins the queue of an active descriptor. */
  lemma JoinSemd(k: State, k': State, fl: set<Pid>, s: Semd, p: Pid)
    requires SemdsOk(k, fl) && OnlyQueue(k, k', s) && p < |k.pcb| && p in fl
    requires s in k.semds[Asl] && k'.semds == k.semds && k'.semKeys == k.semKeys
    requires k'.pcb[p].semKey == k.semKeys[s]
    requires forall x: Pid :: x < |k.pcb| && x != p ==> k'.pcb[x].semKey == k.pcb[x].semKey
    requires k'.queues[ProcQ(s)] != []
    requires forall g: QueueHead, x: Pid :: On(k'.queues, g, x) <==> On(k.queues, g, x) || (g == ProcQ(s) && x == p)
    requires forall g: QueueHead :: !On(k.queues, g, p)
    ensures SemdsOk(k', fl - {p})
  {
  }

  /** A process opens a descriptor from the pool under a key that is not active. */
  lemma OpenSemd(k: State, k': State, fl: set<Pid>, s: Semd, p: Pid, key: Key)
    requires SemdsOk(k, fl) && OnlyQueue(k, k', s) && p < |k.pcb| && p in fl
    requires k.semds[SemdFree] != [] && s == k.semds[SemdFree][0]
    requires k'.semds == k.semds[SemdFree := k.semds[SemdFree][1..]][Asl := [s] + k.semds[Asl]]
    requires k'.semKeys == k.semKeys[s := Some(key)]
    requires forall r: Semd :: r in k.semds[Asl] ==> k.semKeys[r] != Some(key)
    requires k'.pcb[p].semKey == Some(key)
    requires forall x: Pid :: x < |k.pcb| && x != p ==> k'.pcb[x].semKey == k.pcb[x].semKey
    requires k'.queues[ProcQ(s)] != []
    requires forall g: QueueHead, x: Pid :: On(k'.queues, g, x) <==> On(k.queues, g, x) || (g == ProcQ(s) && x == p)
    requires forall g: QueueHead :: !On(k.queues, g, p)
    ensures SemdsOk(k', fl - {p})
  {
    var free := k.semds[SemdFree];
    assert s in free && s !in k.semds[Asl];
    NoDupTail(free);
    assert forall r: Semd :: r in k'.semds[Asl] <==> r == s || r in k.semds[Asl];
    assert forall r: Semd :: r in k'.semds[SemdFree] <==> r != s && r in free;
    assert forall x: Pid :: !On(k.queues, ProcQ(s), x);
  }

  /** `k'` is `k` with `p` queued under `key` on descriptor `s`, taken from the pool if need be. */
  ghost predicate Blocks(k: State, k': State, key: Key, p: Pid, s: Semd) {
    && p < |k.pcb| && s < |k.pcb|
    && k'.queues == InsertInQueue(k, ProcQ(s), p).queues
    && k'.ledger == InsertInQueue(k, ProcQ(s), p).ledger
    && k'.pcb == k.pcb[p := k.pcb[p].(semKey := Some(key))]
    && k'.children == k.children
    && if s in Semds(k, Asl) then k'.semds == k.semds && k'.semKeys == k.semKeys && SemKey(k, s) == Some(key)
       else
         && Semds(k, SemdFree) != [] && s == Semds(k, SemdFree)[0] && s < |k.semKeys|
         && k'.semds == k.semds[SemdFree := Semds(k, SemdFree)[1..]][Asl := [s] + Semds(k, Asl)]
         && k'.semKeys == k.semKeys[s := Some(key)]
         && forall r: Semd :: r in Semds(k, Asl) ==> SemKey(k, r) != Some(key)
  }

  lemma InsertBlockedForm(k: State, fl: set<Pid>, key: Key, p: Pid) returns (s: Semd)
    requires SemdsOk(k, fl) && k.semds[SemdFree] != [] && p < |k.pcb|
    ensures AslSemd(k, Some(key)) == (if s in k.semds[Asl] then Some(s) else None)
    ensures Blocks(k, InsertBlocked(k, key, p), key, p, s)
  {
    FirstWithFacts(k.semKeys, k.semds[Asl], Some(key));
    assert k.semds[SemdFree][0] in k.semds[SemdFree];
    s := if AslSemd(k, Some(key)) == None then k.semds[SemdFree][0] else AslSemd(k, Some(key)).value;
    assert AslSemd(Activate(k, key), Some(key)) == Some(s);
  }

  lemma BlockedQueues(k: State, k': State, fl: set<Pid>, key: Key, p: Pid, s: Semd)
    requires QueuesOk(k, fl) && OrderOk(k) && p in fl && Blocks(k, k', key, p, s)
    ensures QueuesOk(k', fl - {p}) && OrderOk(k')
    ensures forall g: QueueHead, x: Pid :: On(k'.queues, g, x) <==> On(k.queues, g, x) || (g == ProcQ(s) && x == p)
  {
    InsertQueues(k, fl, ProcQ(s), p);
    OrderFrame(InsertInQueue(k, ProcQ(s), p), k');
  }

  lemma BlockedSemds(k: State, k': State, fl: set<Pid>, key: Key, p: Pid, s: Semd)
    requires QueuesOk(k, fl) && SemdsOk(k, fl) && p in fl && Blocks(k, k', key, p, s)
    requires forall g: QueueHead, x: Pid :: On(k'.queues, g, x) <==> On(k.queues, g, x) || (g == ProcQ(s) && x == p)
    ensures SemdsOk(k', fl - {p})
  {
    assert On(k'.queues, ProcQ(s), p);
    if s in k.semds[Asl] {
      JoinSemd(k, k', fl, s, p);
    } else {
      OpenSemd(k, k', fl, s, p, key);
    }
  }

  lemma BlockedInv(k: State, k': State, fl: set<Pid>, key: Key, p: Pid, s: Semd)
    requires Inv(k, fl) && p in fl && Blocks(k, k', key, p, s)
    ensures Inv(k', fl - {p})
    ensures forall x: Pid :: On(k'.queues, Ready, x) <==> On(k.queues, Ready, x)
    ensures forall x: Pid :: Free(k', x) <==> Free(k, x)
  {
    BlockedQueues(k, k', fl, key, p, s);
    BlockedSemds(k, k', fl, key, p, s);
    TreeFrame(k, k');
  }

  lemma InsertBlockedInv(k: State, fl: set<Pid>, key: Key, p: Pid)
    requires Inv(k, fl) && p in fl
    ensures var k' := InsertBlocked(k, key, p);
            && !NoDescriptor(k, key) && Inv(k', fl - {p})
            && (forall x: Pid :: On(k'.queues, Ready, x) <==> On(k.queues, Ready, x))
            && (forall x: Pid :: Free(k', x) <==> Free(k, x))
  {
    DescriptorAvailable(k, fl);
    var s := InsertBlockedForm(k, fl, key, p);
    BlockedInv(k, InsertBlocked(k, key, p), fl, key, p, s);
  }

  // ----- unblocking

  /** The last process leaves the queue of `s`, which returns to the pool. */
  lemma CloseSemd(k: State, k': State, fl: set<Pid>, s: Semd, p: Pid)
    requires SemdsOk(k, fl) && OnlyQueue(k, k', s) && k'.semKeys == k.semKeys
    requires s in k.semds[Asl] && k'.queues[ProcQ(s)] == []
    requires k'.semds == k.semds[Asl := Minus(k.semds[Asl], {s})][SemdFree := [s] + k.semds[SemdFree]]
    requires forall x: Pid :: x < |k.pcb| ==> k'.pcb[x].semKey == k.pcb[x].semKey
    requires forall g: QueueHead, x: Pid :: On(k'.queues, g, x) <==> On(k.queues, g, x) && x != p
    ensures SemdsOk(k', fl)
  {
    MinusNoDup(k.semds[Asl], {s});
    assert forall r: Semd :: r in k'.semds[SemdFree] <==> r == s || r in k.semds[SemdFree];
  }

  /** A process leaves the queue of `s` and somebody stays. */
  lemma LeaveSemd(k: State, k': State, fl: set<Pid>, s: Semd, p: Pid)
    requires SemdsOk(k, fl) && OnlyQueue(k, k', s) && k'.semKeys == k.semKeys && k'.semds == k.semds
    requires s in k.semds[Asl] && k'.queues[ProcQ(s)] != []
    requires forall x: Pid :: x < |k.pcb| ==> k'.pcb[x].semKey == k.pcb[x].semKey
    requires forall g: QueueHead, x: Pid :: On(k'.queues, g, x) <==> On(k.queues, g, x) && x != p
    ensures SemdsOk(k', fl)
  {
  }

  /** `k'` is `k` with `p` off the queue of `s`, which goes back to the pool if it was the last. */
  ghost predicate Unblocks(k: State, k': State, s: Semd, p: Pid) {
    && ProcQ(s) in k.queues && p in k.queues[ProcQ(s)]
    && k'.queues == k.queues[ProcQ(s) := Minus(k.queues[ProcQ(s)], {p})]
    && k'.children == k.children && k'.ledger == k.ledger && k'.semKeys == k.semKeys && k'.pcb == k.pcb
    && k'.semds ==
       if k'.queues[ProcQ(s)] != [] then k.semds
       else k.semds[Asl := Minus(Semds(k, Asl), {s})][SemdFree := [s] + Semds(k, SemdFree)]
  }

  lemma UnblockedQueues(k: State, k': State, fl: set<Pid>, s: Semd, p: Pid)
    requires QueuesOk(k, fl) && OrderOk(k) && Unblocks(k, k', s, p)
    ensures QueuesOk(k', fl + {p}) && OrderOk(k')
    ensures forall g: QueueHead, x: Pid :: On(k'.queues, g, x) <==> On(k.queues, g, x) && x != p
  {
    RemoveQueues(k, fl, ProcQ(s), p);
    OrderFrame(RemoveFromQueue(k, ProcQ(s), p), k');
  }

  lemma UnblockedSemds(k: State, k': State, fl: set<Pid>, s: Semd, p: Pid)
    requires QueuesOk(k, fl) && SemdsOk(k, fl) && Unblocks(k, k', s, p)
    requires forall g: QueueHead, x: Pid :: On(k'.queues, g, x) <==> On(k.queues, g, x) && x != p
    ensures SemdsOk(k', fl)
  {
    assert On(k.queues, ProcQ(s), p) && !On(k.queues, Ready, p);
    if k'.queues[ProcQ(s)] == [] {
      CloseSemd(k, k', fl, s, p);
    } else {
      LeaveSemd(k, k', fl, s, p);
    }
  }

  lemma UnblockedInv(k: State, k': State, fl: set<Pid>, s: Semd, p: Pid)
    requires Inv(k, fl) && Unblocks(k, k', s, p)
    ensures QueuesOk(k', fl + {p}) && SemdsOk(k', fl) && TreeOk(k') && OrderOk(k')
    ensures forall g: QueueHead, x: Pid :: On(k'.queues, g, x) <==> On(k.queues, g, x) && x != p
  {
    UnblockedQueues(k, k', fl, s, p);
    UnblockedSemds(k, k', fl, s, p);
    assert On(k.queues, ProcQ(s), p) && !On(k.queues, PcbFree, p);
    TreeFrame(k, k');
  }

  lemma ClearKeySemds(k: State, k': State, fl: set<Pid>, p: Pid)
    requires SemdsOk(k, fl) && p < |k.pcb| && forall g: QueueHead :: !On(k.queues, g, p)
    requires k'.queues == k.queues && k'.semds == k.semds && k'.semKeys == k.semKeys
    requires k'.pcb == k.pcb[p := k.pcb[p].(semKey := None)]
    ensures SemdsOk(k', fl + {p})
  {
  }

  /** Clearing the key of a process that is on no list. */
  lemma ClearKey(k: State, k': State, fl: set<Pid>, p: Pid)
    requires QueuesOk(k, fl + {p}) && SemdsOk(k, fl) && TreeOk(k) && OrderOk(k)
    requires p < |k.pcb| && k' == k.(pcb := k.pcb[p := k.pcb[p].(semKey := None)])
    ensures Inv(k', fl + {p})
  {
    TreeFrame(k, k');
    OrderFrame(k, k');
    ClearKeySemds(k, k', fl, p);
  }

  lemma RemoveBlockedForm(k: State, key: Key) returns (k1: State, s: Semd, p: Pid)
    requires Waiters(k, key) != [] && forall g: QueueHead, x: Pid :: On(k.queues, g, x) ==> x < |k.pcb|
    ensures p == Waiters(k, key)[0] && p < |k.pcb| && Unblocks(k, k1, s, p)
    ensures AslSemd(k, Some(key)) == Some(s) && k.queues[ProcQ(s)][0] == p
    ensures RemoveBlocked(k, key) == k1.(pcb := k1.pcb[p := k1.pcb[p].(semKey := None)])
  {
    p := Waiters(k, key)[0];
    s := AslSemd(k, Some(key)).value;
    assert On(k.queues, ProcQ(s), p);
    k1 := DropBlocked(k, s, p);
  }

  /** The key's first waiter leaves with `p_semkey` cleared, on no list. */
  lemma RemoveBlockedInv(k: State, fl: set<Pid>, key: Key)
    requires Inv(k, fl) && Waiters(k, key) != []
    ensures var p := Waiters(k, key)[0]; var k' := RemoveBlocked(k, key);
            && p < |k.pcb| && p !in fl && Inv(k', fl + {p})
            && (forall g: QueueHead, x: Pid :: On(k'.queues, g, x) <==> On(k.queues, g, x) && x != p)
  {
    var k1, s, p := RemoveBlockedForm(k, key);
    UnblockedInv(k, k1, fl, s, p);
    ClearKey(k1, RemoveBlocked(k, key), fl, p);
    assert On(k.queues, ProcQ(s), p);
  }
}
