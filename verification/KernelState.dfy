/**
 The kernel as a value.  `State` holds, for every list of the kernel, the sequence
 of its elements, and the fields of the two tables and of the scheduler.  Each
 function below is what one kernel routine does to that value; the routines
 themselves, working on link fields, are the methods of module `Kernel`.
 */
module KernelState {
  import opened Sequences

  datatype Option<+T> = None | Some(value: T)

  type Pid = nat   // index into pcbTable
  type Semd = nat  // index into semdTable

  /** Address of a semaphore word: a word of a user program or one of devices_semkeys. */
  datatype Key = User(addr: nat) | Device(row: nat, col: nat)

  /** Sentinels chained through `p_next`. */
  datatype QueueHead = PcbFree | Ready | ProcQ(s: Semd)

  /** Sentinels chained through `s_next`. */
  datatype SemdHead = SemdFree | Asl

  /** `state_t`: program counter, return register, and every other register. */
  datatype Context = Context(pc: nat, ret: int, rest: nat)

  datatype Pcb = Pcb(ps: Context, priority: int, originalPriority: int,
                     semKey: Option<Key>, parent: Option<Pid>,
                     startTm: nat, userTm: nat, kernelTm: nat,
                     newAreas: map<nat, nat>, oldAreas: map<nat, nat>)

  /** What the step hands the processor to: the argument of the `LDST` that ends it. */
  datatype Cpu = Resumed(s: Context) | Running(pid: Pid, s: Context) | Idle | PassedUp(area: nat)

  /**
   Observations that no kernel code reads: order of insertion into queues, a rank
   that drops from parent to child, and unwrapped times.
   */
  datatype Ledger = Ledger(stamp: seq<nat>, stamps: nat, rank: seq<nat>,
                           switchAt: nat, first: map<Pid, nat>)

  datatype State = State(queues: map<QueueHead, seq<Pid>>,
                         children: map<Pid, seq<Pid>>,
                         semds: map<SemdHead, seq<Semd>>,
                         pcb: seq<Pcb>,
                         semKeys: seq<Option<Key>>,
                         current: Option<Pid>,
                         switchTick: nat,
                         words: map<Key, int>,
                         areas: map<nat, Context>,
                         cpu: Cpu,
                         now: nat, delays: seq<nat>,
                         ledger: Ledger)

  const WORD := 0x1_0000_0000
  const DOUBLE_WORD := 0x1_0000_0000_0000_0000
  const ZERO_CONTEXT := Context(0, 0, 0)
  const ZERO_PCB := Pcb(ZERO_CONTEXT, 0, 0, None, None, 0, 0, 0, map[], map[])

  // ----- reading the state

  function Queue(k: State, h: QueueHead): seq<Pid> {
    if h in k.queues then k.queues[h] else []
  }

  function Kids(k: State, p: Pid): seq<Pid> {
    KidsOf(k.children, p)
  }

  function Semds(k: State, h: SemdHead): seq<Semd> {
    if h in k.semds then k.semds[h] else []
  }

  function Proc(k: State, p: Pid): Pcb {
    if p < |k.pcb| then k.pcb[p] else ZERO_PCB
  }

  function SemKey(k: State, s: Semd): Option<Key> {
    if s < |k.semKeys| then k.semKeys[s] else None
  }

  function Word(k: State, key: Key): int {
    if key in k.words then k.words[key] else 0
  }

  function SetQueue(k: State, h: QueueHead, s: seq<Pid>): State {
    k.(queues := k.queues[h := s])
  }

  function SetProc(k: State, p: Pid, x: Pcb): (k': State)
    ensures k' == k.(pcb := k'.pcb)
    ensures |k'.pcb| == |k.pcb|
  {
    if p < |k.pcb| then k.(pcb := k.pcb[p := x]) else k
  }

  // ----- src/pcb.c

  function ReleasePcb(k: State, p: Pid): State {
    SetQueue(k, PcbFree, [p] + Queue(k, PcbFree))
  }

  /** `pcb_alloc` on a non-empty free list: the first PCB, cleared, with an empty child list. */
  function AllocPcb(k: State): (k': State)
    ensures k' == k.(queues := k'.queues, children := k'.children, pcb := k'.pcb, ledger := k'.ledger)
    ensures |k'.pcb| == |k.pcb|
  {
    var free := Queue(k, PcbFree);
    if free == [] then k
    else
      var p := free[0];
      SetProc(SetQueue(k, PcbFree, free[1..]), p, ZERO_PCB)
      .(children := k.children[p := []], ledger := k.ledger.(first := k.ledger.first - {p}))
  }

  /** Index of the first process in `s` with a priority below `x`. */
  function InsertIndex(pcb: seq<Pcb>, s: seq<Pid>, x: int): (i: nat)
    ensures i <= |s|
  {
    if s == [] || (s[0] < |pcb| && pcb[s[0]].priority < x) then 0 else 1 + InsertIndex(pcb, s[1..], x)
  }

  function InsertInQueue(k: State, h: QueueHead, p: Pid): (k': State)
    ensures k' == k.(queues := k'.queues, ledger := k'.ledger)
    ensures k'.ledger == k.ledger.(stamp := k'.ledger.stamp, stamps := k'.ledger.stamps)
  {
    var s := Queue(k, h);
    SetQueue(k, h, InsertAt(s, InsertIndex(k.pcb, s, Proc(k, p).priority), p))
    .(ledger := k.ledger.(
      stamp := if p < |k.ledger.stamp| then k.ledger.stamp[p := k.ledger.stamps] else k.ledger.stamp,
      stamps := k.ledger.stamps + 1))
  }

  function RemoveFromQueue(k: State, h: QueueHead, p: Pid): (k': State)
    ensures k' == k.(queues := k'.queues)
  {
    if p in Queue(k, h) then SetQueue(k, h, Minus(Queue(k, h), {p})) else k
  }

  /** A fresh leaf gets rank 0 and everybody else moves up one. */
  function InsertChild(k: State, parent: Pid, p: Pid): (k': State)
    ensures k' == k.(children := k'.children, pcb := k'.pcb, ledger := k'.ledger)
    ensures |k'.pcb| == |k.pcb|
  {
    SetProc(k, p, Proc(k, p).(parent := Some(parent)))
    .(children := k.children[parent := Kids(k, parent) + [p]],
      ledger := k.ledger.(rank := Raised(k.ledger.rank, p)))
  }

  function Raised(rank: seq<nat>, p: Pid): (r: seq<nat>)
    ensures |r| == |rank|
    ensures forall i :: 0 <= i < |r| ==> r[i] == if i == p then 0 else rank[i] + 1
  {
    seq(|rank|, i requires 0 <= i < |rank| => if i == p then 0 else rank[i] + 1)
  }

  /** `pcb_find_and_remove_child` */
  function LeaveParent(k: State, p: Pid): (k': State)
    ensures k' == k.(children := k'.children, pcb := k'.pcb)
    ensures |k'.pcb| == |k.pcb|
  {
    match Proc(k, p).parent
    case None => k
    case Some(q) =>
      SetProc(k, p, Proc(k, p).(parent := None))
      .(children := k.children[q := Minus(Kids(k, q), {p})])
  }

  // ----- src/asl.c

  function FirstWith(keys: seq<Option<Key>>, s: seq<Semd>, key: Option<Key>): Option<Semd> {
    if s == [] then None
    else if s[0] < |keys| && keys[s[0]] == key then Some(s[0])
    else FirstWith(keys, s[1..], key)
  }

  function AslSemd(k: State, key: Option<Key>): Option<Semd> {
    FirstWith(k.semKeys, Semds(k, Asl), key)
  }

  /** The processes blocked on `key`, in wake-up order. */
  function Waiters(k: State, key: Key): seq<Pid> {
    match AslSemd(k, Some(key))
    case None => []
    case Some(s) => Queue(k, ProcQ(s))
  }

  /** `asl_insert_blocked` finds no descriptor: the key is inactive and the pool is empty. */
  predicate NoDescriptor(k: State, key: Key) {
    AslSemd(k, Some(key)) == None && Semds(k, SemdFree) == []
  }

  /** Activates a descriptor for `key` if none is active. */
  function Activate(k: State, key: Key): (k': State)
    ensures k' == k.(semds := k'.semds, semKeys := k'.semKeys)
  {
    var free := Semds(k, SemdFree);
    if AslSemd(k, Some(key)) != None || free == [] then k
    else k.(semds := k.semds[SemdFree := free[1..]][Asl := [free[0]] + Semds(k, Asl)],
            semKeys := if free[0] < |k.semKeys| then k.semKeys[free[0] := Some(key)] else k.semKeys)
  }

  function InsertBlocked(k: State, key: Key, p: Pid): (k': State)
    ensures k' == k.(queues := k'.queues, semds := k'.semds, semKeys := k'.semKeys, pcb := k'.pcb, ledger := k'.ledger)
    ensures |k'.pcb| == |k.pcb|
  {
    if NoDescriptor(k, key) then k
    else
      var k1 := Activate(k, key);
      match AslSemd(k1, Some(key))
      case None => k1
      case Some(s) =>
        var k2 := InsertInQueue(k1, ProcQ(s), p);
        SetProc(k2, p, Proc(k2, p).(semKey := Some(key)))
  }

  /** Takes `p` off the queue of `s`; an emptied descriptor goes back to the pool. */
  function DropBlocked(k: State, s: Semd, p: Pid): (k': State)
    ensures k' == k.(queues := k'.queues, semds := k'.semds)
  {
    var k1 := RemoveFromQueue(k, ProcQ(s), p);
    if Queue(k1, ProcQ(s)) != [] then k1
    else k1.(semds := k1.semds[Asl := Minus(Semds(k, Asl), {s})][SemdFree := [s] + Semds(k, SemdFree)])
  }

  /** `asl_remove_blocked` on a key with waiters: the head of its queue leaves. */
  function RemoveBlocked(k: State, key: Key): (k': State)
    ensures k' == k.(queues := k'.queues, semds := k'.semds, pcb := k'.pcb)
    ensures |k'.pcb| == |k.pcb|
  {
    match AslSemd(k, Some(key))
    case None => k
    case Some(s) =>
      if Queue(k, ProcQ(s)) == [] then k
      else
        var p := Queue(k, ProcQ(s))[0];
        var k1 := DropBlocked(k, s, p);
        SetProc(k1, p, Proc(k1, p).(semKey := None))
  }

  function FindAndRemoveBlocked(k: State, p: Pid): (k': State)
    ensures k' == k.(queues := k'.queues, semds := k'.semds)
  {
    match AslSemd(k, Proc(k, p).semKey)
    case None => k
    case Some(s) => if p in Queue(k, ProcQ(s)) then DropBlocked(k, s, p) else k
  }

  // ----- the time-of-day clock: `delays` says how far it moves before each reading

  function Tick(k: State): (k': State)
    ensures k' == k.(now := k'.now, delays := k'.delays)
    ensures k'.now >= k.now
  {
    if k.delays == [] then k else k.(now := k.now + k.delays[0], delays := k.delays[1..])
  }

  function Elapsed(k: State): nat {
    (k.now % WORD - k.switchTick) % WORD
  }

  // ----- src/scheduler.c

  function Charged(x: Pcb, kernel: bool, dt: nat): Pcb {
    if kernel then x.(kernelTm := (x.kernelTm + dt) % DOUBLE_WORD)
    else x.(userTm := (x.userTm + dt) % DOUBLE_WORD)
  }

  function StampSwitch(k: State): (k': State)
    ensures k' == k.(switchTick := k'.switchTick, ledger := k'.ledger)
  {
    k.(switchTick := k.now % WORD, ledger := k.ledger.(switchAt := k.now))
  }

  /** Charges the running process, if there is one, for the time since the last switch. */
  function Charge(k: State, kernel: bool): (k': State)
    ensures k' == k.(pcb := k'.pcb, now := k'.now, delays := k'.delays) && |k'.pcb| == |k.pcb| && k'.now >= k.now
    ensures forall p: Pid :: p < |k.pcb| ==>
              k'.pcb[p] == k.pcb[p].(userTm := k'.pcb[p].userTm, kernelTm := k'.pcb[p].kernelTm)
  {
    match k.current
    case None => k
    case Some(p) =>
      var k1 := Tick(k);
      SetProc(k1, p, Charged(Proc(k1, p), kernel, Elapsed(k1)))
  }

  function AccountTime(k: State, kernel: bool): (k': State)
    ensures k' == k.(pcb := k'.pcb, now := k'.now, delays := k'.delays,
                     switchTick := k'.switchTick, ledger := k'.ledger)
    ensures k'.ledger == k.ledger.(switchAt := k'.now) && k'.switchTick == k'.now % WORD && k'.now >= k.now
    ensures |k'.pcb| == |k.pcb|
    ensures forall p: Pid :: p < |k.pcb| ==>
              k'.pcb[p] == k.pcb[p].(userTm := k'.pcb[p].userTm, kernelTm := k'.pcb[p].kernelTm)
  {
    StampSwitch(Tick(Charge(k, kernel)))
  }

  function Aged(pcb: seq<Pcb>, s: seq<Pid>): (r: seq<Pcb>)
    ensures |r| == |pcb|
    ensures forall p :: 0 <= p < |r| ==> r[p] == if p in s then pcb[p].(priority := pcb[p].priority + 1) else pcb[p]
  {
    seq(|pcb|, p requires 0 <= p < |pcb| => if p in s then pcb[p].(priority := pcb[p].priority + 1) else pcb[p])
  }

  function Aging(k: State): (k': State)
    ensures k' == k.(pcb := k'.pcb)
    ensures |k'.pcb| == |k.pcb|
  {
    k.(pcb := Aged(k.pcb, Queue(k, Ready)))
  }

  function EnqueueProcess(k: State, p: Pid): (k': State)
    ensures k' == k.(queues := k'.queues, pcb := k'.pcb, ledger := k'.ledger)
    ensures |k'.pcb| == |k.pcb|
  {
    InsertInQueue(SetProc(k, p, Proc(k, p).(priority := Proc(k, p).originalPriority)), Ready, p)
  }

  /** The bookkeeping of a first activation: `start_tm == 0` stands for "never ran". */
  function Activation(k: State, p: Pid): (k': State)
    ensures k' == k.(pcb := k'.pcb, now := k'.now, delays := k'.delays, ledger := k'.ledger)
    ensures |k'.pcb| == |k.pcb|
    ensures k'.ledger == k.ledger.(first := k'.ledger.first) && k'.now >= k.now
    ensures forall q: Pid :: q < |k.pcb| ==> k'.pcb[q] == k.pcb[q].(startTm := k'.pcb[q].startTm)
  {
    if Proc(k, p).startTm != 0 then k
    else
      var k1 := Tick(k);
      SetProc(k1, p, Proc(k1, p).(startTm := k1.now % WORD))
      .(ledger := k1.ledger.(first := if p in k1.ledger.first then k1.ledger.first else k1.ledger.first[p := k1.now]))
  }

  /** `scheduler_run`: the head of the ready queue takes the processor. */
  function Run(k: State): State {
    var s := Queue(k, Ready);
    if s == [] then k
    else
      var p := s[0];
      var k1 := Activation(RemoveFromQueue(k, Ready, p).(current := Some(p)), p);
      StampSwitch(Tick(k1)).(cpu := Running(p, Proc(k1, p).ps))
  }

  function Dispatch(k: State): State {
    if Queue(k, Ready) == [] then k.(cpu := Idle) else Run(k)
  }

  function SaveContext(k: State, p: Pid, s: Context): (k': State)
    ensures k' == k.(pcb := k'.pcb)
    ensures |k'.pcb| == |k.pcb|
    ensures forall q: Pid :: q < |k.pcb| ==> k'.pcb[q] == k.pcb[q].(ps := k'.pcb[q].ps)
  {
    SetProc(k, p, Proc(k, p).(ps := s))
  }

  function Resume(k: State, sliceEnded: bool, s: Context): State {
    match k.current
    case None => Dispatch(k)
    case Some(p) =>
      var k1 := AccountTime(k, true);
      if !sliceEnded then k1.(cpu := Resumed(s))
      else Dispatch(EnqueueProcess(SaveContext(Aging(k1), p, s), p))
  }

  /** `scheduler_block_current` */
  function BlockCurrent(k: State, key: Key, s: Context): State {
    match k.current
    case None => k
    case Some(p) =>
      InsertBlocked(AccountTime(SaveContext(k, p, s), true), key, p).(current := None)
  }

  // ----- killing a process tree

  /** The n-th ancestor of `p`. */
  function Up(pcb: seq<Pcb>, p: Pid, n: nat): Option<Pid> {
    if n == 0 then Some(p)
    else match Up(pcb, p, n - 1)
         case None => None
         case Some(q) => if q < |pcb| then pcb[q].parent else None
  }

  ghost predicate Descends(pcb: seq<Pcb>, p: Pid, root: Pid) {
    exists n: nat :: Up(pcb, p, n) == Some(root)
  }

  ghost predicate ProperAncestor(pcb: seq<Pcb>, root: Pid, p: Pid) {
    exists n: nat :: n > 0 && Up(pcb, p, n) == Some(root)
  }

  type Children = map<Pid, seq<Pid>>

  function KidsOf(ch: Children, p: Pid): seq<Pid> {
    if p in ch then ch[p] else []
  }

  function RankOf(rank: seq<nat>, p: Pid): nat {
    if p < |rank| then rank[p] else 0
  }

  /** The subtree of `p`, every process after all of its children. */
  function Post(ch: Children, rank: seq<nat>, p: Pid): seq<Pid>
    decreases RankOf(rank, p), 1, 0
  {
    PostAll(ch, rank, KidsOf(ch, p), RankOf(rank, p)) + [p]
  }

  /** The subtrees of `cs` one after the other; the rank guard only serves termination. */
  function PostAll(ch: Children, rank: seq<nat>, cs: seq<Pid>, bound: nat): seq<Pid>
    decreases bound, 0, |cs|
  {
    if cs == [] then []
    else (if RankOf(rank, cs[0]) < bound then Post(ch, rank, cs[0]) else []) + PostAll(ch, rank, cs[1..], bound)
  }

  /** What `kill_tree` does to one process once its children are gone. */
  function Finish(k: State, p: Pid): State {
    ReleasePcb(RemoveFromQueue(FindAndRemoveBlocked(LeaveParent(k, p), p), Ready, p), p)
  }

  function FinishAll(k: State, ds: seq<Pid>): State
    decreases |ds|
  {
    if ds == [] then k else FinishAll(Finish(k, ds[0]), ds[1..])
  }

  function KillTree(k: State, p: Pid): State {
    FinishAll(k, Post(k.children, k.ledger.rank, p))
  }

  function KillProcess(k: State, p: Pid): State {
    KillTree(if k.current == Some(p) then k.(current := None) else k, p)
  }

  /** `scheduler_handle_exception`: pass up to the registered area or kill. */
  function HandleException(k: State, kind: nat, s: Context): State {
    match k.current
    case None => k
    case Some(p) =>
      var k1 := AccountTime(k, false);
      if Area(Proc(k1, p).newAreas, kind) != 0 then
        AccountTime(k1.(areas := k1.areas[Area(Proc(k1, p).oldAreas, kind) := s]), true)
        .(cpu := PassedUp(Area(Proc(k1, p).newAreas, kind)))
      else Resume(KillProcess(k1, p), false, ZERO_CONTEXT)
  }

  /** Entry `kind` of a PCB's exc_new_areas or exc_old_areas; 0 is NULL. */
  function Area(areas: map<nat, nat>, kind: nat): nat {
    if kind in areas then areas[kind] else 0
  }

  // ----- booting

  const DEFAULT_PRIORITY := 1

  function Down(n: nat): (r: seq<nat>)
    ensures |r| == n
    ensures forall x: nat :: x in r <==> x < n
  {
    if n == 0 then [] else [n - 1] + Down(n - 1)
  }

  function Repeat<T>(n: nat, x: T): (r: seq<T>)
    ensures |r| == n && forall i :: 0 <= i < n ==> r[i] == x
  {
    seq(n, _ => x)
  }

  /** `i` descriptors in the pool, none active. */
  function Pool(i: nat): map<SemdHead, seq<Semd>> {
    map[SemdFree := Down(i), Asl := []]
  }

  /** All `n` PCBs free and `i` empty semaphore queues. */
  function Heads(n: nat, i: nat): map<QueueHead, seq<Pid>> {
    var procQs := set s: nat | s in Down(i) :: ProcQ(s);
    map h | h in procQs + {PcbFree, Ready} :: if h == PcbFree then Down(n) else []
  }

  /** The static tables after `pcb_init` and `asl_init`, with `n` PCBs and descriptors. */
  function Tables(n: nat, words: map<Key, int>, delays: seq<nat>): State {
    State(Heads(n, n), map[], Pool(n), Repeat(n, ZERO_PCB), Repeat(n, None), None, 0, words, map[], Idle, 0, delays,
          Ledger(Repeat(n, 0), 1, Repeat(n, 0), 0, map[]))
  }

  /** `scheduler_init` and the first `scheduler_run`: one process with the given state runs. */
  function Boot(n: nat, start: Context, words: map<Key, int>, delays: seq<nat>): State {
    var k := Tables(n, words, delays);
    if n == 0 then k
    else
      var p := Queue(k, PcbFree)[0];
      var k1 := AllocPcb(k);
      Run(EnqueueProcess(SetProc(k1, p, Proc(k1, p).(ps := start, originalPriority := DEFAULT_PRIORITY)), p))
  }
}
