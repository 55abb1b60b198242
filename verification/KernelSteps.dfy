/**
 The kernel as a step system.  Every entry (system call, exception, interrupt) is
 one atomic step because the kernel's own areas run with interrupts disabled.
 */
module KernelSteps {
  import opened Arithmetic
  import opened Sequences
  import opened KernelState

  datatype Target = Umps | Uarm

  const WORD_SIZE := 4
  const SUCCESS := 0
  const FAILURE := -1

  datatype Call =
    | GetCpuTime
    | CreateProcess(start: Context, priority: int)
    | TerminateProcess(pid: Option<Pid>)
    | Verhogen(key: Key)
    | Passeren(key: Key)
    | WaitIo(dev: nat, reception: bool)
    | SpecPassUp(kind: nat, oldArea: nat, newArea: nat)
    | GetPid
    | OtherCall

  /** The status words of one device: `status` of a DTP device, both statuses of a terminal. */
  datatype Registers = Registers(status: nat, transmStatus: nat, recvStatus: nat)

  /** What the handler of one interrupt line finds: the pending bitmap and the registers. */
  datatype LineView = LineView(bitmap: nat, regs: seq<Registers>)

  function RegistersOf(v: LineView, i: nat): Registers {
    if i < |v.regs| then v.regs[i] else Registers(0, 0, 0)
  }

  datatype Entry =
    | Syscall(call: Call)
    | Breakpoint
    | Trap(kind: nat)
    | Interrupt(timer: bool, disk: Option<LineView>, tape: Option<LineView>, ethernet: Option<LineView>,
                printer: Option<LineView>, terminal: Option<LineView>)

  /** One kernel entry: why, with which saved processor state, and how the clock moves meanwhile. */
  datatype Event = Event(entry: Entry, saved: Context, delays: seq<nat>)

  // ----- src/interrupts.c

  const N_DEV_PER_IL := 8
  const IL_DISK := 3
  const IL_TAPE := 4
  const IL_ETHERNET := 5
  const IL_TERMINAL := 7
  const DEV_IL_START := 3
  const ST_TRANSMITTED := 5
  const TERM_STATUS_MASK := 0x100  // the low byte, as a modulus

  /** `interrupts_get_dev_key`, for the device with absolute index `dev`. */
  function DeviceKey(dev: nat, reception: bool): Key {
    var line := dev / N_DEV_PER_IL;
    Device(if DEV_IL_START + line < IL_TERMINAL || !reception then line else line + 1, dev % N_DEV_PER_IL)
  }

  function DeviceIndex(line: nat, i: nat): nat
    requires DEV_IL_START <= line
  {
    (line - DEV_IL_START) * N_DEV_PER_IL + i
  }

  /** An operation that has completed: the semaphore to signal and the status to report. */
  datatype Completion = Completion(key: Key, status: nat)

  function TermTx(line: nat, i: nat, r: Registers): seq<Completion>
    requires DEV_IL_START <= line
  {
    if r.transmStatus % TERM_STATUS_MASK == ST_TRANSMITTED
    then [Completion(DeviceKey(DeviceIndex(line, i), false), r.transmStatus)] else []
  }

  function TermRx(line: nat, i: nat, r: Registers): seq<Completion>
    requires DEV_IL_START <= line
  {
    if r.recvStatus % TERM_STATUS_MASK == ST_TRANSMITTED
    then [Completion(DeviceKey(DeviceIndex(line, i), true), r.recvStatus)] else []
  }

  /** The completions `handle_dtp` or `handle_term` find at one device. */
  function DeviceDone(line: nat, i: nat, r: Registers): seq<Completion>
    requires DEV_IL_START <= line
  {
    if line < IL_TERMINAL then [Completion(DeviceKey(DeviceIndex(line, i), false), r.status)]
    else TermTx(line, i, r) + TermRx(line, i, r)
  }

  /** Bit `i` of the bitmap says that device `i` of the line has a completion. */
  predicate BitSet(bitmap: nat, i: nat) {
    bitmap / Pow2(i) % 2 == 1
  }

  /** The completions of devices `i`..7 of one line. */
  function LineDoneFrom(line: nat, v: LineView, i: nat): seq<Completion>
    requires DEV_IL_START <= line
    decreases N_DEV_PER_IL - i
  {
    if i >= N_DEV_PER_IL then []
    else (if BitSet(v.bitmap, i) then DeviceDone(line, i, RegistersOf(v, i)) else [])
         + LineDoneFrom(line, v, i + 1)
  }

  function LineDone(line: nat, v: Option<LineView>): seq<Completion>
    requires DEV_IL_START <= line
  {
    match v
    case None => []
    case Some(view) => LineDoneFrom(line, view, 0)
  }

  /** All completions of one interrupt; a pending printer line reads the Ethernet devices. */
  function AllDone(e: Entry): seq<Completion>
    requires e.Interrupt?
  {
    LineDone(IL_DISK, e.disk) + LineDone(IL_TAPE, e.tape) + LineDone(IL_ETHERNET, e.ethernet)
    + LineDone(IL_ETHERNET, e.printer) + LineDone(IL_TERMINAL, e.terminal)
  }

  /** `unblock_process` */
  function Unblock(k: State, c: Completion): State {
    var s := Waiters(k, c.key);
    if s == [] then k
    else
      var k1 := EnqueueProcess(RemoveBlocked(k, c.key), s[0]);
      SaveContext(k1, s[0], Proc(k1, s[0]).ps.(ret := c.status))
  }

  function UnblockAll(k: State, cs: seq<Completion>): State
    decreases |cs|
  {
    if cs == [] then k else UnblockAll(Unblock(k, cs[0]), cs[1..])
  }

  /** Every completion finds a process waiting for it. */
  predicate AllAwaited(k: State, cs: seq<Completion>)
    decreases |cs|
  {
    cs == [] || (Waiters(k, cs[0].key) != [] && AllAwaited(Unblock(k, cs[0]), cs[1..]))
  }

  // ----- src/syscalls.c

  function Create(k: State, start: Context, priority: int): State {
    var free := Queue(k, PcbFree);
    if free == [] || k.current == None then k
    else
      var k1 := AllocPcb(k);
      var p := free[0];
      var k2 := SetProc(k1, p, Proc(k1, p).(ps := start, originalPriority := priority));
      InsertChild(EnqueueProcess(k2, p), k.current.value, p)
  }

  /** `verhogen` */
  function DoVerhogen(k: State, key: Key): State {
    var s := Waiters(k, key);
    if s != [] then EnqueueProcess(RemoveBlocked(k, key), s[0])
    else k.(words := k.words[key := Word(k, key) + 1])
  }

  /** `passeren` */
  function DoPasseren(k: State, key: Key, s: Context): State {
    if Word(k, key) != 0 then k.(words := k.words[key := Word(k, key) - 1]) else BlockCurrent(k, key, s)
  }

  function RegisterPassUp(k: State, p: Pid, kind: nat, oldArea: nat, newArea: nat): (k': State)
    ensures k' == k.(pcb := k'.pcb) && |k'.pcb| == |k.pcb|
    ensures forall q: Pid :: q < |k.pcb| ==>
              k'.pcb[q] == k.pcb[q].(newAreas := k'.pcb[q].newAreas, oldAreas := k'.pcb[q].oldAreas)
  {
    var x := Proc(k, p);
    SetProc(k, p, x.(newAreas := x.newAreas[kind := newArea], oldAreas := x.oldAreas[kind := oldArea]))
  }

  /** The process a TERMINATEPROCESS is about. */
  function Victim(k: State, pid: Option<Pid>): Pid
    requires k.current.Some?
  {
    if pid == None then k.current.value else pid.value
  }

  /** `terminate_process` */
  function Terminate(k: State, p: Pid): State {
    if p in Queue(k, PcbFree) then k else KillProcess(k, p)
  }

  /** `spec_pass_up`: a second registration is fatal. */
  function DoSpecPassUp(k: State, p: Pid, kind: nat, oldArea: nat, newArea: nat): State {
    if Area(Proc(k, p).newAreas, kind) != 0 then KillProcess(k, p) else RegisterPassUp(k, p, kind, oldArea, newArea)
  }

  /** What the cases of `syscall_handler` do before it calls `scheduler_resume`. */
  function Served(k: State, call: Call, s: Context): State
    requires k.current.Some?
  {
    var cur := k.current.value;
    match call
    case GetCpuTime => AccountTime(k, true)
    case CreateProcess(start, priority) => Create(k, start, priority)
    case TerminateProcess(pid) =>
      Terminate(k, Victim(k, pid))
    case Verhogen(key) => DoVerhogen(k, key)
    case Passeren(key) => DoPasseren(k, key, s)
    case WaitIo(dev, reception) => BlockCurrent(k, DeviceKey(dev, reception), s)
    case SpecPassUp(kind, oldArea, newArea) => DoSpecPassUp(k, cur, kind, oldArea, newArea)
    case GetPid => k
    case OtherCall => k
  }

  /** The saved state with the return register the caller gets. */
  function Answer(k: State, call: Call, s: Context): Context
    requires k.current.Some?
  {
    match call
    case CreateProcess(_, _) => s.(ret := if Queue(k, PcbFree) == [] then FAILURE else SUCCESS)
    case TerminateProcess(pid) => s.(ret := if Victim(k, pid) in Queue(k, PcbFree) then FAILURE else SUCCESS)
    case SpecPassUp(kind, _, _) =>
      s.(ret := if Area(Proc(k, k.current.value).newAreas, kind) != 0 then FAILURE else SUCCESS)
    case _ => s
  }

  /** `syscall_handler` after the time accounting, up to the `LDST` that ends it. */
  function DoSyscall(k: State, call: Call, s: Context): State {
    if k.current == None then k
    else if call.OtherCall? then HandleException(k, 0, s)
    else Resume(Served(k, call, s), false, Answer(k, call, s))
  }

  function SyscallContext(target: Target, s: Context): Context {
    if target == Umps then s.(pc := (s.pc + WORD_SIZE) % WORD) else s
  }

  function InterruptContext(target: Target, s: Context): Context {
    if target == Uarm then s.(pc := (s.pc - WORD_SIZE) % WORD) else s
  }

  function Step(target: Target, k: State, e: Event): State {
    var k0 := k.(delays := e.delays);
    match e.entry
    case Syscall(call) => DoSyscall(AccountTime(k0, false), call, SyscallContext(target, e.saved))
    case Breakpoint => Resume(AccountTime(k0, false), false, e.saved)
    case Trap(kind) => HandleException(k0, kind, e.saved)
    case Interrupt(timer, _, _, _, _, _) =>
      Resume(UnblockAll(AccountTime(k0, false), AllDone(e.entry)), timer, InterruptContext(target, e.saved))
  }

  // ----- runs

  /** What a running program and the devices may ask for, apart from whom it may terminate. */
  ghost predicate Possible(k: State, e: Event) {
    match e.entry
    case Syscall(call) =>
      k.current.Some?
      && (call.TerminateProcess? && call.pid.Some? ==> call.pid.value < |k.pcb|)
      && (call.SpecPassUp? ==> call.kind < 3)
    case Breakpoint => k.current.Some?
    case Trap(kind) => k.current.Some? && kind < 3
    case Interrupt(_, _, _, _, _, _) =>
      AllAwaited(AccountTime(k.(delays := e.delays), false), AllDone(e.entry))
  }

  /** The step asks to terminate a process that is a proper ancestor of the caller. */
  ghost predicate KillsOwnAncestor(k: State, e: Event) {
    && e.entry.Syscall? && e.entry.call.TerminateProcess? && e.entry.call.pid.Some?
    && k.current.Some?
    && ProperAncestor(k.pcb, e.entry.call.pid.value, k.current.value)
  }

  ghost predicate Enabled(k: State, e: Event) {
    Possible(k, e) && !KillsOwnAncestor(k, e)
  }

  function RunSteps(target: Target, k: State, es: seq<Event>): State
    decreases |es|
  {
    if es == [] then k else RunSteps(target, Step(target, k, es[0]), es[1..])
  }

  /** Every step of the run is enabled where it is taken. */
  ghost predicate EnabledRun(target: Target, k: State, es: seq<Event>)
    decreases |es|
  {
    es == [] || (Enabled(k, es[0]) && EnabledRun(target, Step(target, k, es[0]), es[1..]))
  }
}
