/**
 Which completions an interrupt handles, told from the pending bitmaps and the device
 registers alone: row by row of the semaphore table and device by device.
 */
module Completions {
  import opened Arithmetic
  import opened KernelState
  import opened KernelSteps
  import opened Invariants
  import opened KernelRuns
  import opened Wakeups

  /** Device `i` of a pending line has its bit set. */
  predicate Raised(v: Option<LineView>, i: nat) {
    v.Some? && i < 8 && v.value.bitmap / Pow2(i) % 2 == 1
  }

  function Regs(v: Option<LineView>, i: nat): Registers {
    if v.Some? && i < |v.value.regs| then v.value.regs[i] else Registers(0, 0, 0)
  }

  /**
   Device `i` reports `c`: rows 0 to 2 carry the status of disk, tape and network, the
   last also for a pending printer line; rows 4 and 5 carry a finished transmission and
   a finished reception of a terminal.
   */
  predicate Reports(e: Entry, i: nat, c: Completion)
    requires e.Interrupt?
  {
    || Finished(e.disk, 0, i, c) || Finished(e.tape, 1, i, c)
    || Finished(e.ethernet, 2, i, c) || Finished(e.printer, 2, i, c)
    || Sent(e.terminal, i, c) || Received(e.terminal, i, c)
  }

  /** Device `i` of a line before the terminals is done and reports its status. */
  predicate Finished(v: Option<LineView>, row: nat, i: nat, c: Completion) {
    Raised(v, i) && c == Completion(Device(row, i), Regs(v, i).status)
  }

  /** Terminal `i` has transmitted: the low byte of its transmission status is 5. */
  predicate Sent(v: Option<LineView>, i: nat, c: Completion) {
    var x := Regs(v, i).transmStatus;
    Raised(v, i) && x % 256 == 5 && c == Completion(Device(4, i), x)
  }

  /** Terminal `i` has received: the low byte of its reception status is 5. */
  predicate Received(v: Option<LineView>, i: nat, c: Completion) {
    var x := Regs(v, i).recvStatus;
    Raised(v, i) && x % 256 == 5 && c == Completion(Device(5, i), x)
  }

  lemma DeviceReports(line: nat, i: nat, r: Registers, c: Completion)
    requires 3 <= line <= 7 && i < 8
    ensures c in DeviceDone(line, i, r) <==>
              if line < 7 then c == Completion(Device(line - 3, i), r.status)
              else || (r.transmStatus % 256 == 5 && c == Completion(Device(4, i), r.transmStatus))
                   || (r.recvStatus % 256 == 5 && c == Completion(Device(5, i), r.recvStatus))
  {
    KeyOfLine(line, i, false);
    KeyOfLine(line, i, true);
    hide DeviceKey;
  }

  lemma {:induction false} LineReports(line: nat, v: LineView, i: nat, c: Completion)
    requires 3 <= line <= 7
    ensures c in LineDoneFrom(line, v, i) <==>
              exists j: nat :: i <= j < 8 && BitSet(v.bitmap, j) && c in DeviceDone(line, j, RegistersOf(v, j))
    decreases 8 - i
  {
    hide BitSet, DeviceDone;
    if i < 8 {
      LineReports(line, v, i + 1, c);
    }
  }

  lemma PlainDevice(row: nat, v: Option<LineView>, i: nat, c: Completion)
    requires row < 4 && v.Some? && i < 8
    ensures BitSet(v.value.bitmap, i) && c in DeviceDone(row + 3, i, RegistersOf(v.value, i)) <==>
              Finished(v, row, i, c)
  {
    hide DeviceDone;
    DeviceReports(row + 3, i, RegistersOf(v.value, i), c);
  }

  lemma TerminalDevice(v: Option<LineView>, i: nat, c: Completion)
    requires v.Some? && i < 8
    ensures BitSet(v.value.bitmap, i) && c in DeviceDone(7, i, RegistersOf(v.value, i)) <==>
              Sent(v, i, c) || Received(v, i, c)
  {
    hide DeviceDone;
    DeviceReports(7, i, RegistersOf(v.value, i), c);
  }

  lemma RaisedBelow(v: Option<LineView>, i: nat, row: nat, c: Completion)
    requires Finished(v, row, i, c) || Sent(v, i, c) || Received(v, i, c)
    ensures v.Some? && i < 8
  {
  }

  /** A line before the terminals reports the status of each device with its bit set. */
  lemma PlainLine(row: nat, v: Option<LineView>, c: Completion)
    requires row < 4
    ensures c in LineDone(row + 3, v) <==> exists i: nat :: Finished(v, row, i, c)
  {
    hide DeviceDone, BitSet, Finished;
    if v.Some? {
      LineReports(row + 3, v.value, 0, c);
      if c in LineDone(row + 3, v) {
        var i: nat :| i < 8 && BitSet(v.value.bitmap, i) && c in DeviceDone(row + 3, i, RegistersOf(v.value, i));
        PlainDevice(row, v, i, c);
      }
    }
    if i: nat :| Finished(v, row, i, c) {
      RaisedBelow(v, i, row, c);
      PlainDevice(row, v, i, c);
    }
  }

  /** The terminals report transmissions and receptions, each on its own row. */
  lemma TerminalLine(v: Option<LineView>, c: Completion)
    ensures c in LineDone(7, v) <==> exists i: nat :: Sent(v, i, c) || Received(v, i, c)
  {
    hide DeviceDone, BitSet, Sent, Received;
    if v.Some? {
      LineReports(7, v.value, 0, c);
      if c in LineDone(7, v) {
        var i: nat :| i < 8 && BitSet(v.value.bitmap, i) && c in DeviceDone(7, i, RegistersOf(v.value, i));
        TerminalDevice(v, i, c);
      }
    }
    if i: nat :| Sent(v, i, c) || Received(v, i, c) {
      RaisedBelow(v, i, 0, c);
      TerminalDevice(v, i, c);
    }
  }

  /** An interrupt handles exactly the completions its devices report. */
  lemma DoneExactly(e: Entry, c: Completion)
    requires e.Interrupt?
    ensures c in AllDone(e) <==> exists i: nat :: Reports(e, i, c)
  {
    hide LineDone, Finished, Sent, Received, AllDone;
    AllLines(e, c);
    PlainLine(0, e.disk, c);
    PlainLine(1, e.tape, c);
    PlainLine(2, e.ethernet, c);
    PlainLine(2, e.printer, c);
    TerminalLine(e.terminal, c);
    if c in AllDone(e) {
      SomeDevice(e, c);
    }
  }

  lemma AllLines(e: Entry, c: Completion)
    requires e.Interrupt?
    ensures c in AllDone(e) <==>
              || c in LineDone(3, e.disk) || c in LineDone(4, e.tape) || c in LineDone(5, e.ethernet)
              || c in LineDone(5, e.printer) || c in LineDone(7, e.terminal)
  {
    hide LineDone;
  }

  lemma SomeDevice(e: Entry, c: Completion)
    requires e.Interrupt?
    requires || (exists i: nat :: Finished(e.disk, 0, i, c)) || (exists i: nat :: Finished(e.tape, 1, i, c))
             || (exists i: nat :: Finished(e.ethernet, 2, i, c)) || (exists i: nat :: Finished(e.printer, 2, i, c))
             || (exists i: nat :: Sent(e.terminal, i, c) || Received(e.terminal, i, c))
    ensures exists i: nat :: Reports(e, i, c)
  {
    hide Finished, Sent, Received;
    if i: nat :| Finished(e.disk, 0, i, c) {
      assert Reports(e, i, c);
    } else if i: nat :| Finished(e.tape, 1, i, c) {
      assert Reports(e, i, c);
    } else if i: nat :| Finished(e.ethernet, 2, i, c) {
      assert Reports(e, i, c);
    } else if i: nat :| Finished(e.printer, 2, i, c) {
      assert Reports(e, i, c);
    } else {
      var i: nat :| Sent(e.terminal, i, c) || Received(e.terminal, i, c);
      assert Reports(e, i, c);
    }
  }

  /**
   What a device reports reaches a process that waits for it: it is ready or running
   with the reported status, and it is the first waiter unless the same network device
   was handled twice.
   */
  lemma ReportWakes(target: Target, k: State, e: Event, i: nat, c: Completion) returns (m: nat)
    requires KernelInv(k) && Enabled(k, e) && e.entry.Interrupt? && Reports(e.entry, i, c)
    ensures m < |Waiters(k, c.key)| && (e.entry.ethernet == None || e.entry.printer == None ==> m == 0)
    ensures var q, k' := Waiters(k, c.key)[m], Step(target, k, e);
            && q < |k.pcb| == |k'.pcb| && k'.pcb[q].ps == k.pcb[q].ps.(ret := c.status) && k'.pcb[q].semKey == None
            && (On(k'.queues, Ready, q) || k'.current == Some(q))
  {
    hide KernelInv, Step, Enabled, Reports, Waiters, AllDone;
    DoneExactly(e.entry, c);
    var j: nat :| j < |AllDone(e.entry)| && AllDone(e.entry)[j] == c;
    InterruptWakes(target, k, e, j);
    m := Earlier(AllDone(e.entry), j);
    if e.entry.ethernet == None || e.entry.printer == None {
      OncePerDevice(e.entry, j);
    }
  }
}
