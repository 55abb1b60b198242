/** From a device register to its semaphore: `interrupts_get_dev_key`. */
module Devices {
  import opened KernelState
  import opened KernelSteps

  const DEV_REG_SIZE := 16

  function DevRegStart(target: Target): nat {
    if target == Umps then 0x1000_0050 else 0x40
  }

  /** `TERM_0_ADDR` */
  function Term0Addr(target: Target): nat {
    if target == Umps then 0x1000_0250 else 0x240
  }

  /** `DEV_REG_ADDR` */
  function DevRegAddr(target: Target, line: nat, dev: nat): nat
    requires DEV_IL_START <= line
  {
    DevRegStart(target) + (line - DEV_IL_START) * N_DEV_PER_IL * DEV_REG_SIZE + dev * DEV_REG_SIZE
  }

  /** The index computed from an address, in 32-bit unsigned arithmetic. */
  function AbsIndex(target: Target, reg: nat): nat {
    (reg - DevRegStart(target)) % WORD / DEV_REG_SIZE
  }

  predicate IsTerminal(target: Target, reg: nat) {
    reg >= Term0Addr(target)
  }

  predicate IsDevice(line: nat, dev: nat) {
    DEV_IL_START <= line <= IL_TERMINAL && dev < N_DEV_PER_IL
  }

  /** The address computation inverts `DEV_REG_ADDR`, and the terminals are the last line. */
  lemma RegisterIndex(target: Target, line: nat, dev: nat)
    requires IsDevice(line, dev)
    ensures var reg := DevRegAddr(target, line, dev);
            AbsIndex(target, reg) == DeviceIndex(line, dev) && (IsTerminal(target, reg) <==> line == IL_TERMINAL)
  {
  }

  lemma IndexSplits(line: nat, dev: nat)
    requires IsDevice(line, dev)
    ensures DeviceIndex(line, dev) / N_DEV_PER_IL == line - DEV_IL_START && DeviceIndex(line, dev) % N_DEV_PER_IL == dev
  {
  }

  /**
   Every device register, and each side of a terminal, has a semaphore of its own
   inside the table of six rows of eight; outside terminals the side is ignored.
   */
  lemma KeysApart(target: Target, line: nat, dev: nat, rcpt: bool, line': nat, dev': nat, rcpt': bool)
    requires IsDevice(line, dev) && IsDevice(line', dev')
    ensures var key := DeviceKey(AbsIndex(target, DevRegAddr(target, line, dev)), rcpt);
            var key' := DeviceKey(AbsIndex(target, DevRegAddr(target, line', dev')), rcpt');
            && key.Device? && key.row < 6 && key.col < N_DEV_PER_IL
            && (key == key' <==> line == line' && dev == dev' && (line == IL_TERMINAL ==> rcpt == rcpt'))
  {
    RegisterIndex(target, line, dev);
    RegisterIndex(target, line', dev');
    IndexSplits(line, dev);
    IndexSplits(line', dev');
  }

  /** Every cell of the table belongs to some device. */
  lemma KeysOnto(target: Target, row: nat, col: nat) returns (line: nat, rcpt: bool)
    requires row < 6 && col < N_DEV_PER_IL
    ensures IsDevice(line, col) && DeviceKey(AbsIndex(target, DevRegAddr(target, line, col)), rcpt) == Device(row, col)
  {
    line, rcpt := if row < 5 then DEV_IL_START + row else IL_TERMINAL, row == 5;
    RegisterIndex(target, line, col);
    IndexSplits(line, col);
  }
}
