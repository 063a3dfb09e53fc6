/** The kernel objects that kernel/irq/proc.c reads and writes: the per-line descriptor,
    the handler actions registered on a line, and the /proc/irq root directory. */
module Irq {
  import opened Kernel

  /** A directory that proc_mkdir created for a handler; only its name is modelled. */
  datatype ProcEntry = ProcEntry(name: string)

  /** struct irqaction, reduced to the fields the /proc code uses. */
  class Action {
    /** The handler's name; None stands for a NULL name. */
    const name: Option<string>
    /** The handler's /proc/irq/<irq>/<name> directory, if one was created. */
    var dir: Option<ProcEntry>

    constructor (name: Option<string>)
      ensures this.name == name && dir == None
    {
      this.name := name;
      dir := None;
    }
  }

  /** struct irq_desc, reduced to the state the /proc code touches. */
  class IrqDesc {
    const irq: nat
    /** The IRQ_DISABLED bit of the descriptor's status. */
    var disabled: bool
    /** The desc->action list, first action first. */
    var actions: seq<Action>
    /** Whether /proc/irq/<irq> exists (desc->dir is not NULL). */
    var dir: bool
    /** The names of the entries published inside /proc/irq/<irq>; procfs does not
        refuse a second entry with a name already present, hence a multiset. */
    var entries: multiset<string>

    constructor (irq: nat)
      ensures this.irq == irq && !disabled && actions == [] && !dir && entries == multiset{}
    {
      this.irq := irq;
      disabled := false;
      actions := [];
      dir := false;
      entries := multiset{};
    }
  }

  /** The /proc/irq directory itself (root_irq_dir). */
  class ProcRoot {
    var irqDir: bool

    constructor ()
      ensures !irqDir
    {
      irqDir := false;
    }
  }
}
