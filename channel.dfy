/** The user-mode interrupt channel of kernel/irq/proc.c as the code keeps it: a
    struct irq_proc per open file, whose count the interrupt handler increments and
    the read drains, and the IRQ_DISABLED bit of its line, which the handler sets and
    read and poll clear. The handler, the wait loop, read and poll are proved against
    ChannelSpec; open and release are specified by their own postconditions. */
module Channel {
  import opened Kernel
  import opened Irq
  import opened ChannelSpec

  /** struct irq_proc: the state behind one open of /proc/irq/<irq>/irq. */
  class IrqProc {
    const irq: nat
    /** irq_desc + irq, the descriptor of the channel's line. */
    const desc: IrqDesc
    /** The name the handler was requested under: the opener's process name. */
    const devname: string
    /** The pending count (ip->count). */
    var count: nat
    /** Whether the handler is registered with request_irq and not yet freed. */
    var bound: bool
    /** Interrupts handled on this channel since it was opened. */
    ghost var notified: nat
    /** The sum of the counts that reads handed to user space. */
    ghost var drained: nat

    /** The channel's invariant: no count is lost or handed out twice. */
    ghost predicate Valid()
      reads this
    {
      desc.irq == irq && drained + count == notified
    }

    ghost function State(): ChanState
      reads this, desc
    {
      ChanState(count, desc.disabled)
    }

    constructor (desc: IrqDesc, devname: string)
      ensures this.desc == desc && irq == desc.irq && this.devname == devname
      ensures count == 0 && !bound && notified == 0 && drained == 0 && Valid()
    {
      this.desc := desc;
      irq := desc.irq;
      this.devname := devname;
      count := 0;
      bound := false;
      notified := 0;
      drained := 0;
    }

    /** irq_proc_irq_handler: called for each interrupt on the line while the handler
        is registered; it is a fatal error (BUG_ON) to be called for another line. */
    method Handler(irq: nat) returns (r: int)
      requires Valid() && bound && irq == this.irq
      modifies this`count, this`notified, desc`disabled
      ensures Valid() && r == IRQ_HANDLED
      ensures State() == Notify(old(State())) && notified == old(notified) + 1
    {
      desc.disabled := true;
      count := count + 1;
      notified := notified + 1;
      r := IRQ_HANDLED;
    }

    /** n interrupts arriving one after another while the caller waits. */
    method TakeInterrupts(n: nat)
      requires Valid() && bound
      modifies this`count, this`notified, desc`disabled
      ensures Valid() && State() == Deliver(old(State()), n) && notified == old(notified) + n
    {
      var k := 0;
      while k < n
        invariant 0 <= k <= n && Valid()
        invariant count == old(count) + k && notified == old(notified) + k
        invariant desc.disabled == (old(desc.disabled) || k > 0)
      {
        var _ := Handler(irq);
        k := k + 1;
      }
    }

    /** The `while (pending == 0)` loop of irq_proc_read, entered with nothing
        pending: each round reads the count and, finding it zero, sleeps (unless a
        signal is already pending); a pending signal then ends the loop. Returns how
        the loop ended, the last count it read, and the number of sleeps used. */
    method Wait(signalled: bool, wakes: seq<Wake>) returns (how: WaitHow, pending: nat, used: nat)
      requires Valid() && bound && count == 0
      modifies this`count, this`notified, desc`disabled
      ensures Valid() && bound
      ensures WaitLoop(old(State()), signalled, wakes, 0) == WaitEnd(how, State(), used, pending)
    {
      var sig := signalled;
      pending, used := 0, 0;
      while pending == 0
        invariant used <= |wakes| && Valid() && bound
        invariant sig ==> used == 0 && State() == old(State())
        invariant pending == 0 ==>
                    WaitLoop(State(), sig, wakes, used) == WaitLoop(old(State()), signalled, wakes, 0)
        invariant pending != 0 ==>
                    WaitLoop(old(State()), signalled, wakes, 0) == WaitEnd(Woken, State(), used, pending)
        decreases |wakes| - used, if pending == 0 then 1 else 0
      {
        pending := count;
        if pending == 0 && !sig {
          if used == |wakes| {
            return Asleep, 0, used;
          }
          TakeInterrupts(wakes[used].notifies);
          sig := wakes[used].signal;
          used := used + 1;
        }
        if sig {
          return Interrupted, 0, used;
        }
      }
      how := Woken;
    }
  }

  /** struct file, reduced to what the channel's file operations use. */
  class File {
    /** filp->private_data: the channel, once open succeeded. */
    var privateData: IrqProc?
    /** O_NONBLOCK in filp->f_flags. */
    const nonblock: bool
    /** The file position *ppos that read advances. */
    var pos: int

    constructor (nonblock: bool)
      ensures privateData == null && this.nonblock == nonblock && pos == 0
    {
      privateData := null;
      this.nonblock := nonblock;
      pos := 0;
    }
  }

  /** irq_proc_open: allocates the channel (allocOk says whether kmalloc succeeds),
      names it after the opening process and registers its handler on the line
      (requestResult is what request_irq returns: negative on failure). */
  method Open(filp: File, desc: IrqDesc, comm: string, allocOk: bool, requestResult: int)
    returns (ret: int)
    requires |comm| < TASK_COMM_LEN
    modifies filp`privateData
    ensures ret == (if !allocOk then -ENOMEM else if requestResult < 0 then requestResult else 0)
    ensures ret != 0 ==> filp.privateData == old(filp.privateData)
    ensures ret == 0 ==>
              filp.privateData != null && fresh(filp.privateData) &&
              filp.privateData.Valid() && filp.privateData.bound &&
              filp.privateData.desc == desc && filp.privateData.irq == desc.irq &&
              filp.privateData.devname == comm && filp.privateData.count == 0 &&
              filp.privateData.notified == 0 && filp.privateData.drained == 0
  {
    if !allocOk {
      return -ENOMEM;
    }
    var ip := new IrqProc(desc, comm);
    if requestResult < 0 {
      return requestResult;
    }
    ip.bound := true;
    filp.privateData := ip;
    return 0;
  }

  /** irq_proc_release: unregisters the handler, then forgets the channel. */
  method Release(filp: File) returns (ret: int)
    requires filp.privateData != null
    modifies filp`privateData, filp.privateData`bound
    ensures ret == 0 && filp.privateData == null && !old(filp.privateData).bound
  {
    filp.privateData.bound := false;
    filp.privateData := null;
    return 0;
  }

  /** irq_proc_read: len is the size of the user buffer, copyOk whether copy_to_user
      succeeds, signalled whether a signal is pending when the read starts, and wakes
      the sleeps the read may take. Returns the outcome, the count copied to user
      space, and the number of sleeps used. */
  method Read(filp: File, len: nat, copyOk: bool, signalled: bool, wakes: seq<Wake>)
    returns (res: ReadOutcome, copied: Option<nat>, used: nat)
    requires filp.privateData != null && filp.privateData.Valid() && filp.privateData.bound
    modifies filp`pos, filp.privateData`count, filp.privateData`notified
    modifies filp.privateData`drained, filp.privateData.desc`disabled
    ensures var e := ReadStep(old(filp.privateData.State()), len, filp.nonblock, copyOk, signalled, wakes);
            res == e.out && copied == e.value && used == e.used && filp.privateData.State() == e.state
    ensures filp.privateData.Valid() && filp.privateData.bound
    ensures filp.privateData.notified == old(filp.privateData.notified) + Arrived(wakes, 0, used)
    ensures filp.privateData.drained == old(filp.privateData.drained) + (if copied.Some? then copied.value else 0)
    ensures filp.pos == old(filp.pos) + (if copied.Some? then SIZEOF_INT else 0)
  {
    var ip := filp.privateData;
    var idp := ip.desc;
    if len < SIZEOF_INT {
      return Returned(-EINVAL), None, 0;
    }
    var pending := ip.count;
    if pending == 0 {
      if idp.disabled {
        idp.disabled := false;
      }
      if filp.nonblock {
        return Returned(-EWOULDBLOCK), None, 0;
      }
    }
    used := 0;
    if pending == 0 {
      var how;
      how, pending, used := ip.Wait(signalled, wakes);
      if how == Asleep {
        return Sleeping, None, used;
      }
      if how == Interrupted {
        return Returned(-ERESTARTSYS), None, used;
      }
    }
    if !copyOk {
      return Returned(-EFAULT), None, used;
    }
    filp.pos := filp.pos + SIZEOF_INT;
    ip.count := ip.count - pending;
    ip.drained := ip.drained + pending;
    return Returned(SIZEOF_INT), Some(pending), used;
  }

  /** irq_proc_poll: `arrivals` is the number of interrupts handled between the
      poll re-enabling the line and its second look at the count. */
  method Poll(filp: File, arrivals: nat) returns (mask: bv32)
    requires filp.privateData != null && filp.privateData.Valid() && filp.privateData.bound
    modifies filp.privateData`count, filp.privateData`notified, filp.privateData.desc`disabled
    ensures var e := PollStep(old(filp.privateData.State()), arrivals);
            mask == e.mask && filp.privateData.State() == e.state &&
            filp.privateData.notified == old(filp.privateData.notified) + e.handled
    ensures filp.privateData.Valid() && filp.privateData.bound
  {
    var ip := filp.privateData;
    var idp := ip.desc;
    if ip.count > 0 {
      return READABLE;
    }
    if idp.disabled {
      idp.disabled := false;
    }
    ip.TakeInterrupts(arrivals);
    if ip.count > 0 {
      return READABLE;
    }
    return 0;
  }

  /** A client run on line 7: open, three interrupts, a read that drains all three,
      a poll that finds nothing and re-enables the line, and close. */
  method Line7Scenario()
  {
    var desc := new IrqDesc(7);
    var filp := new File(false);
    var ret := Open(filp, desc, "irqd", true, 0);
    assert ret == 0;
    var ip := filp.privateData;
    var h := ip.Handler(7);
    h := ip.Handler(7);
    h := ip.Handler(7);
    assert desc.disabled && ip.count == 3;
    var res, copied, used := Read(filp, SIZEOF_INT, true, false, []);
    assert res == Returned(SIZEOF_INT) && copied == Some(3) && ip.count == 0;
    var mask := Poll(filp, 0);
    assert mask == 0 && !desc.disabled;
    ret := Release(filp);
    assert !ip.bound && filp.privateData == null;
  }
}
