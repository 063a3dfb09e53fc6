/** The user-mode interrupt channel of kernel/irq/proc.c as a sequential specification.
    A channel is what one open() of /proc/irq/<irq>/irq creates; user space sees its
    pending count and the IRQ_DISABLED bit of its line. Waiting is modelled by a
    sequence of Wake values, one for each time the reader sleeps in schedule(). */
module ChannelSpec {
  import opened Kernel

  /** The channel's pending count (ip->count) and whether its line is disabled. */
  datatype ChanState = ChanState(count: nat, disabled: bool)

  /** What one sleep of a blocked reader brings: the number of interrupts the handler
      took meanwhile, and whether a signal was delivered to the reader. */
  datatype Wake = Wake(notifies: nat, signal: bool)

  /** How the wait loop of a read ended: the count became nonzero, a signal was
      pending, or the reader is still asleep when the supplied sleeps run out. */
  datatype WaitHow = Woken | Interrupted | Asleep

  /** The end of the wait loop: how it ended, the channel then, the number of sleeps
      it used, and the last value it read from the count (the local `pending`). */
  datatype WaitEnd = WaitEnd(how: WaitHow, state: ChanState, used: nat, pending: nat)

  /** A read either returns a value to user space or is still blocked. */
  datatype ReadOutcome = Returned(ret: int) | Sleeping

  /** The end of a read: its outcome, the count copied to user space (if any), the
      number of sleeps used, and the channel afterwards. */
  datatype ReadEnd = ReadEnd(out: ReadOutcome, value: Option<nat>, used: nat, state: ChanState)

  /** The end of a poll: the event mask, the channel afterwards, and the number of
      interrupts handled after the poll re-enabled the line. */
  datatype PollEnd = PollEnd(mask: bv32, state: ChanState, handled: nat)

  /** The mask poll returns for a readable channel, POLLIN | POLLRDNORM. */
  const READABLE: bv32 := POLLIN | POLLRDNORM

  /** One call of the interrupt handler: the line is disabled, the count goes up. */
  function Notify(s: ChanState): ChanState
  {
    ChanState(s.count + 1, true)
  }

  /** enable_irq on a disabled line; on an enabled line the code calls nothing, and
      both leave the line enabled. */
  function Enable(s: ChanState): ChanState
  {
    s.(disabled := false)
  }

  /** n calls of the interrupt handler, one after another. */
  function Deliver(s: ChanState, n: nat): (t: ChanState)
    ensures t.count == s.count + n
    ensures t.disabled == (s.disabled || n > 0)
    decreases n
  {
    if n == 0 then s else Deliver(Notify(s), n - 1)
  }

  /** The number of interrupts handled during the sleeps wakes[i..j]. */
  function Arrived(wakes: seq<Wake>, i: nat, j: nat): nat
    requires i <= j <= |wakes|
    decreases j - i
  {
    if i == j then 0 else wakes[i].notifies + Arrived(wakes, i + 1, j)
  }

  /** The `while (pending == 0)` loop of the read, from the top of an iteration:
      s is the channel, sig whether a signal is pending for the reader, and wakes[i..]
      the sleeps still to come. An iteration reads the count; if it is zero the
      reader sleeps (unless a signal is already pending, when schedule() returns at
      once); then a pending signal ends the loop; a nonzero count read at the top
      ends it too. */
  function WaitLoop(s: ChanState, sig: bool, wakes: seq<Wake>, i: nat): (r: WaitEnd)
    requires i <= |wakes|
    ensures i <= r.used <= |wakes|
    ensures r.state.count == s.count + Arrived(wakes, i, r.used)
    ensures r.state.disabled == (s.disabled || Arrived(wakes, i, r.used) > 0)
    ensures r.how == Woken ==> r.pending == r.state.count && r.pending > 0
    ensures r.how == Asleep ==> r.used == |wakes| && !sig && r.state == s
    ensures r.how == Interrupted ==> sig || (i < r.used && wakes[r.used - 1].signal)
    // A signal pending at the top ends the loop with no sleep; so does a nonzero count.
    ensures sig ==> r.how == Interrupted && r.used == i
    ensures s.count > 0 ==> r.used == i
    ensures s.count > 0 && !sig ==> r.how == Woken
    // Otherwise the loop sleeps at least once and stops at the first sleep that brings
    // an interrupt or a signal: every sleep before it brought neither, and the last one
    // ends the loop as a wake-up exactly when it brought interrupts and no signal.
    ensures !sig && s.count == 0 && r.how != Asleep ==> i < r.used
    ensures forall k :: i <= k < r.used - 1 ==> wakes[k].notifies == 0 && !wakes[k].signal
    ensures i < r.used && wakes[r.used - 1].signal ==> r.how == Interrupted
    ensures !sig && s.count == 0 && i < r.used ==>
              (r.how == Woken <==> wakes[r.used - 1].notifies > 0 && !wakes[r.used - 1].signal)
    decreases |wakes| - i
  {
    if s.count > 0 then
      WaitEnd(if sig then Interrupted else Woken, s, i, s.count)
    else if sig then
      WaitEnd(Interrupted, s, i, 0)
    else if i == |wakes| then
      WaitEnd(Asleep, s, i, 0)
    else
      var t := Deliver(s, wakes[i].notifies);
      if wakes[i].signal then WaitEnd(Interrupted, t, i + 1, 0)
      else WaitLoop(t, false, wakes, i + 1)
  }

  /** irq_proc_read on a channel in state s, with a user buffer of len bytes, the
      file's O_NONBLOCK flag, whether copy_to_user succeeds, whether a signal is
      pending when the read starts, and the sleeps the read may take. */
  function ReadStep(s: ChanState, len: nat, nonblock: bool, copyOk: bool, signalled: bool,
                    wakes: seq<Wake>): (r: ReadEnd)
    ensures r.used <= |wakes|
    // A successful read returns sizeof(int) and copies a positive count; the count it
    // drains plus the count left equals the count before plus the interrupts taken.
    ensures r.value.Some? <==> r.out == Returned(SIZEOF_INT)
    ensures r.value.Some? ==> r.value.value >= 1
    ensures r.value.Some? ==> r.state.count + r.value.value == s.count + Arrived(wakes, 0, r.used)
    ensures r.value.None? ==> r.state.count == s.count + Arrived(wakes, 0, r.used)
    ensures r.value.Some? ==> r.state.count == 0
    // Nothing is handed over when copy_to_user fails.
    ensures !copyOk ==> r.value.None?
    // Too small a buffer: -EINVAL and nothing changes.
    ensures len < SIZEOF_INT ==> r == ReadEnd(Returned(-EINVAL), None, 0, s)
    // Nothing pending: the line is enabled before anything else; a non-blocking read
    // then fails with -EWOULDBLOCK.
    ensures len >= SIZEOF_INT && s.count == 0 ==> (r.state.disabled <==> Arrived(wakes, 0, r.used) > 0)
    ensures len >= SIZEOF_INT && s.count == 0 && nonblock ==>
              r == ReadEnd(Returned(-EWOULDBLOCK), None, 0, ChanState(0, false))
    // Something pending: no sleep; the whole count is handed over, or -EFAULT leaves it.
    ensures len >= SIZEOF_INT && s.count > 0 ==>
              r.used == 0 && r.state.disabled == s.disabled &&
              r.out == Returned(if copyOk then SIZEOF_INT else -EFAULT) &&
              r.state.count == (if copyOk then 0 else s.count)
    // A blocking read on an idle channel with a signal already pending fails at once.
    ensures len >= SIZEOF_INT && s.count == 0 && !nonblock && signalled ==>
              r == ReadEnd(Returned(-ERESTARTSYS), None, 0, Enable(s))
    // Otherwise it sleeps until the first sleep that brings an interrupt or a signal:
    // a signal then wins over any interrupts that came with it, and interrupts alone
    // end the wait, after which the count is copied or -EFAULT returned.
    ensures len >= SIZEOF_INT && s.count == 0 && !nonblock ==>
              forall k :: 0 <= k < r.used - 1 ==> wakes[k].notifies == 0 && !wakes[k].signal
    ensures len >= SIZEOF_INT && s.count == 0 && !nonblock && 0 < r.used && wakes[r.used - 1].signal ==>
              r.out == Returned(-ERESTARTSYS)
    ensures len >= SIZEOF_INT && s.count == 0 && !nonblock && !signalled && 0 < r.used &&
            wakes[r.used - 1].notifies > 0 && !wakes[r.used - 1].signal ==>
              r.out == Returned(if copyOk then SIZEOF_INT else -EFAULT)
    ensures len >= SIZEOF_INT && s.count == 0 && !nonblock && !signalled && r.out != Sleeping ==> 0 < r.used
    // A sleep that brings neither an interrupt nor a signal never ends a blocking read,
    // and -EFAULT comes only from a failed copy.
    ensures len >= SIZEOF_INT && s.count == 0 && !nonblock && !signalled && r.out.Returned? ==>
              0 < r.used && wakes[r.used - 1] != Wake(0, false)
    ensures r.out == Returned(-EFAULT) ==> !copyOk
    // -ERESTARTSYS only when a signal was pending, and a read still asleep has used every
    // sleep, found no interrupt and saw no signal.
    ensures r.out == Returned(-ERESTARTSYS) ==> signalled || (0 < r.used && wakes[r.used - 1].signal)
    ensures r.out == Sleeping ==>
              !nonblock && !signalled && r.used == |wakes| && s.count == 0 && r.state == ChanState(0, false)
    ensures r.out.Returned? ==>
              r.out.ret in {SIZEOF_INT, -EINVAL, -EWOULDBLOCK, -ERESTARTSYS, -EFAULT}
  {
    if len < SIZEOF_INT then
      ReadEnd(Returned(-EINVAL), None, 0, s)
    else if s.count == 0 && nonblock then
      ReadEnd(Returned(-EWOULDBLOCK), None, 0, Enable(s))
    else
      var w := if s.count == 0 then WaitLoop(Enable(s), signalled, wakes, 0)
               else WaitEnd(Woken, s, 0, s.count);
      match w.how
      case Asleep => ReadEnd(Sleeping, None, w.used, w.state)
      case Interrupted => ReadEnd(Returned(-ERESTARTSYS), None, w.used, w.state)
      case Woken =>
        if !copyOk then ReadEnd(Returned(-EFAULT), None, w.used, w.state)
        else ReadEnd(Returned(SIZEOF_INT), Some(w.pending),
                     w.used, w.state.(count := w.state.count - w.pending))
  }

  /** irq_proc_poll on a channel in state s; `arrivals` is the number of interrupts
      handled between re-enabling the line and the second look at the count. */
  function PollStep(s: ChanState, arrivals: nat): (r: PollEnd)
    ensures r.mask == READABLE <==> r.state.count > 0
    ensures r.mask == READABLE || r.mask == 0
    ensures r.state.count == s.count + r.handled
    ensures s.count > 0 ==> r.state == s && r.handled == 0
    ensures s.count == 0 ==> r.handled == arrivals && (r.state.disabled <==> arrivals > 0)
  {
    if s.count > 0 then
      PollEnd(READABLE, s, 0)
    else
      var t := Deliver(Enable(s), arrivals);
      PollEnd(if t.count > 0 then READABLE else 0, t, arrivals)
  }

  /** What one process can do on an open channel, in sequence: an interrupt comes in,
      a read, or a poll. */
  datatype Op =
    | Interrupt
    | Read(len: nat, nonblock: bool, copyOk: bool, signalled: bool, wakes: seq<Wake>)
    | Poll(arrivals: nat)

  /** The end of a run: the channel, the number of interrupts handled, the sum of the
      counts handed to user space, and the counts themselves, in order. */
  datatype RunEnd = RunEnd(state: ChanState, notified: nat, drained: nat, values: seq<nat>)

  function Sum(xs: seq<nat>): nat
  {
    if xs == [] then 0 else xs[0] + Sum(xs[1..])
  }

  /** Runs ops from state s. A read still asleep when its sleeps run out blocks the
      process, so the run ends there. */
  function Run(s: ChanState, ops: seq<Op>): RunEnd
    decreases |ops|
  {
    if ops == [] then RunEnd(s, 0, 0, [])
    else match ops[0]
      case Interrupt =>
        var r := Run(Notify(s), ops[1..]);
        r.(notified := r.notified + 1)
      case Read(len, nonblock, copyOk, signalled, wakes) =>
        var e := ReadStep(s, len, nonblock, copyOk, signalled, wakes);
        var arrived := Arrived(wakes, 0, e.used);
        if e.out == Sleeping then RunEnd(e.state, arrived, 0, [])
        else
          var r := Run(e.state, ops[1..]);
          (match e.value
           case None => r.(notified := r.notified + arrived)
           case Some(v) => RunEnd(r.state, r.notified + arrived, r.drained + v, [v] + r.values))
      case Poll(arrivals) =>
        var e := PollStep(s, arrivals);
        var r := Run(e.state, ops[1..]);
        r.(notified := r.notified + e.handled)
  }

  /** Across any sequence of interrupts, reads and polls no count is lost or handed out
      twice: what the reads drained plus what is still pending equals what was pending
      at the start plus the interrupts handled; every count handed out is positive and
      the drained total is their sum. */
  lemma {:induction false} Conservation(s: ChanState, ops: seq<Op>)
    ensures Run(s, ops).drained + Run(s, ops).state.count == s.count + Run(s, ops).notified
    ensures Run(s, ops).drained == Sum(Run(s, ops).values)
    ensures forall k :: 0 <= k < |Run(s, ops).values| ==> Run(s, ops).values[k] >= 1
    decreases |ops|
  {
    if ops != [] {
      match ops[0]
      case Interrupt =>
        Conservation(Notify(s), ops[1..]);
      case Read(len, nonblock, copyOk, signalled, wakes) =>
        var e := ReadStep(s, len, nonblock, copyOk, signalled, wakes);
        if e.out != Sleeping {
          Conservation(e.state, ops[1..]);
          var r := Run(e.state, ops[1..]);
          if e.value.Some? {
            assert ([e.value.value] + r.values)[1..] == r.values;
          }
        }
      case Poll(arrivals) =>
        Conservation(PollStep(s, arrivals).state, ops[1..]);
    }
  }

  /** Sleeps that bring neither an interrupt nor a signal. */
  predicate Empty(wakes: seq<Wake>)
  {
    forall k :: 0 <= k < |wakes| ==> wakes[k] == Wake(0, false)
  }

  /** A waiting reader on an idle channel goes back to sleep after every empty sleep:
      the wait loop after the empty sleeps wakes[i..j] is the wait loop before them. */
  lemma {:induction false} SkipEmptySleeps(s: ChanState, wakes: seq<Wake>, i: nat, j: nat)
    requires s.count == 0 && i <= j <= |wakes| && Empty(wakes[i..j])
    ensures WaitLoop(s, false, wakes, i) == WaitLoop(s, false, wakes, j)
    decreases j - i
  {
    if i < j {
      assert wakes[i] == wakes[i..j][0];
      assert Deliver(s, 0) == s;
      assert wakes[i + 1..j] == wakes[i..j][1..];
      SkipEmptySleeps(s, wakes, i + 1, j);
    }
  }

  /** A blocking read on an idle channel sleeps through any number of empty sleeps and
      returns after the first sleep that brings n >= 1 interrupts, with the count n. */
  lemma BlockingReadWakesOnNotify(disabled: bool, len: nat, empty: seq<Wake>, n: nat, rest: seq<Wake>)
    requires len >= SIZEOF_INT && n >= 1 && Empty(empty)
    ensures ReadStep(ChanState(0, disabled), len, false, true, false, empty + [Wake(n, false)] + rest)
            == ReadEnd(Returned(SIZEOF_INT), Some(n), |empty| + 1, ChanState(0, true))
  {
    var wakes := empty + [Wake(n, false)] + rest;
    var k := |empty|;
    assert wakes[0..k] == empty;
    assert wakes[k] == Wake(n, false);
    SkipEmptySleeps(ChanState(0, false), wakes, 0, k);
    var t := Deliver(ChanState(0, false), n);
    assert WaitLoop(ChanState(0, false), false, wakes, k) == WaitLoop(t, false, wakes, k + 1);
    assert WaitLoop(t, false, wakes, k + 1) == WaitEnd(Woken, ChanState(n, true), k + 1, n);
  }

  /** A signal wins over interrupts: pending when the read starts, it fails the read at
      once; delivered by a sleep after any number of empty ones, it fails the read with
      -ERESTARTSYS and the n interrupts that came with it stay pending. */
  lemma SignalBeatsArrival(disabled: bool, len: nat, copyOk: bool, empty: seq<Wake>, n: nat, rest: seq<Wake>)
    requires len >= SIZEOF_INT && Empty(empty)
    ensures ReadStep(ChanState(0, disabled), len, false, copyOk, true, empty + [Wake(n, true)] + rest)
            == ReadEnd(Returned(-ERESTARTSYS), None, 0, ChanState(0, false))
    ensures ReadStep(ChanState(0, disabled), len, false, copyOk, false, empty + [Wake(n, true)] + rest)
            == ReadEnd(Returned(-ERESTARTSYS), None, |empty| + 1, ChanState(n, n > 0))
  {
    var wakes := empty + [Wake(n, true)] + rest;
    var k := |empty|;
    assert wakes[0..k] == empty;
    assert wakes[k] == Wake(n, true);
    SkipEmptySleeps(ChanState(0, false), wakes, 0, k);
  }
}
