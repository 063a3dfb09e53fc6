# /proc/irq: user-mode interrupt channels, IRQ affinity and handler directories

This project models `kernel/irq/proc.c` of a modified ARM Linux 2.6 kernel. The file
publishes the `/proc/irq` tree. With it, user space can:

- **wait for interrupts.** Opening `/proc/irq/<irq>/irq` registers a handler on the
  line. The handler disables the line and counts the interrupt. `read` hands the
  count to user space: it re-enables an idle line, blocks unless `O_NONBLOCK`, and
  drains the count it observed. `poll` reports whether a count is pending and
  re-enables the line.
- **steer interrupts.** `/proc/irq/<irq>/smp_affinity` shows and sets the CPUs that
  may service the line. A mask that names no online CPU is never applied.
- **see handler names.** Each named handler gets a directory
  `/proc/irq/<irq>/<name>`, but only when no other handler on the line has the
  same name.

The modules follow the file's three parts:

- `ChannelSpec` (channel_spec.dfy): the channel as a pure specification. The state
  is the pending count and the line's `IRQ_DISABLED` bit. Reading, polling and
  waiting are step functions. Waiting consumes a list of `Wake` values. Each one
  says what happened while the reader slept: how many interrupts the handler took,
  and whether a signal arrived. The lemma `Conservation` covers every sequence of
  interrupts, reads and polls. In every such sequence, the counts handed to user
  space plus the count still pending equal the starting count plus the interrupts
  handled.
- `Channel` (channel.dfy): the same channel as the code keeps it. `struct irq_proc`
  becomes the class `IrqProc` and `struct file` becomes `File`. The handler, read,
  poll, open and release are methods that change these objects in place. The
  handler, the wait loop, read and poll are proved against `ChannelSpec`; open and
  release are specified by their own postconditions. The ghost counters of
  `IrqProc` keep the conservation invariant `drained + count == notified` in
  `IrqProc.Valid()`.
- `Affinity` (affinity.dfy): the read and write handlers of `smp_affinity`, as
  functions from flags and CPU sets to a return value and an effect on the line.
- `HandlerProc` (handler_proc.dfy): `name_unique`, creation and removal of handler
  directories, `register_irq_proc` and `init_irq_proc`. The state is the classes
  of `Irq` (irq.dfy). `Kernel` (kernel.dfy) holds the error numbers and the other
  constants of the kernel headers.

Foreign calls are parameters: `kmalloc`, `request_irq`, `copy_to_user`,
`proc_mkdir`, `create_proc_entry`, `cpumask_parse_user`, `cpumask_scnprintf`,
`is_affinity_mask_valid` and `select_smp_affinity`. So are the signal state and
the interrupts that arrive while a process waits.

Some behaviour of the code is easy to miss:

- `poll` looks at the count a second time after re-enabling the line. An
  interrupt taken in between makes it report the channel as readable.
- `open` leaves the line's state to `request_irq`.
- A clashing handler name is not reported as an error. `register_handler_proc`
  returns nothing and simply creates no directory.
- Only a NULL name escapes the uniqueness check. Empty names are compared like any
  other.
- A write of a mask with no online CPU succeeds when `select_smp_affinity`
  succeeds, even though the requested mask is not applied.

## Model

| member | source | states |
|---|---|---|
| `Channel.IrqProc.Handler` | kernel/irq/proc.c:126-138 | The handler leaves the line disabled, raises the count by exactly one and returns IRQ_HANDLED. Nothing else changes, and the conservation invariant is kept. A call for another line is excluded, as BUG_ON does. |
| `Channel.IrqProc.TakeInterrupts` | kernel/irq/proc.c:126-138 | n interrupts in a row raise the count by n and leave the line disabled when n > 0. The invariant is kept. |
| `Channel.IrqProc.constructor` | kernel/irq/proc.c:193-197 | A new channel has count 0, carries the opener's name and the line's number, and is valid. |
| `Channel.IrqProc.Wait` | kernel/irq/proc.c:163-171 | The wait loop ends exactly as `WaitLoop` says. The new channel state, the last count read and the number of sleeps used all agree with it. |
| `Channel.Read` | kernel/irq/proc.c:144-180 | The outcome, the copied count, the new count and line state are those of `ReadStep`. The file position advances by sizeof(int) exactly when a count is copied. The drained total grows by that count, and conservation is kept. |
| `Channel.Poll` | kernel/irq/proc.c:223-241 | The mask and the new channel state are those of `PollStep`, and conservation is kept. |
| `Channel.Open` | kernel/irq/proc.c:183-211 | Returns -ENOMEM if allocation fails, the request_irq error if it is negative, and 0 otherwise. Only on success does the file get a fresh, bound, valid channel with count 0 named after the opener. |
| `Channel.Release` | kernel/irq/proc.c:213-221 | Returns 0, unbinds the handler and clears private_data. |
| `ChannelSpec.Deliver` | kernel/irq/proc.c:131-137 | n handler calls raise the count by n and leave the line disabled exactly when it was disabled or n > 0. |
| `ChannelSpec.WaitLoop` | kernel/irq/proc.c:163-171 | A signal pending at the top ends the loop as interrupted without a sleep, and a nonzero count with no signal ends it as woken without a sleep. Otherwise the loop sleeps at least once and stops at the first sleep that brings interrupts or a signal: every earlier sleep brought neither. A signal on the last sleep means interrupted, and the loop is woken exactly when that sleep brought interrupts and no signal. An interrupted loop saw a signal. A woken loop has read a positive count and that is its `pending`. A loop still asleep used every sleep, saw no signal and changed nothing. The count afterwards is the count before plus the interrupts of the sleeps used. |
| `ChannelSpec.ReadStep` | kernel/irq/proc.c:144-180 | A buffer smaller than sizeof(int) gives -EINVAL with nothing changed. With nothing pending, the line is re-enabled, and a non-blocking read gives -EWOULDBLOCK. With a count pending, the whole count is handed over without sleeping, or -EFAULT leaves it pending. A blocking read on an idle channel with a signal pending fails at once with -ERESTARTSYS. Otherwise it stops at the first sleep that brings interrupts or a signal. A signal on that sleep gives -ERESTARTSYS even when interrupts came with it. Interrupts alone give sizeof(int), or -EFAULT when the copy fails. A sleep that brings neither never ends the read. -EFAULT comes only from a failed copy, and a failed copy never hands a count over. Success returns sizeof(int) with a count ≥ 1 and leaves the count 0. The count drops by exactly what is handed over, and any other outcome drains nothing. -ERESTARTSYS needs a pending signal. |
| `ChannelSpec.PollStep` | kernel/irq/proc.c:223-241 | Returns POLLIN\|POLLRDNORM exactly when a count is pending afterwards, and 0 otherwise. A pending count changes nothing. With no count, the line is enabled unless an interrupt came in after the re-enable. |
| `ChannelSpec.Conservation` | kernel/irq/proc.c:126-180 | Over any sequence of interrupts, reads and polls, drained + pending = initial count + interrupts handled. Every count handed out is ≥ 1, and the drained total is their sum. |
| `ChannelSpec.SkipEmptySleeps` | kernel/irq/proc.c:163-171 | On an idle channel with no signal pending, a sleep that brings neither an interrupt nor a signal sends the reader back to sleep: the wait loop after any run of empty sleeps ends as it would have before them. |
| `ChannelSpec.BlockingReadWakesOnNotify` | kernel/irq/proc.c:155-179 | A blocking read on an idle channel sleeps through any number of empty sleeps. It returns sizeof(int) after the first sleep that brings n ≥ 1 interrupts. It delivers n and leaves count 0 with the line disabled. |
| `ChannelSpec.SignalBeatsArrival` | kernel/irq/proc.c:155-171 | A blocking read on an idle channel with a signal pending at entry fails with -ERESTARTSYS without sleeping. A signal delivered by a sleep, after any number of empty sleeps, fails the read with -ERESTARTSYS too. The n interrupts that came with it stay pending. |
| `Affinity.AffinityRead` | kernel/irq/proc.c:20-37 | Fails with -EINVAL exactly when the mask's text leaves fewer than 2 bytes free. Otherwise the page is that text plus a newline, the return value is its length, and it is less than the room given. |
| `Affinity.AffinityWrite` | kernel/irq/proc.c:44-75 | The checks run in order: -EIO (no set_affinity, no_irq_affinity, balancing disabled), then the parse error, then -EINVAL for an invalid mask. A mask with no online CPU is never applied: the default is selected, and the result is -EINVAL or the byte count. The mask is applied exactly when every check passes and it names an online CPU, and then the byte count is returned. |
| `HandlerProc.DirName` | kernel/irq/proc.c:108-109 | A handler directory's name is a prefix of the handler's name. It is the whole name when the name is shorter than MAX_NAMELEN, and otherwise exactly its first MAX_NAMELEN - 1 characters. |
| `HandlerProc.NameUnique` | kernel/irq/proc.c:81-98 | Returns 0 or 1. It returns 0 exactly when some other action on the line has a non-NULL name equal to the new action's. |
| `HandlerProc.RegisterHandlerProc` | kernel/irq/proc.c:100-113 | A directory named after the (cut) name is created and published exactly when all of these hold: the line's directory exists, the action has no directory, its name is not NULL, the name is unique, and proc_mkdir succeeds. Otherwise nothing changes. With names that fit, handler directories on a line stay distinct. |
| `HandlerProc.UnregisterHandlerProc` | kernel/irq/proc.c:296-300 | Removes one entry with the action's directory name from the line's directory if the action has a directory. Otherwise nothing changes. |
| `HandlerProc.LongNamesShareADir` | kernel/irq/proc.c:81-113 | Two different names that agree in their first 127 characters are not taken by each other on a line holding both actions, so both pass the uniqueness check. Yet they get directories of the same name. |
| `HandlerProc.RegisterIrqDir` | kernel/irq/proc.c:251-292 | Without /proc/irq nothing changes. Otherwise the line's directory exists afterwards if it existed or proc_mkdir succeeded. A new directory holds at most one "irq" and one "smp_affinity" entry. An existing directory only gains another "smp_affinity" entry. |
| `HandlerProc.RegisterRepeatedlyAddsAffinity` | kernel/irq/proc.c:262-291 | Registering a line whose directory exists k more times, when every creation of "smp_affinity" succeeds, adds exactly k "smp_affinity" entries and changes no other entry, because the entry is created outside the `if (!dir)` block. |
| `HandlerProc.RegisterIrqProc` | kernel/irq/proc.c:251-292 | The line's directory and entries afterwards are those of `RegisterIrqDir`. |
| `HandlerProc.InitIrqProc` | kernel/irq/proc.c:302-316 | /proc/irq exists exactly when its proc_mkdir succeeded. If it exists, every line 0 .. NR_IRQS-1 is registered as `RegisterIrqDir` says. The lines' handlers and IRQ_DISABLED bits are left alone. |

## Left out

- Concurrency is left out. There are no wait queues, no `wake_up`, no `prepare_to_wait`/`finish_wait`/`schedule`, no atomic operations and no spinlock in `name_unique`. The model is sequential: interrupts arrive only while a reader sleeps (`Wake`) or after poll re-enables the line. So a read drains the whole count it observed. The case where another reader or interrupt changes the count between the read of `pending` and `atomic_sub` is not modelled.
- Channel.Read: a read whose supplied sleeps run out ends as `Sleeping` (the process is still blocked). This stands in for a read that never returns. Restarting a read after -ERESTARTSYS belongs to the signal code and is not modelled.
- Channel.Open: it requires the opener's name to be shorter than TASK_COMM_LEN, which the kernel guarantees for `current->comm`. `request_irq` and `free_irq` are not part of this model. They appear as the outcome of `request_irq` and as the `bound` flag. Their effect on the line is left out, including enabling the line on the first request and refusing a second channel on a bound line.
- Channel.IrqProc.Handler: the count is an unbounded natural number. The source's `atomic_t count` is a 32-bit int and would wrap after 2^31 interrupts with no read in between; the model does not capture that wrap.
- HandlerProc.DirName: a name is a sequence of characters, one per byte of the C string. `strcmp` and `snprintf` work on bytes, so a name with multi-byte characters is cut at 127 bytes, not 127 characters; the model does not capture byte encodings.
- The depth counting of `enable_irq`/`disable_irq` is not part of this model. The line is only its `IRQ_DISABLED` bit.
- A partial `copy_to_user` is modelled as a failure that copies nothing. Freeing memory (`kfree`) is not modelled.
- The text format of CPU masks is left out. `cpumask_scnprintf` is a function parameter and `cpumask_parse_user` is its result. `select_smp_affinity` is only its success or failure. The default affinity it picks is not modelled.
- Affinity.SetAffinity: `irq_set_affinity` is not part of this model. Its effect is assumed from the generic kernel, which records the pending target with CONFIG_GENERIC_PENDING_IRQ and applies the mask otherwise.
- Affinity.AffinityWrite: it requires the byte count to fit a 32-bit ssize_t, which the VFS ensures. So returning `full_count` as an int does not wrap.
- The model assumes CONFIG_SMP. A uniprocessor build has no `smp_affinity` entries or affinity handlers.
- procfs itself is left out. Only the presence of a line's directory and the names of the entries in it are kept. The file operations, `data`, `read_proc`/`write_proc` slots and modes of entries are not. Entries that `create_proc_entry` puts at the top of /proc because `proc_mkdir` failed (a NULL parent) are not recorded. The "%d" name of a line's directory is not modelled.
- ipc/miavita_syscall.c, include/asm-sparc/byteorder.h and include/linux/miavita_xtime.h are not part of this model. They hold a clock read, configuration and declarations, with no logic of the /proc/irq code.
