/** The /proc/irq/<irq>/smp_affinity file of kernel/irq/proc.c (built with CONFIG_SMP):
    reading shows the set of CPUs that may service the line; writing asks to change
    it. Both are decisions over flags and CPU sets; the text format of a CPU mask
    belongs to cpumask_scnprintf and cpumask_parse_user, which appear here as their
    results. */
module Affinity {
  import opened Kernel

  /** A set of CPU numbers (cpumask_t). */
  type CpuMask = set<nat>

  /** The affinity part of an irq_desc: the mask in force, the target of a move not
      yet carried out (pending_mask), and the IRQ_MOVE_PENDING status bit. */
  datatype AffinityState = AffinityState(affinity: CpuMask, pendingMask: CpuMask, movePending: bool)

  /** The mask the file shows: with CONFIG_GENERIC_PENDING_IRQ (genericPending) and a
      move pending, the move's target; otherwise the mask in force. */
  function ShownMask(s: AffinityState, genericPending: bool): CpuMask
  {
    if genericPending && s.movePending then s.pendingMask else s.affinity
  }

  /** What a read_proc handler returns and the text it left in the page. */
  datatype ProcRead = ProcRead(ret: int, page: string)

  /** irq_affinity_read_proc: count is the room in the page, and format(m, count) is
      the text cpumask_scnprintf writes for the mask m into that room. */
  function AffinityRead(s: AffinityState, genericPending: bool, count: int,
                        format: (CpuMask, int) -> string): (r: ProcRead)
    // The read fails exactly when the mask's text leaves no room for a newline and
    // the terminating NUL.
    ensures r.ret == -EINVAL <==> count - |format(ShownMask(s, genericPending), count)| < 2
    // Otherwise the page holds the shown mask's text and a newline, the return value
    // is its length, and the page still has room for the NUL.
    ensures r.ret != -EINVAL ==>
              r.page == format(ShownMask(s, genericPending), count) + "\n" &&
              r.ret == |r.page| && 0 < r.ret < count
  {
    var text := format(ShownMask(s, genericPending), count);
    if count - |text| < 2 then ProcRead(-EINVAL, text)
    else ProcRead(|text| + 1, text + "\n")
  }

  /** What a write to smp_affinity does to the line: nothing, a request to the
      architecture to pick its default affinity (select_smp_affinity), or the new
      mask handed to irq_set_affinity. */
  datatype AffinityEffect = Unchanged | DefaultSelected | Applied(mask: CpuMask)

  /** What a write_proc handler returns and what it did to the line. */
  datatype ProcWrite = ProcWrite(ret: int, effect: AffinityEffect)

  /** Whether the line may be rebalanced at all: its chip can set an affinity, the
      global no_irq_affinity is clear, and balancing is not disabled for the line. */
  predicate Rebalanceable(canSetAffinity: bool, noIrqAffinity: bool, balancingDisabled: bool)
  {
    canSetAffinity && !noIrqAffinity && !balancingDisabled
  }

  /** irq_affinity_write_proc on a write of count bytes. parseErr and newValue are
      what cpumask_parse_user returns and the mask it parsed, valid is
      is_affinity_mask_valid (true of every mask unless the architecture says
      otherwise), online is cpu_online_map, and selectFails says whether
      select_smp_affinity reports failure. */
  function AffinityWrite(canSetAffinity: bool, noIrqAffinity: bool, balancingDisabled: bool,
                         count: nat, parseErr: int, newValue: CpuMask, valid: CpuMask -> bool,
                         online: CpuMask, selectFails: bool): (r: ProcWrite)
    requires count <= SSIZE_MAX
    // The checks come in a fixed order, and the first that fails decides the error.
    ensures !Rebalanceable(canSetAffinity, noIrqAffinity, balancingDisabled) ==>
              r == ProcWrite(-EIO, Unchanged)
    ensures Rebalanceable(canSetAffinity, noIrqAffinity, balancingDisabled) && parseErr != 0 ==>
              r == ProcWrite(parseErr, Unchanged)
    ensures Rebalanceable(canSetAffinity, noIrqAffinity, balancingDisabled) && parseErr == 0 &&
            !valid(newValue) ==>
              r == ProcWrite(-EINVAL, Unchanged)
    // A mask naming no online CPU is never applied: the architecture's default is
    // chosen instead, and the write fails if that fails.
    ensures Rebalanceable(canSetAffinity, noIrqAffinity, balancingDisabled) && parseErr == 0 &&
            valid(newValue) && newValue * online == {} ==>
              r == ProcWrite(if selectFails then -EINVAL else count, DefaultSelected)
    // The requested mask is applied exactly when every check passes and it names an
    // online CPU, and then the whole write is reported as consumed.
    ensures r.effect.Applied? <==>
              Rebalanceable(canSetAffinity, noIrqAffinity, balancingDisabled) && parseErr == 0 &&
              valid(newValue) && newValue * online != {}
    ensures r.effect.Applied? ==> r.effect.mask == newValue && r.effect.mask * online != {} && r.ret == count
    // A failed write leaves the line as it was, unless it fell back to the default.
    ensures r.ret < 0 ==> r.effect == Unchanged || r.effect == DefaultSelected
  {
    if !canSetAffinity || noIrqAffinity || balancingDisabled then
      ProcWrite(-EIO, Unchanged)
    else if parseErr != 0 then
      ProcWrite(parseErr, Unchanged)
    else if !valid(newValue) then
      ProcWrite(-EINVAL, Unchanged)
    else if newValue * online == {} then
      ProcWrite(if selectFails then -EINVAL else count, DefaultSelected)
    else
      ProcWrite(count, Applied(newValue))
  }

  /** What irq_set_affinity does with a mask, which is not part of this model and is
      taken from the generic kernel: with CONFIG_GENERIC_PENDING_IRQ the mask becomes
      the target of a pending move, otherwise it is put in force at once. */
  function SetAffinity(s: AffinityState, mask: CpuMask, genericPending: bool): AffinityState
  {
    if genericPending then s.(pendingMask := mask, movePending := true)
    else s.(affinity := mask)
  }

  /** After a write that applied its mask, reading the file shows that mask, which
      names at least one online CPU. */
  lemma WriteThenRead(s: AffinityState, genericPending: bool,
                      canSetAffinity: bool, noIrqAffinity: bool, balancingDisabled: bool,
                      count: nat, parseErr: int, newValue: CpuMask, valid: CpuMask -> bool,
                      online: CpuMask, selectFails: bool, room: int, format: (CpuMask, int) -> string)
    requires count <= SSIZE_MAX
    requires AffinityWrite(canSetAffinity, noIrqAffinity, balancingDisabled, count, parseErr,
                           newValue, valid, online, selectFails).effect.Applied?
    ensures ShownMask(SetAffinity(s, newValue, genericPending), genericPending) == newValue
    ensures newValue * online != {}
    ensures AffinityRead(SetAffinity(s, newValue, genericPending), genericPending, room, format).ret != -EINVAL ==>
              AffinityRead(SetAffinity(s, newValue, genericPending), genericPending, room, format).page
                == format(newValue, room) + "\n"
  {
  }
}
