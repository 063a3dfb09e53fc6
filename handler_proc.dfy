/** The /proc/irq directory tree of kernel/irq/proc.c: /proc/irq itself, one
    directory per line with its "irq" and "smp_affinity" entries, and one directory
    per named handler action, whose names must be unique on a line. procfs appears
    only as the presence of a directory and the names of the entries in it; whether
    proc_mkdir and create_proc_entry succeed is a parameter. */
module HandlerProc {
  import opened Kernel
  import opened Irq

  /** The size of the buffer a handler directory's name is printed into. */
  const MAX_NAMELEN: nat := 128

  /** The name snprintf(name, MAX_NAMELEN, "%s", s) leaves in the buffer: s cut to
      MAX_NAMELEN - 1 characters. */
  function DirName(s: string): (d: string)
    ensures |d| == if |s| < MAX_NAMELEN then |s| else MAX_NAMELEN - 1
    ensures |d| < MAX_NAMELEN && d <= s
    ensures d == s <==> |s| < MAX_NAMELEN
  {
    if |s| < MAX_NAMELEN then s else s[..MAX_NAMELEN - 1]
  }

  /** Whether an action on the list other than a carries the name `name`. */
  ghost predicate NameTaken(actions: seq<Action>, a: Action, name: string)
  {
    exists i :: 0 <= i < |actions| && actions[i] != a && actions[i].name == Some(name)
  }

  /** name_unique: walks the line's action list for an action other than newAction
      whose name is not NULL and equal to newAction's; returns 0 if it finds one and
      1 otherwise. Its one caller has checked that newAction's name is not NULL. */
  method NameUnique(desc: IrqDesc, newAction: Action) returns (r: int)
    requires newAction.name.Some?
    ensures r == 0 || r == 1
    ensures r == 0 <==> NameTaken(desc.actions, newAction, newAction.name.value)
  {
    var i := 0;
    while i < |desc.actions|
      invariant 0 <= i <= |desc.actions|
      invariant forall j :: 0 <= j < i ==>
                  !(desc.actions[j] != newAction && desc.actions[j].name == newAction.name)
    {
      var action := desc.actions[i];
      if action != newAction && action.name.Some? && action.name.value == newAction.name.value {
        return 0;
      }
      i := i + 1;
    }
    return 1;
  }

  /** No action appears twice on the line's list. */
  ghost predicate ActionsDistinct(desc: IrqDesc)
    reads desc
  {
    forall i, j :: 0 <= i < j < |desc.actions| ==> desc.actions[i] != desc.actions[j]
  }

  /** Every name on the line's list fits a handler directory's name buffer. */
  ghost predicate ShortNames(desc: IrqDesc)
    reads desc
  {
    forall i :: 0 <= i < |desc.actions| && desc.actions[i].name.Some? ==>
      |desc.actions[i].name.value| < MAX_NAMELEN
  }

  /** Every handler directory on the line is named after its action, and no two
      actions on the line have directories of the same name. */
  ghost predicate HandlerDirsDistinct(desc: IrqDesc)
    reads desc, desc.actions
  {
    (forall i :: 0 <= i < |desc.actions| && desc.actions[i].dir.Some? ==>
       desc.actions[i].name.Some? && desc.actions[i].dir.value.name == DirName(desc.actions[i].name.value)) &&
    (forall i, j :: 0 <= i < j < |desc.actions| && desc.actions[i].dir.Some? && desc.actions[j].dir.Some? ==>
       desc.actions[i].dir.value.name != desc.actions[j].dir.value.name)
  }

  /** Whether register_handler_proc may create a directory for the action: the line's
      directory exists, the action has none yet, its name is not NULL, and no other
      action on the line has that name. */
  ghost predicate MayCreateHandlerDir(desc: IrqDesc, action: Action)
    reads desc, action
  {
    desc.dir && action.dir.None? && action.name.Some? &&
    !NameTaken(desc.actions, action, action.name.value)
  }

  /** register_handler_proc: creates /proc/irq/<irq>/<name> for the action when that
      is allowed; mkdirOk says whether proc_mkdir succeeds. */
  method RegisterHandlerProc(desc: IrqDesc, action: Action, mkdirOk: bool)
    modifies action`dir, desc`entries
    ensures old(MayCreateHandlerDir(desc, action)) && mkdirOk ==>
              action.dir == Some(ProcEntry(DirName(action.name.value))) &&
              desc.entries == old(desc.entries) + multiset{DirName(action.name.value)}
    ensures !(old(MayCreateHandlerDir(desc, action)) && mkdirOk) ==>
              action.dir == old(action.dir) && desc.entries == old(desc.entries)
    // With names that fit the buffer, handler directories stay distinct.
    ensures old(HandlerDirsDistinct(desc)) && ActionsDistinct(desc) && ShortNames(desc) ==>
              HandlerDirsDistinct(desc)
  {
    if !desc.dir || action.dir.Some? || action.name.None? {
      return;
    }
    var unique := NameUnique(desc, action);
    if unique == 0 {
      return;
    }
    var name := DirName(action.name.value);
    if mkdirOk {
      action.dir := Some(ProcEntry(name));
      desc.entries := desc.entries + multiset{name};
    }
    if old(HandlerDirsDistinct(desc)) && ActionsDistinct(desc) && ShortNames(desc) && mkdirOk {
      forall i, j | 0 <= i < j < |desc.actions| && desc.actions[i].dir.Some? && desc.actions[j].dir.Some?
        ensures desc.actions[i].dir.value.name != desc.actions[j].dir.value.name
      {
        if desc.actions[i] == action || desc.actions[j] == action {
          var k := if desc.actions[i] == action then j else i;
          assert desc.actions[k] != action;
          assert desc.actions[k].name != action.name;
        }
      }
    }
  }

  /** unregister_handler_proc: removes the action's directory, if it has one, from
      the line's directory. The action keeps its (now stale) dir handle. */
  method UnregisterHandlerProc(desc: IrqDesc, action: Action)
    modifies desc`entries
    ensures action.dir.Some? ==> desc.entries == old(desc.entries) - multiset{action.dir.value.name}
    ensures action.dir.None? ==> desc.entries == old(desc.entries)
  {
    if action.dir.Some? {
      desc.entries := desc.entries - multiset{action.dir.value.name};
    }
  }

  /** Two names that agree in their first MAX_NAMELEN - 1 characters are distinct for
      name_unique, yet get handler directories of the same name. */
  lemma LongNamesShareADir(a: string, b: string, x: Action, y: Action)
    requires a != b && x.name == Some(a) && y.name == Some(b)
    requires |a| >= MAX_NAMELEN && |b| >= MAX_NAMELEN && a[..MAX_NAMELEN - 1] == b[..MAX_NAMELEN - 1]
    ensures !NameTaken([x, y], x, a) && !NameTaken([x, y], y, b)
    ensures DirName(a) == DirName(b)
  {
  }

  /** Whether proc_mkdir and the two create_proc_entry calls of register_irq_proc
      succeed. */
  datatype ProcOutcome = ProcOutcome(dirOk: bool, irqEntryOk: bool, affinityEntryOk: bool)

  /** /proc/irq/<irq>: whether it exists, and the names of the entries in it. */
  datatype IrqDir = IrqDir(present: bool, entries: multiset<string>)

  /** What register_irq_proc does to /proc/irq/<irq>, when /proc/irq exists (rootDir)
      or not: it creates the directory with its "irq" entry if the directory is
      missing, and then, whether or not the directory was new, adds an "smp_affinity"
      entry to it. Entries created while the directory is missing go elsewhere and are
      not part of this model. */
  function RegisterIrqDir(rootDir: bool, d: IrqDir, o: ProcOutcome): (r: IrqDir)
    ensures !rootDir ==> r == d
    ensures rootDir ==> r.present == (d.present || o.dirOk)
    ensures rootDir && !d.present && o.dirOk ==>
              r.entries["irq"] == (if o.irqEntryOk then 1 else 0) &&
              r.entries["smp_affinity"] == (if o.affinityEntryOk then 1 else 0) &&
              |r.entries| == r.entries["irq"] + r.entries["smp_affinity"]
    ensures rootDir && d.present ==>
              r.entries == d.entries + (if o.affinityEntryOk then multiset{"smp_affinity"} else multiset{})
    ensures !r.present ==> r.entries == d.entries
  {
    if !rootDir then d
    else
      var d1 := if d.present || !o.dirOk then d
                else IrqDir(true, if o.irqEntryOk then multiset{"irq"} else multiset{});
      if d1.present && o.affinityEntryOk then d1.(entries := d1.entries + multiset{"smp_affinity"})
      else d1
  }

  /** register_irq_proc called once for each outcome in os, in order. */
  function RegisterRepeatedly(rootDir: bool, d: IrqDir, os: seq<ProcOutcome>): IrqDir
    decreases |os|
  {
    if os == [] then d else RegisterRepeatedly(rootDir, RegisterIrqDir(rootDir, d, os[0]), os[1..])
  }

  /** Each further registration of a line whose directory exists adds one more
      "smp_affinity" entry and nothing else: k registrations add k of them. */
  lemma {:induction false} RegisterRepeatedlyAddsAffinity(d: IrqDir, os: seq<ProcOutcome>)
    requires d.present && forall k :: 0 <= k < |os| ==> os[k].affinityEntryOk
    ensures RegisterRepeatedly(true, d, os).present
    ensures RegisterRepeatedly(true, d, os).entries["smp_affinity"] == d.entries["smp_affinity"] + |os|
    ensures forall e :: e != "smp_affinity" ==> RegisterRepeatedly(true, d, os).entries[e] == d.entries[e]
    decreases |os|
  {
    if os != [] {
      var d1 := RegisterIrqDir(true, d, os[0]);
      assert d1.entries == d.entries + multiset{"smp_affinity"};
      RegisterRepeatedlyAddsAffinity(d1, os[1..]);
    }
  }

  /** register_irq_proc for one line. */
  method RegisterIrqProc(root: ProcRoot, desc: IrqDesc, o: ProcOutcome)
    modifies desc`dir, desc`entries
    ensures IrqDir(desc.dir, desc.entries) == RegisterIrqDir(root.irqDir, old(IrqDir(desc.dir, desc.entries)), o)
  {
    if !root.irqDir {
      return;
    }
    if !desc.dir {
      desc.dir := o.dirOk;
      if desc.dir {
        desc.entries := multiset{};
        if o.irqEntryOk {
          desc.entries := desc.entries + multiset{"irq"};
        }
      }
    }
    if desc.dir && o.affinityEntryOk {
      desc.entries := desc.entries + multiset{"smp_affinity"};
    }
  }

  /** init_irq_proc: creates /proc/irq (rootOk says whether proc_mkdir succeeds) and
      then registers every line 0 .. NR_IRQS - 1, where NR_IRQS is |descs|. */
  method InitIrqProc(root: ProcRoot, descs: seq<IrqDesc>, rootOk: bool, outcomes: seq<ProcOutcome>)
    requires |outcomes| == |descs|
    requires forall i :: 0 <= i < |descs| ==> descs[i].irq == i
    modifies root`irqDir, descs
    ensures root.irqDir == rootOk
    ensures forall i :: 0 <= i < |descs| ==>
              IrqDir(descs[i].dir, descs[i].entries) ==
                RegisterIrqDir(rootOk, old(IrqDir(descs[i].dir, descs[i].entries)), outcomes[i])
    ensures forall i :: 0 <= i < |descs| ==>
              descs[i].actions == old(descs[i].actions) && descs[i].disabled == old(descs[i].disabled)
  {
    root.irqDir := rootOk;
    if !rootOk {
      return;
    }
    var i := 0;
    while i < |descs|
      invariant 0 <= i <= |descs| && root.irqDir == rootOk
      invariant forall j :: 0 <= j < i ==>
                  IrqDir(descs[j].dir, descs[j].entries) ==
                    RegisterIrqDir(rootOk, old(IrqDir(descs[j].dir, descs[j].entries)), outcomes[j])
      invariant forall j :: i <= j < |descs| ==>
                  descs[j].dir == old(descs[j].dir) && descs[j].entries == old(descs[j].entries)
      invariant forall j :: 0 <= j < |descs| ==>
                  descs[j].actions == old(descs[j].actions) && descs[j].disabled == old(descs[j].disabled)
    {
      assert forall j :: 0 <= j < |descs| && j != i ==> descs[j] != descs[i] by {
        forall j | 0 <= j < |descs| && j != i ensures descs[j] != descs[i] {
          assert descs[j].irq != descs[i].irq;
        }
      }
      RegisterIrqProc(root, descs[i], outcomes[i]);
      i := i + 1;
    }
  }
}
