/** The whole kernel: memory, process table and trees together, under any interleaving of
    timer ticks, system calls, page faults and stores of the running process. */
module WholeKernel {
  import opened PageTable
  import opened Physical
  import opened Install
  import opened KernelMap
  import opened Segments
  import opened Context
  import opened Fork
  import opened Shrink
  import opened Teardown
  import opened Isolation
  import opened Kernel
  import opened KernelSteps
  import opened Syscalls
  import opened Deposit
  import Coexist
  import S = Scheduler
  import R = SchedulerRuns
  import W = Walk
  import PL = PageList

  datatype World = World(v: Phys, t: S.Table, spaces: map<nat, Space>)

  /** The two invariants together. */
  ghost predicate WorldOk(a: World, c: Config) {
    R.SchedOk(a.t) && KernelOk(a.v, a.t.ctxs, a.spaces, c)
  }

  /** What can happen. `Schedule` is a tick, a sleep, an alarm or signal call, or a change
      of the running context's registers; `Save` is the register save at the entry of a
      system call; `Deliver` is the entry of a handler for SIGSEGV or SIGFPE; `Store` is a
      store of the running process to its own memory. */
  datatype Act = Schedule(e: R.Event) | Save | Deliver(signo: nat) | PageFault(l: Node, p: Pte)
               | Expand(which: Which, nextFree: nat) | Shrink(which: Which, nextFree: nat)
               | Fork(j: nat, stack: nat, priv: map<nat, Node>) | Exit | Store(l: Node, k: nat, value: nat)

  function Current(a: World): nat {
    a.t.current
  }

  // ---- The word a signal pushes -----------------------------------------

  /** What the kernel pushes on the user stack in an act: the return address, when a tick
      delivers an alarm or a handler is entered. */
  function ActPush(a: World, act: Act): S.Push {
    match act
    case Schedule(e) => if e.TimerTick? && S.Sized(a.t) then S.TickPush(a.t) else S.NoPush
    case Deliver(signo) =>
      if Current(a) < |a.t.ctxs| && signo < |a.t.ctxs[Current(a)].handlers|
      then S.ReturnPush(a.t.frame, a.t.ctxs[Current(a)].handlers[signo]) else S.NoPush
    case _ => S.NoPush
  }

  /** The writes of that push with some rights, under the running process's tree. */
  function PushWrites(a: World, act: Act, access: W.Access): Outcome {
    match ActPush(a, act)
    case NoPush => Writes([])
    case Push(address, value) =>
      if Current(a) < |a.t.ctxs| then StoreAt(a.v.mem, a.t.ctxs[Current(a)].pgd, address, value, access) else Refused
  }

  /** The kernel makes the push with its own rights. */
  predicate PushDone(a: World, b: World, act: Act) {
    var d := PushWrites(a, act, W.Kernel);
    d.Writes? && MemOk(a.v.mem) && b.v == a.v.(mem := Apply(a.v.mem, d.ws))
  }

  /** The push of an act changes nothing in these frames. */
  predicate PushSpares(a: World, act: Act, frames: set<nat>) {
    var d := PushWrites(a, act, W.Kernel);
    d.Writes? ==> Spares(a.v.mem, d.ws, frames)
  }

  /** The process could have made the push itself. */
  predicate OwnPush(a: World, act: Act) {
    PushWrites(a, act, W.UserWrite).Writes?
  }

  function LiveTableFrames(a: World): set<nat> {
    set i, f | i in a.spaces && f in a.spaces[i].owner :: f
  }

  function MappedFrames(s: Space): set<nat> {
    set l | l in s.ents && l.Leaf? :: s.ents[l].pfn
  }

  // ---- The acts ---------------------------------------------------------

  ghost predicate ScheduleStep(a: World, b: World, e: R.Event) {
    && !e.Exit? && !e.Fork? && !e.Clone?
    && R.SchedOk(a.t) && R.Enabled(a.t, e)
    && b.t == R.Step(a.t, e) && b.spaces == a.spaces && PushDone(a, b, Schedule(e))
  }

  /** The running process enters its handler. */
  ghost predicate DeliverStep(a: World, b: World, signo: nat) {
    && R.SchedOk(a.t) && Current(a) in a.spaces && signo < MAX_SIGNALS
    && a.t.ctxs[Current(a)].handlers[signo] != 0
    && b.t == a.t.(frame := S.Delivered(a.t.frame, a.t.ctxs[Current(a)].handlers[signo]))
    && b.spaces == a.spaces && PushDone(a, b, Deliver(signo))
  }

  ghost predicate SaveStep(a: World, b: World) {
    S.Sized(a.t) && b == a.(t := a.t.(ctxs := a.t.ctxs[Current(a) := S.Saved(a.t)]))
  }

  ghost predicate PageFaultStep(a: World, b: World, l: Node, p: Pte) {
    && Current(a) in a.spaces && Current(a) in b.spaces && Current(a) < |a.t.ctxs|
    && b.t == a.t && b.spaces == a.spaces[Current(a) := b.spaces[Current(a)]]
    && l.Leaf? && l !in a.spaces[Current(a)].ents && l.a == 0 && 4 <= l.b && InRange(l)
    && PagePlace(a.t.ctxs[Current(a)].segs, l) && (ReadOnlySide(l) ==> !WriteFlag(p))
    && Mapped(a.v, a.spaces[Current(a)], b.v, b.spaces[Current(a)], l, p)
    && NewTables(a.spaces[Current(a)], b.spaces[Current(a)], p.flags)
    && PL.Shape(a.v.user) && PL.IsFree(a.v.user, PL.Picked(a.v.user))
    && p.pfn == PL.Picked(a.v.user) && b.v.user == PL.Take(a.v.user)
  }

  function WithCurrentSegs(t: S.Table, g: Segs): S.Table
    requires t.current < |t.ctxs|
  {
    t.(ctxs := t.ctxs[t.current := WithSegs(t.ctxs[t.current], g)])
  }

  ghost predicate ExpandedStep(a: World, b: World, which: Which, nextFree: nat) {
    && Current(a) in a.spaces && Current(a) < |a.t.ctxs|
    && var g := a.t.ctxs[Current(a)].segs;
      && SegOf(g, which).nextFree <= nextFree <= SegOf(g, which).end && Aligned(nextFree)
      && b == a.(t := WithCurrentSegs(a.t, WithBreak(g, which, nextFree)))
  }

  /** No other process maps a page that the shrink takes away. */
  ghost predicate ShrinkSafe(a: World, which: Which, nextFree: nat) {
    && Current(a) in Abs(a.v, a.t.ctxs, a.spaces).procs
    && Unshared(Abs(a.v, a.t.ctxs, a.spaces), Current(a), which, nextFree)
  }

  /** A shrink of pages that no other process maps. */
  ghost predicate ShrunkStep(a: World, b: World, which: Which, nextFree: nat) {
    && Current(a) in a.spaces && Current(a) in b.spaces && Current(a) < |a.t.ctxs|
    && var g := a.t.ctxs[Current(a)].segs;
      && SegOf(g, which).start <= nextFree <= SegOf(g, which).nextFree && Aligned(nextFree)
      && b.t == WithCurrentSegs(a.t, WithBreak(g, which, nextFree))
      && b.spaces == a.spaces[Current(a) := b.spaces[Current(a)]]
      && Removed(a.v, a.spaces[Current(a)], b.v, b.spaces[Current(a)], nextFree, SegOf(g, which).nextFree)
      && ShrinkSafe(a, which, nextFree)
  }

  /** A fork whose copies are all within the kernel's reach. */
  ghost predicate ForkedStep(a: World, b: World, j: nat, stack: nat, priv: map<nat, Node>, c: Config) {
    && Current(a) in a.spaces && Current(a) < |a.t.ctxs| && j in b.spaces && j !in a.spaces
    && R.SchedOk(a.t) && R.Enabled(a.t, R.Fork(b.spaces[j].root, stack)) && j == FirstUnused(a.t.ctxs)
    && b.t == R.Step(a.t, R.Fork(b.spaces[j].root, stack))
    && b.spaces == a.spaces[j := b.spaces[j]]
    && ForkMade(a.v, b.v, a.spaces[Current(a)], b.spaces[j], a.t.ctxs[Current(a)].segs, stack, priv, c)
  }

  ghost predicate ExitedStep(a: World, b: World) {
    && Current(a) in a.spaces && Current(a) < |a.t.ctxs|
    && R.SchedOk(a.t) && R.Enabled(a.t, R.Exit)
    && b.t == R.Step(a.t, R.Exit) && b.spaces == a.spaces - {Current(a)}
    && b.v == a.v.(pt := PL.Give(a.v.pt, a.t.ctxs[Current(a)].osStackPfn))
  }

  /** A user store goes where the processor takes it. */
  ghost predicate StoreStep(a: World, b: World, l: Node, k: nat, value: nat) {
    && Current(a) in a.spaces && Current(a) < |a.t.ctxs| && InRange(l) && k < ENTRIES && MemOk(a.v.mem)
    && var to := W.Translate(a.v.mem, a.t.ctxs[Current(a)].pgd, l, W.UserWrite);
      && to.Frame? && to.pfn < |a.v.mem|
      && b == a.(v := a.v.(mem := PageTable.Store(a.v.mem, to.pfn, k, value)))
  }

  ghost predicate WorldStep(a: World, b: World, act: Act, c: Config) {
    match act
    case Schedule(e) => ScheduleStep(a, b, e)
    case Save => SaveStep(a, b)
    case Deliver(signo) => DeliverStep(a, b, signo)
    case PageFault(l, p) => PageFaultStep(a, b, l, p)
    case Expand(which, nextFree) => ExpandedStep(a, b, which, nextFree)
    case Shrink(which, nextFree) => ShrunkStep(a, b, which, nextFree)
    case Fork(j, stack, priv) => ForkedStep(a, b, j, stack, priv, c)
    case Exit => ExitedStep(a, b)
    case Store(l, k, value) => StoreStep(a, b, l, k, value)
  }

  // ---- Each act keeps both invariants -----------------------------------

  predicate SameTables(s: Space, mem: Mem, mem': Mem)
    requires |mem'| == |mem|
  {
    forall f | f in s.owner && f < |mem| :: mem'[f] == mem[f]
  }

  /** A tree survives a change of memory exactly when its tables do. */
  lemma LiveTables(v: Phys, mem: Mem, x: ExecContext, s: Space, c: Config)
    requires Live(v, x, s, c) && MemOk(mem) && |mem| == |v.mem| && PhysOk(v.(mem := mem))
    ensures Live(v.(mem := mem), x, s, c) <==> SameTables(s, v.mem, mem)
  {
    hide PhysOk, ProcessTree, KernelEntries, UserTree, Taken;
    if SameTables(s, v.mem, mem) {
      WfFraming(v.mem, mem, s);
    }
    if Wf(mem, s) {
      forall f | f in s.owner && f < |mem|
        ensures mem[f] == v.mem[f]
      {
        SameTable(v.mem, mem, s, f);
      }
    }
  }

  lemma SameTable(mem: Mem, mem': Mem, s: Space, f: nat)
    requires Wf(mem, s) && Wf(mem', s) && |mem| == |mem'| && f in s.owner && f < |mem|
    ensures mem[f] == mem'[f]
  {
    assert OwnerOk(s, f);
    hide SlotValue, NodeOk;
    forall i: nat | i < ENTRIES
      ensures mem[f][i] == mem'[f][i]
    {
      assert SlotOk(mem, s, s.owner[f], i) && SlotOk(mem', s, s.owner[f], i);
    }
  }

  /** The memory invariant survives a change of memory exactly when every table of every
      live process does. */
  lemma TablesDecide(v: Phys, mem: Mem, ctxs: seq<ExecContext>, spaces: map<nat, Space>, c: Config)
    requires KernelOk(v, ctxs, spaces, c) && MemOk(mem) && |mem| == |v.mem|
    ensures KernelOk(v.(mem := mem), ctxs, spaces, c) <==> forall i | i in spaces :: SameTables(spaces[i], v.mem, mem)
  {
    KernelTable(v, ctxs, spaces, c);
    MemoryPhys(v, mem);
    MemoryParts(v, mem, ctxs, spaces, c);
    hide KernelOk, PhysOk, SameTables, Live;
    forall i | i in spaces
      ensures i < |ctxs| && (Live(v.(mem := mem), ctxs[i], spaces[i], c) <==> SameTables(spaces[i], v.mem, mem))
    {
      LiveTables(v, mem, ctxs[i], spaces[i], c);
    }
  }

  lemma MemoryParts(v: Phys, mem: Mem, ctxs: seq<ExecContext>, spaces: map<nat, Space>, c: Config)
    requires KernelOk(v, ctxs, spaces, c) && PhysOk(v.(mem := mem))
    ensures forall i | i in spaces :: i < |ctxs| && Live(v, ctxs[i], spaces[i], c)
    ensures KernelOk(v.(mem := mem), ctxs, spaces, c) <==>
      forall i | i in spaces :: Live(v.(mem := mem), ctxs[i], spaces[i], c)
  {
    hide PhysOk, ConfigOk, PairOk, SysOk, Abs, Live, LiveSlots;
    KernelTable(v, ctxs, spaces, c);
    SameUser(v, v.(mem := mem), ctxs, spaces);
    LiveInRange(ctxs, spaces);
  }

  lemma LiveInRange(ctxs: seq<ExecContext>, spaces: map<nat, Space>)
    requires LiveSlots(ctxs, spaces) && forall i | i in spaces :: i < MAX_PROCESSES
    ensures forall i | i in spaces :: i < |ctxs|
  {
  }

  lemma MemoryPhys(v: Phys, mem: Mem)
    requires PhysOk(v) && MemOk(mem) && |mem| == |v.mem|
    ensures PhysOk(v.(mem := mem))
  {
    hide PL.Shape, PL.Ledger;
  }

  lemma PushApart(a: World, act: Act)
    requires PushWrites(a, act, W.Kernel).Writes?
    ensures Deposit.Apart(PushWrites(a, act, W.Kernel).ws)
  {
    hide ActPush, StoreAt;
    match ActPush(a, act)
    case NoPush =>
    case Push(address, value) => StoreApart(a.v.mem, a.t.ctxs[Current(a)].pgd, address, value, W.Kernel);
  }

  /** The exact condition under which an act's push leaves the memory invariant true. */
  lemma PushKeeps(a: World, b: World, act: Act, c: Config)
    requires KernelOk(a.v, a.t.ctxs, a.spaces, c) && PushDone(a, b, act)
    ensures KernelOk(b.v, a.t.ctxs, a.spaces, c) <==> PushSpares(a, act, LiveTableFrames(a))
  {
    hide KernelOk, PushWrites, Apply, Spares;
    PushApart(a, act);
    var ws := PushWrites(a, act, W.Kernel).ws;
    SparedFrames(a.v.mem, ws, LiveTableFrames(a));
    TablesDecide(a.v, Apply(a.v.mem, ws), a.t.ctxs, a.spaces, c);
    assert forall i, f | i in a.spaces && f in a.spaces[i].owner :: f in LiveTableFrames(a);
  }

  lemma ScheduleKeeps(a: World, b: World, e: R.Event, c: Config)
    requires WorldOk(a, c) && ScheduleStep(a, b, e)
    ensures WorldOk(b, c) <==> PushSpares(a, Schedule(e), LiveTableFrames(a))
  {
    hide KernelOk, R.SchedOk, R.Enabled, R.Step, PushDone, PushSpares, LiveTableFrames, Coexist.SameMemory;
    R.StepKeeps(a.t, e);
    PushKeeps(a, b, Schedule(e), c);
    ViewSame(a.t, e);
    Coexist.EventMemory(a.t, e);
    Coexist.SameMemoryBack(a.t.ctxs, b.t.ctxs);
    if KernelOk(b.v, a.t.ctxs, a.spaces, c) {
      Coexist.SameKernel(b.v, a.t.ctxs, b.t.ctxs, a.spaces, c);
    }
    if KernelOk(b.v, b.t.ctxs, a.spaces, c) {
      Coexist.SameKernel(b.v, b.t.ctxs, a.t.ctxs, a.spaces, c);
    }
  }

  lemma ViewSame(t: S.Table, e: R.Event)
    requires R.SchedOk(t) && R.Enabled(t, e) && !e.Exit? && !e.Fork? && !e.Clone?
    ensures Coexist.MemoryView(t, e) == t.ctxs
  {
  }

  lemma DeliverKeeps(a: World, b: World, signo: nat, c: Config)
    requires WorldOk(a, c) && DeliverStep(a, b, signo)
    ensures WorldOk(b, c) <==> PushSpares(a, Deliver(signo), LiveTableFrames(a))
  {
    hide KernelOk, R.SlotOk, PushDone, PushSpares, LiveTableFrames;
    PushKeeps(a, b, Deliver(signo), c);
  }

  /** Without a push nothing has to be spared. */
  lemma NoPushSpares(a: World, act: Act, frames: set<nat>)
    requires ActPush(a, act).NoPush?
    ensures PushSpares(a, act, frames) && OwnPush(a, act)
    ensures PushWrites(a, act, W.Kernel) == Writes([])
  {
    hide ActPush;
  }

  lemma SaveKeeps(a: World, b: World, c: Config)
    requires WorldOk(a, c) && SaveStep(a, b)
    ensures WorldOk(b, c)
  {
    hide KernelOk, R.SlotOk;
    R.OwnKeeps(a.t, S.Saved(a.t));
    Coexist.SameKernel(a.v, a.t.ctxs, b.t.ctxs, a.spaces, c);
  }

  lemma PageFaultKeeps(a: World, b: World, l: Node, p: Pte, c: Config)
    requires WorldOk(a, c) && PageFaultStep(a, b, l, p)
    ensures WorldOk(b, c)
  {
    hide KernelOk, R.SchedOk, PL.Shape, PL.IsFree, PL.Picked, PL.Take, Mapped, InRange, PagePlace, NewTables;
    hide ReadOnlySide, WriteFlag;
    FaultKernel(a.v, b.v, b.spaces[Current(a)], a.t.ctxs, a.spaces, c, Current(a), l, p);
  }

  lemma SegsKeepSched(t: S.Table, g: Segs)
    requires R.SchedOk(t)
    ensures R.SchedOk(WithCurrentSegs(t, g))
  {
    hide R.SlotOk;
    R.OwnKeeps(t, WithSegs(t.ctxs[t.current], g));
  }

  lemma ExpandKeepsWorld(a: World, b: World, which: Which, nextFree: nat, c: Config)
    requires WorldOk(a, c) && ExpandedStep(a, b, which, nextFree)
    ensures WorldOk(b, c)
  {
    hide KernelOk, R.SchedOk, SegOf, WithBreak, Aligned, WithSegs;
    ExpandKernel(a.v, a.t.ctxs, a.spaces, c, Current(a), which, nextFree);
    SegsKeepSched(a.t, WithBreak(a.t.ctxs[Current(a)].segs, which, nextFree));
  }

  lemma ShrinkKeepsWorld(a: World, b: World, which: Which, nextFree: nat, c: Config)
    requires WorldOk(a, c) && ShrunkStep(a, b, which, nextFree)
    ensures WorldOk(b, c)
  {
    hide KernelOk, R.SchedOk, SegOf, WithBreak, Aligned, WithSegs, Removed, Unshared, Abs;
    ShrinkKernel(a.v, b.v, b.spaces[Current(a)], a.t.ctxs, a.spaces, c, Current(a), which, nextFree);
    SegsKeepSched(a.t, WithBreak(a.t.ctxs[Current(a)].segs, which, nextFree));
  }

  lemma ForkKeepsWorld(a: World, b: World, j: nat, stack: nat, priv: map<nat, Node>, c: Config)
    requires WorldOk(a, c) && ForkedStep(a, b, j, stack, priv, c)
    ensures WorldOk(b, c)
  {
    hide KernelOk, R.SchedOk, R.Step, R.Enabled, ForkMade, Abs, FirstUnused, Coexist.MemoryView;
    var e := R.Fork(b.spaces[j].root, stack);
    var y := ForkChild(a.t.ctxs[Current(a)], j, b.spaces[j].root, stack);
    ForkView(a.t, b.spaces[j].root, stack);
    R.StepKeeps(a.t, e);
    ForkKernel(a.v, b.v, a.t.ctxs, a.spaces, c, Current(a), j, y, b.spaces[j], priv);
    Coexist.SchedulingKeepsMemory(b.v, a.t, e, b.spaces, c);
  }

  lemma ForkView(t: S.Table, pgd: nat, stack: nat)
    requires R.SchedOk(t) && R.Enabled(t, R.Fork(pgd, stack))
    ensures var j := FirstUnused(t.ctxs);
      && 1 <= j < MAX_PROCESSES && j < |t.ctxs| && t.current < |t.ctxs|
      && Coexist.MemoryView(t, R.Fork(pgd, stack)) == t.ctxs[j := ForkChild(t.ctxs[t.current], j, pgd, stack)]
  {
    hide R.SlotOk;
    R.NewSlot(t);
  }

  lemma ExitKeepsWorld(a: World, b: World, c: Config)
    requires WorldOk(a, c) && ExitedStep(a, b)
    ensures WorldOk(b, c)
  {
    hide KernelOk, R.SchedOk, R.Step, R.Enabled, Abs, PL.Give;
    R.StepKeeps(a.t, R.Exit);
    GivenOk(a, b, c);
    ExitKernel(a.v, b.v, a.t.ctxs, a.spaces, c, Current(a));
    assert Coexist.MemoryView(a.t, R.Exit) == a.t.ctxs[Current(a) := a.t.ctxs[Current(a)].(state := Unused)];
    Coexist.SchedulingKeepsMemory(b.v, a.t, R.Exit, b.spaces, c);
  }

  lemma GivenOk(a: World, b: World, c: Config)
    requires KernelOk(a.v, a.t.ctxs, a.spaces, c) && Current(a) in a.spaces && Current(a) < |a.t.ctxs|
    requires b.v == a.v.(pt := PL.Give(a.v.pt, a.t.ctxs[Current(a)].osStackPfn))
    ensures PhysOk(b.v)
  {
    KernelSlotHeld(a.v, a.t.ctxs, a.spaces, c, Current(a));
    KernelTable(a.v, a.t.ctxs, a.spaces, c);
    hide KernelOk;
    GivenPhys(a.v, a.t.ctxs[Current(a)].osStackPfn);
  }

  lemma GivenPhys(v: Phys, f: nat)
    requires PhysOk(v) && Taken(v.pt, f)
    ensures PhysOk(v.(pt := PL.Give(v.pt, f)))
  {
    PL.GiveEffect(v.pt, f);
    PL.FreeMembership(v.pt, f);
  }

  // ---- Stores -----------------------------------------------------------

  /** A store of the running process hits a page of its own that is mapped writable. */
  lemma StoreTarget(a: World, b: World, l: Node, k: nat, value: nat, c: Config)
    requires WorldOk(a, c) && StoreStep(a, b, l, k, value)
    ensures var s := a.spaces[Current(a)];
      && l.Leaf? && l in s.ents && WriteFlag(s.ents[l])
      && s.ents[l].pfn < |a.v.mem| && a.v.user.start < s.ents[l].pfn < a.v.user.start + a.v.user.size
      && b == a.(v := a.v.(mem := PageTable.Store(a.v.mem, s.ents[l].pfn, k, value)))
  {
    var s := a.spaces[Current(a)];
    KernelSlot(a.v, a.t.ctxs, a.spaces, c, Current(a));
    hide KernelOk, R.SchedOk, Abs, Live, Leaves, W.Translate, PageTable.Store, InRange;
    LiveHolds(a.v, a.t.ctxs[Current(a)], s, c);
    LiveUser(a.v, a.t.ctxs[Current(a)], s, c);
    StorePath(a.v, s, l);
  }

  lemma StorePath(v: Phys, s: Space, l: Node)
    requires Holds(v, s) && UserTree(s) && InRange(l) && W.Translate(v.mem, s.root, l, W.UserWrite).Frame?
    ensures l in s.ents && WriteFlag(s.ents[l]) && W.Translate(v.mem, s.root, l, W.UserWrite).pfn == s.ents[l].pfn
  {
    hide W.Translate, PhysOk, Wf, UserTree, Taken, WriteFlag;
    HeldWf(v, s);
    W.UserWriteTranslation(v.mem, s, l);
  }

  lemma HeldWf(v: Phys, s: Space)
    requires Holds(v, s)
    ensures Wf(v.mem, s)
  {
  }

  lemma StoredPhys(v: Phys, f: nat, k: nat, value: nat)
    requires PhysOk(v) && f < |v.mem| && k < ENTRIES
    ensures MemOk(v.mem)
    ensures var frame: seq<nat> := v.mem[f][k := value];
      |frame| == ENTRIES && v.(mem := PageTable.Store(v.mem, f, k, value)) == v.(mem := v.mem[f := frame])
    ensures PhysOk(v.(mem := PageTable.Store(v.mem, f, k, value)))
  {
    hide PL.Shape, PL.Ledger;
  }

  lemma StoreLive(v: Phys, f: nat, k: nat, value: nat, x: ExecContext, s: Space, c: Config)
    requires Live(v, x, s, c) && PhysOk(v) && f < |v.mem| && v.user.start <= f && k < ENTRIES
    ensures Live(v.(mem := PageTable.Store(v.mem, f, k, value)), x, s, c)
  {
    StoredPhys(v, f, k, value);
    hide PhysOk, Wf, ProcessTree, KernelEntries, UserTree, Taken, PageTable.Store;
    var frame: seq<nat> := v.mem[f][k := value];
    UserWrite(v, f, frame, s);
  }

  lemma StoreKeeps(a: World, b: World, l: Node, k: nat, value: nat, c: Config)
    requires WorldOk(a, c) && StoreStep(a, b, l, k, value)
    ensures WorldOk(b, c)
  {
    StoreTarget(a, b, l, k, value, c);
    hide KernelOk, StoreStep, R.SchedOk, PageTable.Store;
    KernelTable(a.v, a.t.ctxs, a.spaces, c);
    hide PhysOk;
    StoreKernel(a.v, a.spaces[Current(a)].ents[l].pfn, k, value, a.t.ctxs, a.spaces, c);
  }

  lemma StoreKernel(v: Phys, f: nat, k: nat, value: nat, ctxs: seq<ExecContext>, spaces: map<nat, Space>, c: Config)
    requires KernelOk(v, ctxs, spaces, c) && PhysOk(v) && f < |v.mem| && v.user.start <= f && k < ENTRIES
    ensures KernelOk(v.(mem := PageTable.Store(v.mem, f, k, value)), ctxs, spaces, c)
  {
    hide PairOk, SysOk, ConfigOk, PhysOk, Abs, Live, PageTable.Store, LiveSlots;
    KernelTable(v, ctxs, spaces, c);
    StoredPhys(v, f, k, value);
    SameUser(v, v.(mem := PageTable.Store(v.mem, f, k, value)), ctxs, spaces);
    forall j | j in spaces
      ensures j < MAX_PROCESSES && Live(v.(mem := PageTable.Store(v.mem, f, k, value)), ctxs[j], spaces[j], c)
    {
      StoreLive(v, f, k, value, ctxs[j], spaces[j], c);
    }
  }

  lemma SameUser(v: Phys, w: Phys, ctxs: seq<ExecContext>, spaces: map<nat, Space>)
    requires w.user == v.user
    ensures Abs(w, ctxs, spaces) == Abs(v, ctxs, spaces)
  {
    hide Leaves, PL.Free;
  }

  /** Every act keeps both invariants, except that a signal's push keeps them exactly when
      it changes no table of a live process. */
  lemma ActKeeps(a: World, b: World, act: Act, c: Config)
    requires WorldOk(a, c) && WorldStep(a, b, act, c)
    ensures WorldOk(b, c) <==> PushSpares(a, act, LiveTableFrames(a))
  {
    hide WorldOk, ScheduleStep, SaveStep, PageFaultStep, ExpandedStep, ShrunkStep, ForkedStep, ExitedStep, StoreStep;
    hide DeliverStep, PushSpares, LiveTableFrames;
    if !act.Schedule? && !act.Deliver? {
      NoPushSpares(a, act, LiveTableFrames(a));
    }
    match act
    case Schedule(e) => ScheduleKeeps(a, b, e, c);
    case Deliver(signo) => DeliverKeeps(a, b, signo, c);
    case Save => SaveKeeps(a, b, c);
    case PageFault(l, p) => PageFaultKeeps(a, b, l, p, c);
    case Expand(which, nextFree) => ExpandKeepsWorld(a, b, which, nextFree, c);
    case Shrink(which, nextFree) => ShrinkKeepsWorld(a, b, which, nextFree, c);
    case Fork(j, stack, priv) => ForkKeepsWorld(a, b, j, stack, priv, c);
    case Exit => ExitKeepsWorld(a, b, c);
    case Store(l, k, value) => StoreKeeps(a, b, l, k, value, c);
  }
}
