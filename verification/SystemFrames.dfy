/** Page-table frames that belong to no process: the process table, the TSS, the interrupt
    stack, the IDT and the swapper's stack, taken at boot, and what exited processes leave.
    No run hands them out again, no act but a signal's push can write them, and
    `os_pmd_pfn` never dangles. */
module SystemFrames {
  import opened PageTable
  import opened Physical
  import opened Install
  import opened KernelMap
  import opened Segments
  import opened Context
  import opened Fork
  import opened CopyWhole
  import opened Shrink
  import opened Teardown
  import opened Isolation
  import opened Kernel
  import opened KernelSteps
  import opened Syscalls
  import opened Deposit
  import opened LastExit
  import opened WholeKernel
  import opened Undisturbed
  import Coexist
  import S = Scheduler
  import R = SchedulerRuns
  import W = Walk
  import PL = PageList

  /** Allocated, in no live tree, and no live process's OS stack. */
  predicate Reserved(a: World, r: set<nat>) {
    forall f | f in r :: Taken(a.v.pt, f) && Apart(a, f)
  }

  predicate Apart(a: World, f: nat) {
    forall i | i in a.spaces :: f !in a.spaces[i].owner && (i < |a.t.ctxs| ==> f != a.t.ctxs[i].osStackPfn)
  }

  /** `os_pmd_pfn` is the kernel PMD of a live tree or of one that is gone. */
  predicate OsPmdTracked(a: World, r: set<nat>, osPmd: nat) {
    osPmd in r || exists i :: i in a.spaces && osPmd == OsPmdOf(a.spaces[i])
  }

  // ---- Growing and shrinking trees --------------------------------------

  lemma GrownApart(v: Phys, s: Space, w: Phys, t: Space, f: nat)
    requires Grown(v, s, w, t) && Taken(v.pt, f) && f !in s.owner
    ensures Taken(w.pt, f) && f !in t.owner && (f < |v.mem| ==> |w.mem| == |v.mem| && w.mem[f] == v.mem[f])
  {
    StillTakenOne(v.pt, w.pt, f);
    PL.SupplyIsFree(v.pt);
    PL.FreeMembership(v.pt, f);
    hide PL.Supply, PL.Free, PL.IsFree;
  }

  lemma ForkApart(v: Phys, w: Phys, ps: Space, ct: Space, g: Segs, stack: nat, priv: map<nat, Node>, c: Config, f: nat)
    requires PhysOk(v) && ForkMade(v, w, ps, ct, g, stack, priv, c) && Taken(v.pt, f)
    ensures Taken(w.pt, f) && f !in ct.owner && f != stack
    ensures f < |v.mem| ==> |w.mem| == |v.mem| && w.mem[f] == v.mem[f]
  {
    PL.FreeMembership(v.pt, f);
    StillTakenOne(v.pt, w.pt, f);
    TableNotUser(v, f);
    hide PL.Free, Holds, UserTree, ProcessTree, KernelEntries, ChildPagesExactly;
  }

  lemma TableNotUser(v: Phys, f: nat)
    requires PhysOk(v) && Taken(v.pt, f)
    ensures f !in PL.Free(v.user) && f < v.user.start
  {
  }

  lemma GivenOther(l: PL.State, f: nat, g: nat)
    requires PL.Shape(l) && Taken(l, f) && Taken(l, g) && f != g
    ensures Taken(PL.Give(l, f), g)
  {
    GivenOne(l, f);
  }

  // ---- One step ---------------------------------------------------------

  /** OS stacks do not move. */
  lemma StacksStay(a: World, b: World, act: Act, c: Config, i: nat)
    requires WorldOk(a, c) && WorldStep(a, b, act, c) && i in a.spaces && i < |b.t.ctxs|
    requires act.Exit? ==> i != Current(a)
    ensures i < |a.t.ctxs| && b.t.ctxs[i].osStackPfn == a.t.ctxs[i].osStackPfn
  {
    hide ScheduleStep, ForkedStep, ExitedStep, KernelOk, R.SchedOk, PushDone, Mapped, NewTables, Removed, ShrinkSafe;
    hide InRange, PagePlace, SegOf, WithBreak, Aligned, PL.Supply, PL.Picked;
    hide PL.Take, PL.Shape, ReadOnlySide, WriteFlag;
    hide W.Translate, Live;
    WorldSlot(a, c, i);
    match act
    case Schedule(e) => ScheduleStack(a, b, e, i);
    case Fork(j, stack, priv) => ForkStacks(a, b, j, stack, priv, c, i);
    case Exit => ExitStack(a, b, i);
    case _ =>
  }

  lemma WorldSlot(a: World, c: Config, i: nat)
    requires WorldOk(a, c) && i in a.spaces
    ensures i < |a.t.ctxs| && i < MAX_PROCESSES && a.t.ctxs[i].state != Unused
  {
    KernelSlot(a.v, a.t.ctxs, a.spaces, c, i);
  }

  lemma ScheduleStack(a: World, b: World, e: R.Event, i: nat)
    requires ScheduleStep(a, b, e) && i < MAX_PROCESSES && i < |a.t.ctxs| && a.t.ctxs[i].state != Unused
    ensures i < |b.t.ctxs| && b.t.ctxs[i].osStackPfn == a.t.ctxs[i].osStackPfn
  {
    hide R.SchedOk, R.Enabled, R.Step, PushDone;
    EventStack(a.t, e, i);
  }

  lemma ForkStacks(a: World, b: World, j: nat, stack: nat, priv: map<nat, Node>, c: Config, i: nat)
    requires ForkedStep(a, b, j, stack, priv, c) && i < MAX_PROCESSES && i < |a.t.ctxs| && a.t.ctxs[i].state != Unused
    requires i in a.spaces
    ensures i < |b.t.ctxs| && b.t.ctxs[i].osStackPfn == a.t.ctxs[i].osStackPfn
  {
    hide R.SchedOk, R.Enabled, R.Step, ForkMade, FirstUnused;
    EventStack(a.t, R.Fork(b.spaces[j].root, stack), i);
  }

  lemma ExitStack(a: World, b: World, i: nat)
    requires ExitedStep(a, b) && i < MAX_PROCESSES && i < |a.t.ctxs| && a.t.ctxs[i].state != Unused
    ensures i < |b.t.ctxs| && b.t.ctxs[i].osStackPfn == a.t.ctxs[i].osStackPfn
  {
    hide R.SchedOk, R.Enabled, R.Step;
    EventStack(a.t, R.Exit, i);
  }

  lemma EventStack(t: S.Table, e: R.Event, i: nat)
    requires R.SchedOk(t) && R.Enabled(t, e) && !e.Clone? && i < MAX_PROCESSES && t.ctxs[i].state != Unused
    requires e.Fork? ==> i != FirstUnused(t.ctxs)
    ensures |R.Step(t, e).ctxs| == MAX_PROCESSES && R.Step(t, e).ctxs[i].osStackPfn == t.ctxs[i].osStackPfn
  {
    Coexist.EventMemory(t, e);
    hide R.SlotOk, R.Step, R.Enabled;
    var m := Coexist.MemoryView(t, e);
    assert Coexist.SameFields(m[i], R.Step(t, e).ctxs[i]);
  }

  /** What an act does to one frame that belongs to no process: the trees of other
      processes are as they were, and the running process's tree does not take it. */
  ghost predicate FrameStays(a: World, b: World, f: nat) {
    && Taken(b.v.pt, f)
    && (forall i | i in b.spaces && (i !in a.spaces || b.spaces[i] != a.spaces[i]) :: f !in b.spaces[i].owner)
    && |b.v.mem| == |a.v.mem|
  }

  predicate SameFrame(a: World, b: World, f: nat) {
    f < |a.v.mem| && f < |b.v.mem| ==> b.v.mem[f] == a.v.mem[f]
  }

  lemma FrameStep(a: World, b: World, act: Act, c: Config, f: nat)
    requires WorldOk(a, c) && WorldStep(a, b, act, c) && Taken(a.v.pt, f) && Apart(a, f)
    ensures FrameStays(a, b, f)
    ensures PushSpares(a, act, {f}) ==> SameFrame(a, b, f)
  {
    hide PushSpares, WorldOk, ScheduleStep, DeliverStep, SaveStep, PageFaultStep, ExpandedStep, ShrunkStep, StoreStep;
    hide ForkedStep, ExitedStep, PushDone, Taken, PhysOk, Apart, FrameStays, SameFrame;
    WorldPhys(a, c);
    match act
    case PageFault(l, p) => MappedApart(a, b, l, p, f);
    case Shrink(which, nextFree) => RemovedApart(a, b, which, nextFree, f);
    case Fork(j, stack, priv) => ForkFrame(a, b, j, stack, priv, c, f);
    case Exit => ExitFrame(a, b, c, f);
    case Store(l, k, value) => StoreFrame(a, b, l, k, value, c, f);
    case Schedule(_) => PushFrame(a, b, act, c, f);
    case Deliver(_) => PushFrame(a, b, act, c, f);
    case Save => SaveFrame(a, b, f);
    case Expand(which, nextFree) => ExpandFrame(a, b, which, nextFree, f);
  }

  lemma SaveFrame(a: World, b: World, f: nat)
    requires SaveStep(a, b) && Taken(a.v.pt, f)
    ensures FrameStays(a, b, f) && SameFrame(a, b, f)
  {
    hide S.Sized, Taken;
  }

  lemma ExpandFrame(a: World, b: World, which: Isolation.Which, nextFree: nat, f: nat)
    requires ExpandedStep(a, b, which, nextFree) && Taken(a.v.pt, f)
    ensures FrameStays(a, b, f) && SameFrame(a, b, f)
  {
    hide SegOf, WithBreak, Aligned, Taken;
  }

  lemma MappedApart(a: World, b: World, l: Node, p: Pte, f: nat)
    requires PageFaultStep(a, b, l, p) && Taken(a.v.pt, f) && Apart(a, f)
    ensures FrameStays(a, b, f) && SameFrame(a, b, f)
  {
    hide Holds, Leaves, Huges, UserTree, PL.Supply, PL.Free, NewTables, InRange, PagePlace, PL.Picked, PL.Take, Taken;
    hide Missing, PathTables, PL.Shape, ReadOnlySide, WriteFlag;
    MappedIsGrown(a.v, a.spaces[Current(a)], b.v, b.spaces[Current(a)], l, p);
    hide Mapped, Grown;
    GrownApart(a.v, a.spaces[Current(a)], b.v, b.spaces[Current(a)], f);
    GrownSize(a.v, a.spaces[Current(a)], b.v, b.spaces[Current(a)]);
  }

  lemma MappedIsGrown(v: Phys, s: Space, w: Phys, t: Space, l: Node, p: Pte)
    requires l.Leaf? && Mapped(v, s, w, t, l, p)
    ensures Grown(v, s, w, t)
  {
  }

  lemma GrownSize(v: Phys, s: Space, w: Phys, t: Space)
    requires Grown(v, s, w, t)
    ensures |w.mem| == |v.mem|
  {
  }

  lemma RemovedApart(a: World, b: World, which: Isolation.Which, nextFree: nat, f: nat)
    requires ShrunkStep(a, b, which, nextFree) && Taken(a.v.pt, f) && Apart(a, f)
    ensures FrameStays(a, b, f) && SameFrame(a, b, f)
  {
    hide Holds, Grown, PL.Free, FramesOf, Taken, ShrinkSafe, SegOf, WithBreak, Aligned, UserTree;
    GrownApart(a.v, a.spaces[Current(a)], b.v, b.spaces[Current(a)], f);
    GrownSize(a.v, a.spaces[Current(a)], b.v, b.spaces[Current(a)]);
  }

  lemma ForkFrame(a: World, b: World, j: nat, stack: nat, priv: map<nat, Node>, c: Config, f: nat)
    requires PhysOk(a.v) && ForkedStep(a, b, j, stack, priv, c) && Taken(a.v.pt, f)
    ensures FrameStays(a, b, f) && SameFrame(a, b, f) && f != stack
  {
    hide R.SchedOk, R.Step, R.Enabled, FirstUnused, Taken, PhysOk;
    ForkSize(a.v, b.v, a.spaces[Current(a)], b.spaces[j], a.t.ctxs[Current(a)].segs, stack, priv, c);
    hide ForkMade;
    ForkApart(a.v, b.v, a.spaces[Current(a)], b.spaces[j], a.t.ctxs[Current(a)].segs, stack, priv, c, f);
  }

  lemma ForkSize(v: Phys, w: Phys, ps: Space, ct: Space, g: Segs, stack: nat, priv: map<nat, Node>, c: Config)
    requires ForkMade(v, w, ps, ct, g, stack, priv, c)
    ensures |w.mem| == |v.mem|
  {
    hide PhysOk, Holds, ChildPagesExactly, PL.Free;
  }

  lemma ExitFrame(a: World, b: World, c: Config, f: nat)
    requires WorldOk(a, c) && ExitedStep(a, b) && Taken(a.v.pt, f) && Apart(a, f)
    ensures FrameStays(a, b, f) && SameFrame(a, b, f)
  {
    KernelSlotHeld(a.v, a.t.ctxs, a.spaces, c, Current(a));
    HoldsShape(a.v, a.spaces[Current(a)]);
    hide WorldOk, R.SchedOk, R.Step, R.Enabled, Taken, PL.Give, PL.Shape, Holds;
    GivenOther(a.v.pt, a.t.ctxs[Current(a)].osStackPfn, f);
  }

  lemma StoreFrame(a: World, b: World, l: Node, k: nat, value: nat, c: Config, f: nat)
    requires WorldOk(a, c) && StoreStep(a, b, l, k, value) && Taken(a.v.pt, f)
    ensures FrameStays(a, b, f) && SameFrame(a, b, f)
  {
    hide WorldOk, StoreStep, PhysOk, Taken, PageTable.Store, WriteFlag;
    StepSpaces(a, b, l, k, value);
    StoreTarget(a, b, l, k, value, c);
    WorldPhys(a, c);
    TableNotUser(a.v, f);
    OneWord(a.v, a.spaces[Current(a)].ents[l].pfn, k, value, f);
  }

  lemma OneWord(v: Phys, g: nat, k: nat, value: nat, f: nat)
    requires PhysOk(v) && g < |v.mem| && k < ENTRIES && f != g
    ensures MemOk(v.mem) && |PageTable.Store(v.mem, g, k, value)| == |v.mem|
    ensures f < |v.mem| ==> PageTable.Store(v.mem, g, k, value)[f] == v.mem[f]
  {
    StoredPhys(v, g, k, value);
  }

  lemma StepSpaces(a: World, b: World, l: Node, k: nat, value: nat)
    requires StoreStep(a, b, l, k, value)
    ensures b.spaces == a.spaces && Current(a) in a.spaces && k < ENTRIES
  {
    hide W.Translate, InRange;
  }

  lemma PushFrame(a: World, b: World, act: Act, c: Config, f: nat)
    requires WorldStep(a, b, act, c) && (act.Schedule? || act.Deliver?) && Taken(a.v.pt, f)
    ensures FrameStays(a, b, f) && (PushSpares(a, act, {f}) ==> SameFrame(a, b, f))
  {
    PushIsDone(a, b, act, c);
    hide WorldStep, PushWrites, Apply, Spares, Taken;
    PushApart(a, act);
    SparedFrames(a.v.mem, PushWrites(a, act, W.Kernel).ws, {f});
  }

  /** Whatever is reserved stays so, and keeps its contents if no push hits it; on an exit
      the frames of the tree that is left behind are reserved too. */
  lemma ReservedStays(a: World, b: World, act: Act, c: Config, r: set<nat>)
    requires WorldOk(a, c) && WorldStep(a, b, act, c) && Reserved(a, r)
    ensures Reserved(b, r)
    ensures act.Exit? ==> Current(a) in a.spaces && Reserved(b, r + a.spaces[Current(a)].owner.Keys)
    ensures PushSpares(a, act, r) ==> forall f | f in r :: SameFrame(a, b, f)
  {
    hide PushWrites, WorldOk, WorldStep, Taken, FrameStays, SameFrame, Apart;
    forall f | f in r
      ensures Taken(b.v.pt, f) && Apart(b, f)
      ensures PushSpares(a, act, r) ==> SameFrame(a, b, f)
    {
      FrameStep(a, b, act, c, f);
      StillApart(a, b, act, c, f);
    }
    if act.Exit? {
      ExitTree(a, b, c);
      forall f | f in a.spaces[Current(a)].owner
        ensures Taken(b.v.pt, f) && Apart(b, f)
      {
        LeftBehind(a, b, c, f);
      }
    }
  }

  lemma ExitTree(a: World, b: World, c: Config)
    requires WorldStep(a, b, WholeKernel.Exit, c)
    ensures Current(a) in a.spaces
  {
    hide R.SchedOk, R.Step, R.Enabled;
  }

  lemma StillApart(a: World, b: World, act: Act, c: Config, f: nat)
    requires WorldOk(a, c) && WorldStep(a, b, act, c) && Taken(a.v.pt, f) && Apart(a, f) && FrameStays(a, b, f)
    ensures Taken(b.v.pt, f) && Apart(b, f)
  {
    hide WorldOk, WorldStep, Taken;
    forall i | i in b.spaces
      ensures f !in b.spaces[i].owner && (i < |b.t.ctxs| ==> f != b.t.ctxs[i].osStackPfn)
    {
      if i in a.spaces {
        StillThere(a, b, act, c, i);
        if i < |b.t.ctxs| {
          StacksStay(a, b, act, c, i);
        }
      } else {
        NewStack(a, b, act, c, i, f);
      }
    }
  }

  lemma StillThere(a: World, b: World, act: Act, c: Config, i: nat)
    requires WorldStep(a, b, act, c) && i in b.spaces
    ensures act.Exit? ==> i != Current(a)
  {
    hide R.SchedOk, R.Step, R.Enabled;
  }

  lemma NewStack(a: World, b: World, act: Act, c: Config, i: nat, f: nat)
    requires WorldOk(a, c) && WorldStep(a, b, act, c) && i in b.spaces && i !in a.spaces && Taken(a.v.pt, f)
    ensures i < |b.t.ctxs| ==> f != b.t.ctxs[i].osStackPfn
  {
    hide WorldOk, WorldStep, Taken, PhysOk, ForkedStep;
    WorldPhys(a, c);
    NewByFork(a, b, act, c, i);
    ForkFrame(a, b, i, act.stack, act.priv, c, f);
    ForkStack(a, b, i, act.stack, act.priv, c);
  }

  lemma NewByFork(a: World, b: World, act: Act, c: Config, i: nat)
    requires WorldStep(a, b, act, c) && i in b.spaces && i !in a.spaces
    ensures act.Fork? && act.j == i && ForkedStep(a, b, i, act.stack, act.priv, c)
  {
    hide R.SchedOk, R.Enabled, PushDone, Mapped, NewTables, Removed, ForkMade, ShrinkSafe, W.Translate, R.Step;
    hide InRange, PagePlace, SegOf, WithBreak, Aligned, PL.Supply, PL.Picked;
    hide PL.Take, PL.Shape, ReadOnlySide, WriteFlag;
    hide PL.Give, S.Delivered, S.Saved, FirstUnused;
  }

  lemma ForkStack(a: World, b: World, j: nat, stack: nat, priv: map<nat, Node>, c: Config)
    requires ForkedStep(a, b, j, stack, priv, c)
    ensures j < |b.t.ctxs| ==> b.t.ctxs[j].osStackPfn == stack
  {
    hide R.SlotOk, ForkMade, FirstUnused, S.Pick;
  }

  lemma LeftBehind(a: World, b: World, c: Config, f: nat)
    requires WorldOk(a, c) && WorldStep(a, b, WholeKernel.Exit, c) && Current(a) in a.spaces
    requires f in a.spaces[Current(a)].owner
    ensures Taken(b.v.pt, f) && Apart(b, f)
  {
    ExitSplit(a, b, c);
    KernelSlotHeld(a.v, a.t.ctxs, a.spaces, c, Current(a));
    HoldsShape(a.v, a.spaces[Current(a)]);
    OwnStack(a, c);
    hide WorldOk, WorldStep, PL.Give, PL.Shape;
    assert Taken(a.v.pt, f);
    GivenOther(a.v.pt, a.t.ctxs[Current(a)].osStackPfn, f);
    forall i | i in b.spaces
      ensures f !in b.spaces[i].owner && (i < |b.t.ctxs| ==> f != b.t.ctxs[i].osStackPfn)
    {
      OtherOwner(a, c, i);
      if i < |b.t.ctxs| {
        StacksStay(a, b, WholeKernel.Exit, c, i);
      }
    }
  }

  lemma ExitSplit(a: World, b: World, c: Config)
    requires WorldStep(a, b, WholeKernel.Exit, c)
    ensures Current(a) in a.spaces && Current(a) < |a.t.ctxs| && b.spaces == a.spaces - {Current(a)}
    ensures b.v == a.v.(pt := PL.Give(a.v.pt, a.t.ctxs[Current(a)].osStackPfn))
  {
    hide R.SchedOk, R.Step, R.Enabled;
  }

  lemma OwnStack(a: World, c: Config)
    requires WorldOk(a, c) && Current(a) in a.spaces && Current(a) < |a.t.ctxs|
    ensures a.t.ctxs[Current(a)].osStackPfn !in a.spaces[Current(a)].owner
  {
    KernelSlot(a.v, a.t.ctxs, a.spaces, c, Current(a));
  }

  lemma OtherOwner(a: World, c: Config, i: nat)
    requires WorldOk(a, c) && Current(a) in a.spaces && i in a.spaces && i != Current(a)
    ensures i < |a.t.ctxs| && Current(a) < |a.t.ctxs| && a.spaces[i].owner.Keys !! a.spaces[Current(a)].owner.Keys
    ensures a.t.ctxs[i].osStackPfn !in a.spaces[Current(a)].owner
  {
    KernelSlot(a.v, a.t.ctxs, a.spaces, c, i);
    KernelSlot(a.v, a.t.ctxs, a.spaces, c, Current(a));
    assert PairOk(a.t.ctxs[i], a.spaces[i], a.t.ctxs[Current(a)], a.spaces[Current(a)]);
    hide Live, Abs, R.SchedOk, SysOk;
  }

  // ---- The global -------------------------------------------------------

  /** What is reserved after an act: an exit leaves its tree behind. */
  function ReservedAfter(a: World, act: Act, r: set<nat>): set<nat> {
    if act.Exit? && Current(a) in a.spaces then r + a.spaces[Current(a)].owner.Keys else r
  }

  /** `os_pmd_pfn` after an act: a fork sets it. */
  function OsPmdAfter(b: World, act: Act, osPmd: nat): nat {
    if act.Fork? && act.j in b.spaces then OsPmdOf(b.spaces[act.j]) else osPmd
  }

  lemma OsPmdStaysTracked(a: World, b: World, act: Act, c: Config, r: set<nat>, osPmd: nat)
    requires WorldOk(a, c) && WorldStep(a, b, act, c) && OsPmdTracked(a, r, osPmd)
    ensures OsPmdTracked(b, ReservedAfter(a, act, r), OsPmdAfter(b, act, osPmd))
  {
    hide WorldOk, WorldStep;
    if act.Fork? {
      ForkThere(a, b, act, c);
    } else if osPmd !in r {
      var i :| i in a.spaces && osPmd == OsPmdOf(a.spaces[i]);
      HasPmd(a, c, i);
      if act.Exit? && i == Current(a) {
        assert osPmd in ReservedAfter(a, act, r);
      } else {
        TreeThere(a, b, act, c, i);
        TablesStay(a, b, act, c, i, Pmd(0, 0));
      }
    }
  }

  lemma ForkThere(a: World, b: World, act: Act, c: Config)
    requires WorldStep(a, b, act, c) && act.Fork?
    ensures act.j in b.spaces
  {
    hide R.SchedOk, R.Step, R.Enabled, ForkMade, FirstUnused;
  }

  lemma HasPmd(a: World, c: Config, i: nat)
    requires WorldOk(a, c) && i in a.spaces
    ensures Pmd(0, 0) in a.spaces[i].ents && OsPmdOf(a.spaces[i]) in a.spaces[i].owner
    ensures a.spaces[i].owner[OsPmdOf(a.spaces[i])] == Pmd(0, 0) && Taken(a.v.pt, OsPmdOf(a.spaces[i]))
  {
    KernelSlot(a.v, a.t.ctxs, a.spaces, c, i);
    hide WorldOk, Abs;
    LiveHolds(a.v, a.t.ctxs[i], a.spaces[i], c);
    hide Live, UserTree, KernelEntries;
    assert TableOwned(a.spaces[i], Pmd(0, 0));
  }

  lemma TreeThere(a: World, b: World, act: Act, c: Config, i: nat)
    requires WorldStep(a, b, act, c) && i in a.spaces && !(act.Exit? && i == Current(a))
    ensures i in b.spaces
  {
    hide R.SchedOk, R.Enabled, PushDone, Mapped, NewTables, Removed, ForkMade, ShrinkSafe, W.Translate, R.Step;
    hide InRange, PagePlace, SegOf, WithBreak, Aligned, PL.Supply, PL.Picked;
    hide PL.Take, PL.Shape, ReadOnlySide, WriteFlag;
    hide PL.Give, S.Delivered, S.Saved, FirstUnused;
  }

  /** So the last exit finds the global as the release of the tree needs it. */
  lemma OsPmdReady(a: World, c: Config, r: set<nat>, osPmd: nat)
    requires WorldOk(a, c) && Current(a) in a.spaces && Current(a) < |a.t.ctxs|
    requires forall i | i in a.spaces :: i == Current(a)
    requires Reserved(a, r) && OsPmdTracked(a, r, osPmd)
    ensures OsPmdKnown(a.v, a.t.ctxs[Current(a)], a.spaces[Current(a)], osPmd)
  {
    HasPmd(a, c, Current(a));
    OwnStack(a, c);
    hide WorldOk, Taken;
  }

  // ---- Runs -------------------------------------------------------------

  /** The frames reserved and the global, after n acts. */
  function ReservedAt(run: seq<World>, acts: seq<Act>, r: set<nat>, n: nat): set<nat>
    requires |run| == |acts| + 1 && n <= |acts|
  {
    if n == 0 then r else ReservedAfter(run[n - 1], acts[n - 1], ReservedAt(run, acts, r, n - 1))
  }

  function OsPmdAt(run: seq<World>, acts: seq<Act>, osPmd: nat, n: nat): nat
    requires |run| == |acts| + 1 && n <= |acts|
  {
    if n == 0 then osPmd else OsPmdAfter(run[n], acts[n - 1], OsPmdAt(run, acts, osPmd, n - 1))
  }

  /** Over every run: frames reserved at the start, and those that exited processes leave,
      stay allocated and outside every tree and OS stack, and the global names one of them
      or the kernel PMD of a live process. */
  lemma {:induction false} RunReserved(run: seq<World>, acts: seq<Act>, c: Config, r: set<nat>, osPmd: nat, n: nat)
    requires |run| == |acts| + 1 && n <= |acts| && WorldRun(run, acts, c) && WorldOk(run[0], c)
    requires TablesSpared(run, acts, n) && Reserved(run[0], r) && OsPmdTracked(run[0], r, osPmd)
    ensures Reserved(run[n], ReservedAt(run, acts, r, n))
    ensures OsPmdTracked(run[n], ReservedAt(run, acts, r, n), OsPmdAt(run, acts, osPmd, n))
  {
    hide WorldOk, WorldStep, WorldRun, Reserved, OsPmdTracked, ReservedAfter, OsPmdAfter, PushSpares, LiveTableFrames;
    if n > 0 {
      RunReserved(run, acts, c, r, osPmd, n - 1);
      RunOkAt(run, acts, c, n - 1);
      RunStep(run, acts, c, n - 1);
      var q := ReservedAt(run, acts, r, n - 1);
      ReservedGrows(run[n - 1], run[n], acts[n - 1], c, q);
      OsPmdStaysTracked(run[n - 1], run[n], acts[n - 1], c, q, OsPmdAt(run, acts, osPmd, n - 1));
    }
  }

  lemma ReservedGrows(a: World, b: World, act: Act, c: Config, r: set<nat>)
    requires WorldOk(a, c) && WorldStep(a, b, act, c) && Reserved(a, r)
    ensures Reserved(b, ReservedAfter(a, act, r))
  {
    hide WorldOk, WorldStep, Reserved;
    ReservedStays(a, b, act, c, r);
  }
}
