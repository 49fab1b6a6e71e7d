/** Runs of the whole kernel: what holds at every point, and what a process that is not
    running keeps. A signal's push is the one act for which both depend on the address. */
module Undisturbed {
  import opened Integers
  import opened PageTable
  import opened Physical
  import opened Install
  import opened KernelMap
  import opened Segments
  import opened Context
  import opened Fork
  import opened Shrink
  import opened Isolation
  import opened Kernel
  import opened KernelSteps
  import opened Syscalls
  import opened Deposit
  import opened Separation
  import KernelAccess
  import opened WholeKernel
  import Coexist
  import S = Scheduler
  import R = SchedulerRuns
  import W = Walk
  import PL = PageList

  // ---- Where a push goes ------------------------------------------------

  lemma PushCurrent(a: World, b: World, act: Act, c: Config)
    requires WorldOk(a, c) && WorldStep(a, b, act, c)
    ensures Current(a) in a.spaces || ActPush(a, act).NoPush?
  {
    Coexist.CurrentIsLive(a.v, a.t, a.spaces, c);
    hide KernelOk, R.SlotOk;
  }

  /** A push that the process could have made itself is the same when the kernel makes it. */
  lemma OwnPushSame(a: World, act: Act)
    requires OwnPush(a, act)
    ensures PushWrites(a, act, W.Kernel) == PushWrites(a, act, W.UserWrite)
  {
    hide ActPush, StoreAt;
    match ActPush(a, act)
    case NoPush =>
    case Push(address, value) => OwnStore(a.v.mem, a.t.ctxs[Current(a)].pgd, address, value);
  }

  /** It goes to pages of the process that are mapped writable, so to no table and to no
      page of another process. */
  lemma OwnPushTargets(a: World, act: Act, c: Config, i: nat)
    requires WorldOk(a, c) && OwnPush(a, act) && (Current(a) in a.spaces || ActPush(a, act).NoPush?)
    requires i < |PushWrites(a, act, W.UserWrite).ws|
    ensures var f := PushWrites(a, act, W.UserWrite).ws[i].frame;
      f !in LiveTableFrames(a) && forall j | j in a.spaces && j != Current(a) :: f !in MappedFrames(a.spaces[j])
  {
    hide WorldOk, ActPush, StoreAt, W.Translate, LiveTableFrames, MappedFrames;
    match ActPush(a, act)
    case NoPush =>
    case Push(address, value) =>
      var pgd := a.t.ctxs[Current(a)].pgd;
      OwnTargets(a.v.mem, pgd, address, value, i);
      var l: Node :| InRange(l) && W.Translate(a.v.mem, pgd, l, W.UserWrite)
                  == W.Frame(StoreAt(a.v.mem, pgd, address, value, W.UserWrite).ws[i].frame);
      OwnPage(a, l, c);
  }

  lemma TargetInMemory(a: World, l: Node, c: Config)
    requires WorldOk(a, c) && Current(a) in a.spaces && Current(a) < |a.t.ctxs| && InRange(l)
    requires W.Translate(a.v.mem, a.t.ctxs[Current(a)].pgd, l, W.UserWrite).Frame?
    ensures W.Translate(a.v.mem, a.t.ctxs[Current(a)].pgd, l, W.UserWrite).pfn < |a.v.mem| && MemOk(a.v.mem)
  {
    var s := a.spaces[Current(a)];
    KernelSlot(a.v, a.t.ctxs, a.spaces, c, Current(a));
    hide WorldOk, Abs, Live, Leaves, W.Translate, InRange;
    LiveHolds(a.v, a.t.ctxs[Current(a)], s, c);
    StorePath(a.v, s, l);
    FrameFacts(a, c, Current(a), l);
  }

  /** Where the running process may write, neither tables nor other processes are. */
  lemma OwnPage(a: World, l: Node, c: Config)
    requires WorldOk(a, c) && Current(a) in a.spaces && Current(a) < |a.t.ctxs| && InRange(l)
    requires W.Translate(a.v.mem, a.t.ctxs[Current(a)].pgd, l, W.UserWrite).Frame?
    ensures var f := W.Translate(a.v.mem, a.t.ctxs[Current(a)].pgd, l, W.UserWrite).pfn;
      f !in LiveTableFrames(a) && forall j | j in a.spaces && j != Current(a) :: f !in MappedFrames(a.spaces[j])
  {
    var i := Current(a);
    var s := a.spaces[i];
    KernelSlot(a.v, a.t.ctxs, a.spaces, c, i);
    hide KernelOk, R.SchedOk, Abs, Live, Leaves, W.Translate, InRange, LiveTableFrames, MappedFrames, WriteFlag;
    LiveHolds(a.v, a.t.ctxs[i], s, c);
    StorePath(a.v, s, l);
    NoTableThere(a, c, i, l);
    forall j | j in a.spaces && j != i
      ensures s.ents[l].pfn !in MappedFrames(a.spaces[j])
    {
      NoPageThere(a, c, i, j, l);
    }
  }

  lemma NoTableThere(a: World, c: Config, i: nat, l: Node)
    requires WorldOk(a, c) && i in a.spaces && l.Leaf? && l in a.spaces[i].ents
    ensures a.spaces[i].ents[l].pfn !in LiveTableFrames(a)
  {
    FrameFacts(a, c, i, l);
    hide PhysOk, PL.Free, KernelOk, R.SchedOk;
    forall j, f | j in a.spaces && f in a.spaces[j].owner
      ensures f != a.spaces[i].ents[l].pfn
    {
      KernelSlot(a.v, a.t.ctxs, a.spaces, c, j);
      hide Abs;
      KernelSlotHeld(a.v, a.t.ctxs, a.spaces, c, j);
      HeldTables(a.v, a.spaces[j]);
      TablesBelow(a.v);
    }
  }

  lemma TablesBelow(v: Phys)
    requires PhysOk(v)
    ensures v.pt.start + v.pt.size <= v.user.start
  {
  }

  lemma NoPageThere(a: World, c: Config, i: nat, j: nat, l: Node)
    requires WorldOk(a, c) && i in a.spaces && j in a.spaces && j != i && l.Leaf? && l in a.spaces[i].ents
    requires WriteFlag(a.spaces[i].ents[l])
    ensures a.spaces[i].ents[l].pfn !in MappedFrames(a.spaces[j])
  {
    KernelSlot(a.v, a.t.ctxs, a.spaces, c, i);
    KernelSlot(a.v, a.t.ctxs, a.spaces, c, j);
    KernelAbsOk(a.v, a.t.ctxs, a.spaces, c);
    AbsKeys(a.v, a.t.ctxs, a.spaces);
    hide WorldOk, SysOk, Abs, Leaves, Live, PL.Free, WriteFlag;
    LeavesAre(a.spaces[j]);
    LeavesAre(a.spaces[i]);
    forall n | n in a.spaces[j].ents && n.Leaf?
      ensures a.spaces[j].ents[n].pfn != a.spaces[i].ents[l].pfn
    {
      WritableApart(Abs(a.v, a.t.ctxs, a.spaces), i, j, l, n);
    }
  }

  /** So such a push changes no table and no page of another process. */
  lemma OwnPushSpares(a: World, b: World, act: Act, c: Config)
    requires WorldOk(a, c) && WorldStep(a, b, act, c) && OwnPush(a, act)
    ensures PushSpares(a, act, LiveTableFrames(a))
    ensures forall j | j in a.spaces && j != Current(a) :: PushSpares(a, act, MappedFrames(a.spaces[j]))
  {
    PushCurrent(a, b, act, c);
    OwnPushSame(a, act);
    hide WorldOk, WorldStep, ActPush, LiveTableFrames, MappedFrames, PushWrites, Spares;
    var ws := PushWrites(a, act, W.UserWrite).ws;
    forall i: nat | i < |ws|
      ensures ws[i].frame !in LiveTableFrames(a)
      ensures forall j | j in a.spaces && j != Current(a) :: ws[i].frame !in MappedFrames(a.spaces[j])
    {
      OwnPushTargets(a, act, c, i);
    }
    MissedSpares(a.v.mem, ws, LiveTableFrames(a));
    forall j | j in a.spaces && j != Current(a)
      ensures PushSpares(a, act, MappedFrames(a.spaces[j]))
    {
      MissedSpares(a.v.mem, ws, MappedFrames(a.spaces[j]));
    }
  }

  lemma MissedSpares(mem: Mem, ws: seq<Write>, frames: set<nat>)
    requires forall i: nat | i < |ws| :: ws[i].frame !in frames
    ensures Spares(mem, ws, frames)
  {
  }

  // ---- Pushes that break something --------------------------------------

  /** The first-level table of the running process: the kernel's push gets there, a user
      write does not, and no tree at all fits the memory left behind by an even value. */
  lemma PushIntoTable(a: World, act: Act, c: Config, k: nat, value: nat, spaces: map<nat, Space>)
    requires WorldOk(a, c) && Current(a) in a.spaces && Current(a) < |a.t.ctxs| && k < ENTRIES
    requires ActPush(a, act) == S.Push(a.t.ctxs[Current(a)].pgd * PAGE_SIZE + 8 * k, value)
    requires value % 2 == 0 && value != 0
    ensures MemOk(a.v.mem) && !OwnPush(a, act)
    ensures PushWrites(a, act, W.Kernel) == Writes([Write(a.t.ctxs[Current(a)].pgd, k, value)])
    ensures !KernelOk(a.v.(mem := Apply(a.v.mem, PushWrites(a, act, W.Kernel).ws)), a.t.ctxs, spaces, c)
  {
    hide KernelOk, R.SchedOk, W.Translate, LeafOf, ActPush, Apply, PushWrites, Live, PhysOk, KernelEntries, ConfigOk;
    var pgd := a.t.ctxs[Current(a)].pgd;
    RunningRoot(a, c);
    RootReach(a.v, a.spaces[Current(a)], c);
    PushAligned(a, act, pgd, k, value, W.Kernel);
    PushAligned(a, act, pgd, k, value, W.UserWrite);
    AppliedOne(a.v.mem, pgd, k, value);
    NoTreeFits(a.v.(mem := Apply(a.v.mem, [Write(pgd, k, value)])), a.t.ctxs, spaces, c, Current(a), k);
  }

  lemma RunningRoot(a: World, c: Config)
    requires WorldOk(a, c) && Current(a) in a.spaces && Current(a) < |a.t.ctxs|
    ensures var x, s := a.t.ctxs[Current(a)], a.spaces[Current(a)];
      && Holds(a.v, s) && UserTree(s) && ConfigOk(c) && KernelEntries(s, c) && s.root == x.pgd
      && 1 <= Current(a) < MAX_PROCESSES && x.state != Unused
  {
    KernelSlot(a.v, a.t.ctxs, a.spaces, c, Current(a));
    KernelTable(a.v, a.t.ctxs, a.spaces, c);
    hide PhysOk, R.SlotOk, Abs;
    LiveHolds(a.v, a.t.ctxs[Current(a)], a.spaces[Current(a)], c);
    hide Live;
  }

  /** The writes of an aligned push. */
  lemma PushAligned(a: World, act: Act, page: nat, k: nat, value: nat, access: W.Access)
    requires Current(a) < |a.t.ctxs| && k < ENTRIES && page < 0x8_0000_0000
    requires ActPush(a, act) == S.Push(page * PAGE_SIZE + 8 * k, value)
    ensures var t := W.Translate(a.v.mem, a.t.ctxs[Current(a)].pgd, LeafOf(page * 0x1000), access);
      PushWrites(a, act, access) == if t.Fault? then Refused else Writes([Write(t.pfn, k, value)])
  {
    hide W.Translate, ActPush, StoreAt;
    AlignedStore(a.v.mem, a.t.ctxs[Current(a)].pgd, page, k, value, access);
  }

  lemma RootReach(v: Phys, s: Space, c: Config)
    requires Holds(v, s) && UserTree(s) && ConfigOk(c) && KernelEntries(s, c)
    ensures s.root < |v.mem| && s.root < KERNEL_FRAMES && MemOk(v.mem)
    ensures W.Translate(v.mem, s.root, LeafOf(s.root * 0x1000), W.Kernel) == W.Frame(s.root)
    ensures W.Translate(v.mem, s.root, LeafOf(s.root * 0x1000), W.UserWrite) == W.Fault
  {
    assert TableOwned(s, Pgd) && Taken(v.pt, s.root);
    KernelAccess.TablesInReach(v, s, c, s.root);
    KernelAccess.TablesLow(v, s.root);
    W.FrameLeaf(s.root);
    var l := LeafOf(s.root * 0x1000);
    assert l in s.ents ==> NodeOk(s, l);
    hide W.Translate, UserTree, KernelEntries, PhysOk;
    W.UserWriteTranslation(v.mem, s, l);
  }

  lemma AppliedOne(mem: Mem, f: nat, k: nat, word: nat)
    requires MemOk(mem) && f < |mem| && k < ENTRIES
    ensures Apply(mem, [Write(f, k, word)])[f][k] == word
  {
    Applied(mem, [Write(f, k, word)], f, k);
    assert [Write(f, k, word)][0].frame == f;
  }

  /** An even word other than 0 in a first-level table is no entry of any tree. */
  lemma NoTreeFits(w: Phys, ctxs: seq<ExecContext>, spaces: map<nat, Space>, c: Config, i: nat, k: nat)
    requires 1 <= i < |ctxs| && i < MAX_PROCESSES && ctxs[i].state != Unused && k < ENTRIES && MemOk(w.mem)
    requires ctxs[i].pgd < |w.mem| && w.mem[ctxs[i].pgd][k] % 2 == 0 && w.mem[ctxs[i].pgd][k] != 0
    ensures !KernelOk(w, ctxs, spaces, c)
  {
    if KernelOk(w, ctxs, spaces, c) {
      assert i in spaces;
      KernelSlot(w, ctxs, spaces, c, i);
      hide KernelOk, Abs;
      LiveHolds(w, ctxs[i], spaces[i], c);
      RootEntry(w.mem, spaces[i], k);
    }
  }

  lemma RootEntry(mem: Mem, s: Space, k: nat)
    requires Wf(mem, s) && k < ENTRIES
    ensures s.root < |mem| && (mem[s.root][k] % 2 == 1 || mem[s.root][k] == 0)
  {
    assert SlotOk(mem, s, Pgd, k);
    if Pud(k) in s.ents {
      assert NodeOk(s, Pud(k));
      RawOdd(s.ents[Pud(k)]);
    }
  }

  /** A page that the running process shares with another one, as after a fork: the
      kernel's push gets there and changes the other's page, a user write does not. */
  lemma PushIntoShared(a: World, act: Act, c: Config, l: Node, j: nat, n: Node, k: nat, value: nat)
    requires WorldOk(a, c) && Current(a) in a.spaces && Current(a) < |a.t.ctxs| && k < ENTRIES
    requires j in a.spaces && j != Current(a) && l.Leaf? && n.Leaf?
    requires l in a.spaces[Current(a)].ents && n in a.spaces[j].ents
    requires a.spaces[Current(a)].ents[l].pfn == a.spaces[j].ents[n].pfn
    requires ActPush(a, act) == S.Push(VaOf(l) + 8 * k, value)
    requires ReadWord(a.v.mem, a.spaces[j].ents[n].pfn, k) != value
    ensures !OwnPush(a, act) && !PushSpares(a, act, MappedFrames(a.spaces[j]))
  {
    hide WorldOk, ActPush, W.Translate, LeafOf, VaOf, ReadWord, PushWrites;
    var f := a.spaces[j].ents[n].pfn;
    SharedPlace(a, c, l);
    SharedNotWritable(a, c, l, j, n);
    PushAligned(a, act, VaOf(l) / 0x1000, k, value, W.Kernel);
    PushAligned(a, act, VaOf(l) / 0x1000, k, value, W.UserWrite);
    FrameFacts(a, c, j, n);
    PhysSize(a.v);
    assert PushWrites(a, act, W.Kernel) == Writes([Write(f, k, value)]);
    assert [Write(f, k, value)][0] == Write(f, k, value) && f in MappedFrames(a.spaces[j]);
  }

  lemma PhysSize(v: Phys)
    requires PhysOk(v)
    ensures v.user.start + v.user.size <= |v.mem|
  {
  }

  lemma SharedNotWritable(a: World, c: Config, l: Node, j: nat, n: Node)
    requires WorldOk(a, c) && Current(a) in a.spaces && Current(a) < |a.t.ctxs|
    requires j in a.spaces && j != Current(a) && l.Leaf? && n.Leaf?
    requires l in a.spaces[Current(a)].ents && n in a.spaces[j].ents
    requires a.spaces[Current(a)].ents[l].pfn == a.spaces[j].ents[n].pfn
    ensures W.Translate(a.v.mem, a.t.ctxs[Current(a)].pgd, l, W.UserWrite) == W.Fault
  {
    hide WorldOk, W.Translate, LeafOf, VaOf;
    SharedPlace(a, c, l);
    assert a.spaces[j].ents[n].pfn in MappedFrames(a.spaces[j]);
    hide MappedFrames;
    var t := W.Translate(a.v.mem, a.t.ctxs[Current(a)].pgd, l, W.UserWrite);
    if t.Frame? {
      OwnPage(a, l, c);
      KernelReachesMore(a.v.mem, a.t.ctxs[Current(a)].pgd, l, W.UserWrite);
      assert false;
    }
  }

  lemma PageInRange(a: World, c: Config, j: nat, l: Node)
    requires WorldOk(a, c) && j in a.spaces && l.Leaf? && l in a.spaces[j].ents
    ensures InRange(l) && VaOf(l) < STACK_START
  {
    KernelSlot(a.v, a.t.ctxs, a.spaces, c, j);
    KernelAbsOk(a.v, a.t.ctxs, a.spaces, c);
    hide KernelOk, SysOk, Abs, Leaves, PL.Free, Live, R.SchedOk, PhysOk, VaOf;
    LeavesAre(a.spaces[j]);
    PageHolds(Abs(a.v, a.t.ctxs, a.spaces), j, l);
    PlaceLow(a.t.ctxs[j].segs, l);
  }

  lemma PlaceLow(g: Segs, l: Node)
    requires PagePlace(g, l) && SegsOk(g)
    ensures VaOf(l) < STACK_START
  {
  }

  lemma SharedPlace(a: World, c: Config, l: Node)
    requires WorldOk(a, c) && Current(a) in a.spaces && Current(a) < |a.t.ctxs|
    requires l.Leaf? && l in a.spaces[Current(a)].ents
    ensures InRange(l) && LeafOf(VaOf(l)) == l
    ensures VaOf(l) == VaOf(l) / 0x1000 * 0x1000 && VaOf(l) / 0x1000 < 0x8_0000_0000
    ensures W.Translate(a.v.mem, a.t.ctxs[Current(a)].pgd, l, W.Kernel) == W.Frame(a.spaces[Current(a)].ents[l].pfn)
  {
    hide W.Translate;
    PageInRange(a, c, Current(a), l);
    AddressOfPage(l);
    UserReach(a.v, a.t.ctxs, a.spaces, c, Current(a), l);
    KernelReachesMore(a.v.mem, a.t.ctxs[Current(a)].pgd, l, W.UserRead);
  }

  // ---- Runs -------------------------------------------------------------

  ghost predicate WorldRun(run: seq<World>, acts: seq<Act>, c: Config) {
    |run| == |acts| + 1 && forall n: nat | n < |acts| :: WorldStep(run[n], run[n + 1], acts[n], c)
  }

  ghost predicate HoldsUpTo(run: seq<World>, c: Config, n: nat)
    requires n < |run|
  {
    forall m: nat | m <= n :: WorldOk(run[m], c)
  }

  /** No push among the first n acts changes a table. */
  ghost predicate TablesSpared(run: seq<World>, acts: seq<Act>, n: nat)
    requires |run| == |acts| + 1 && n <= |acts|
  {
    forall m: nat | m < n :: PushSpares(run[m], acts[m], LiveTableFrames(run[m]))
  }

  ghost predicate OwnPushes(run: seq<World>, acts: seq<Act>, n: nat)
    requires |run| == |acts| + 1 && n <= |acts|
  {
    forall m: nat | m < n :: OwnPush(run[m], acts[m])
  }

  lemma RunStep(run: seq<World>, acts: seq<Act>, c: Config, n: nat)
    requires WorldRun(run, acts, c) && n < |acts|
    ensures WorldStep(run[n], run[n + 1], acts[n], c)
  {
  }

  /** Over every run: both invariants hold at every point if and only if no signal's push
      changes a table of a live process. */
  lemma {:induction false} RunWorldOk(run: seq<World>, acts: seq<Act>, c: Config, n: nat)
    requires WorldRun(run, acts, c) && n < |run| && WorldOk(run[0], c)
    ensures HoldsUpTo(run, c, n) <==> TablesSpared(run, acts, n)
  {
    hide WorldOk, WorldStep, PushSpares, LiveTableFrames;
    if n > 0 {
      RunWorldOk(run, acts, c, n - 1);
      RunStep(run, acts, c, n - 1);
      assert HoldsUpTo(run, c, n) <==> HoldsUpTo(run, c, n - 1) && WorldOk(run[n], c);
      assert TablesSpared(run, acts, n) <==>
        TablesSpared(run, acts, n - 1) && PushSpares(run[n - 1], acts[n - 1], LiveTableFrames(run[n - 1]));
      if WorldOk(run[n - 1], c) {
        ActKeeps(run[n - 1], run[n], acts[n - 1], c);
      }
    }
  }

  /** Both invariants hold at every point of every run whose pushes the processes could
      have made themselves, and no push changes a table. */
  lemma {:induction false} OwnPushesOk(run: seq<World>, acts: seq<Act>, c: Config, n: nat)
    requires WorldRun(run, acts, c) && n < |run| && WorldOk(run[0], c) && OwnPushes(run, acts, n)
    ensures WorldOk(run[n], c) && TablesSpared(run, acts, n)
  {
    hide WorldOk, WorldStep, PushSpares, LiveTableFrames, OwnPush;
    if n > 0 {
      OwnPushesOk(run, acts, c, n - 1);
      RunStep(run, acts, c, n - 1);
      OwnPushSpares(run[n - 1], run[n], acts[n - 1], c);
      ActKeeps(run[n - 1], run[n], acts[n - 1], c);
    }
  }

  lemma RunOkAt(run: seq<World>, acts: seq<Act>, c: Config, n: nat)
    requires |run| == |acts| + 1 && n <= |acts| && WorldRun(run, acts, c) && WorldOk(run[0], c)
    requires TablesSpared(run, acts, n)
    ensures WorldOk(run[n], c)
  {
    hide WorldOk, WorldRun, TablesSpared;
    RunWorldOk(run, acts, c, n);
  }

  /** Tables never go while the process lives, and their entries stay as they are. */
  lemma TablesStay(a: World, b: World, act: Act, c: Config, j: nat, n: Node)
    requires WorldStep(a, b, act, c) && j in a.spaces && j in b.spaces && !n.Leaf? && n in a.spaces[j].ents
    ensures n in b.spaces[j].ents && b.spaces[j].ents[n] == a.spaces[j].ents[n]
  {
    hide R.SchedOk, R.Step, R.Enabled, Mapped, ForkMade, Abs, ShrinkSafe, PL.Free, S.Sized, S.Saved, InRange;
    hide PagePlace, ReadOnlySide, WriteFlag, PL.Shape, PL.Supply, PL.Picked, PL.Take, SegOf, Aligned, WithBreak;
    hide W.Translate, PushDone, Holds, Grown, UserTree, FramesOf;
  }

  lemma WorldIsolated(a: World, c: Config)
    requires WorldOk(a, c)
    ensures Isolated(Abs(a.v, a.t.ctxs, a.spaces))
  {
    KernelAbsOk(a.v, a.t.ctxs, a.spaces, c);
    hide WorldOk, SysOk, Isolated, Abs;
    InvariantIsolates(Abs(a.v, a.t.ctxs, a.spaces));
  }

  // ---- Page contents ----------------------------------------------------

  /** The pages of a tree have the same contents in both memories. */
  predicate SameContents(v: Phys, w: Phys, s: Space) {
    |w.mem| == |v.mem|
    && forall l | l in s.ents && l.Leaf? && s.ents[l].pfn < |v.mem| :: w.mem[s.ents[l].pfn] == v.mem[s.ents[l].pfn]
  }

  /** A live process's frames are user frames, and none of them is marked free. */
  lemma FrameFacts(a: World, c: Config, j: nat, l: Node)
    requires WorldOk(a, c) && j in a.spaces && l.Leaf? && l in a.spaces[j].ents
    ensures a.v.user.start < a.spaces[j].ents[l].pfn < a.v.user.start + a.v.user.size
    ensures a.spaces[j].ents[l].pfn !in PL.Free(a.v.user) && PhysOk(a.v)
  {
    KernelSlot(a.v, a.t.ctxs, a.spaces, c, j);
    KernelAbsOk(a.v, a.t.ctxs, a.spaces, c);
    AbsKeys(a.v, a.t.ctxs, a.spaces);
    hide KernelOk, SysOk, Abs, Leaves, PL.Free, Live, R.SchedOk, PhysOk;
    LiveUser(a.v, a.t.ctxs[j], a.spaces[j], c);
    LeavesAre(a.spaces[j]);
    PageHolds(Abs(a.v, a.t.ctxs, a.spaces), j, l);
  }

  /** Growing or cutting a tree writes only page-table frames. */
  lemma GrownContents(v: Phys, s: Space, w: Phys, t: Space, o: Space)
    requires PhysOk(v) && Holds(w, t) && Grown(v, s, w, t)
    requires forall l | l in o.ents && l.Leaf? :: v.user.start < o.ents[l].pfn
    ensures SameContents(v, w, o)
  {
    HeldTables(w, t);
    hide PL.Free, PL.Supply, Wf, PL.Shape, PL.Ledger;
  }

  lemma HeldTables(w: Phys, t: Space)
    requires Holds(w, t)
    ensures forall f | f in t.owner :: f < w.pt.start + w.pt.size
  {
    hide Wf, PhysOk;
    forall f | f in t.owner
      ensures f < w.pt.start + w.pt.size
    {
      assert Taken(w.pt, f);
    }
  }

  lemma KeptContents(v: Phys, w: Phys, o: Space)
    requires PhysOk(v) && KeptHeld(v, w)
    requires forall l | l in o.ents && l.Leaf? :: v.user.start < o.ents[l].pfn && o.ents[l].pfn !in PL.Free(v.user)
    ensures SameContents(v, w, o)
  {
    NoUserTables(v);
    hide PL.Free, PhysOk;
  }

  lemma NoUserTables(v: Phys)
    requires PhysOk(v)
    ensures forall f | f in PL.Free(v.pt) :: f < v.user.start
  {
  }

  /** A push keeps the pages of a tree exactly when it spares their frames. */
  lemma PushContents(a: World, b: World, act: Act, s: Space)
    requires PushDone(a, b, act)
    ensures SameContents(a.v, b.v, s) <==> PushSpares(a, act, MappedFrames(s))
  {
    hide PushWrites, Apply, Spares;
    PushApart(a, act);
    var ws := PushWrites(a, act, W.Kernel).ws;
    SparedFrames(a.v.mem, ws, MappedFrames(s));
    assert forall l | l in s.ents && l.Leaf? :: s.ents[l].pfn in MappedFrames(s);
  }

  /** A push is the kernel's with its own rights. */
  lemma PushIsDone(a: World, b: World, act: Act, c: Config)
    requires WorldStep(a, b, act, c) && (act.Schedule? || act.Deliver?)
    ensures PushDone(a, b, act) && b.spaces == a.spaces
  {
    hide PushDone, R.SchedOk, R.Step, R.Enabled;
  }

  /** The kernel's other acts change no page of any live process. */
  lemma KernelActContents(a: World, b: World, act: Act, c: Config, j: nat)
    requires WorldOk(a, c) && WorldStep(a, b, act, c) && j in a.spaces
    requires !act.Store? && !act.Schedule? && !act.Deliver?
    ensures SameContents(a.v, b.v, a.spaces[j])
  {
    hide SameContents, PushDone, ScheduleStep, DeliverStep, StoreStep;
    hide WorldOk, R.SchedOk, R.Step, R.Enabled, Abs, ShrinkSafe, PL.Free, Grown, Holds, KeptHeld, PhysOk;
    hide InRange, PagePlace, ReadOnlySide, WriteFlag, PL.Shape, PL.Supply, PL.Picked;
    hide PL.Take, SegOf, Aligned, WithBreak;
    forall l | l in a.spaces[j].ents && l.Leaf?
      ensures a.v.user.start < a.spaces[j].ents[l].pfn && a.spaces[j].ents[l].pfn !in PL.Free(a.v.user)
    {
      FrameFacts(a, c, j, l);
    }
    WorldPhys(a, c);
    match act
    case PageFault(l, p) => GrownContents(a.v, a.spaces[Current(a)], b.v, b.spaces[Current(a)], a.spaces[j]);
    case Shrink(_, _) => GrownContents(a.v, a.spaces[Current(a)], b.v, b.spaces[Current(a)], a.spaces[j]);
    case Fork(_, _, _) => KeptContents(a.v, b.v, a.spaces[j]);
    case Save => SameMemory(a.v, b.v, a.spaces[j]);
    case Expand(_, _) => SameMemory(a.v, b.v, a.spaces[j]);
    case Exit => SameMemory(a.v, b.v, a.spaces[j]);
    case _ =>
  }

  lemma SameMemory(v: Phys, w: Phys, s: Space)
    requires w.mem == v.mem
    ensures SameContents(v, w, s)
  {
  }

  lemma WorldPhys(a: World, c: Config)
    requires WorldOk(a, c)
    ensures PhysOk(a.v)
  {
    KernelTable(a.v, a.t.ctxs, a.spaces, c);
  }

  /** A store reaches no page of another process. */
  lemma StoreContents(a: World, b: World, l: Node, k: nat, value: nat, c: Config, j: nat)
    requires WorldOk(a, c) && StoreStep(a, b, l, k, value) && j in a.spaces && j != Current(a)
    ensures SameContents(a.v, b.v, a.spaces[j])
  {
    StoreTarget(a, b, l, k, value, c);
    KernelSlot(a.v, a.t.ctxs, a.spaces, c, Current(a));
    KernelSlot(a.v, a.t.ctxs, a.spaces, c, j);
    KernelAbsOk(a.v, a.t.ctxs, a.spaces, c);
    AbsKeys(a.v, a.t.ctxs, a.spaces);
    hide WorldOk, StoreStep, SysOk, Abs, Leaves, Live, PL.Free, WriteFlag;
    LeavesAre(a.spaces[j]);
    LeavesAre(a.spaces[Current(a)]);
    forall n | n in a.spaces[j].ents && n.Leaf?
      ensures a.spaces[j].ents[n].pfn != a.spaces[Current(a)].ents[l].pfn
    {
      WritableApart(Abs(a.v, a.t.ctxs, a.spaces), Current(a), j, l, n);
    }
  }

  /** Whatever the running process and the kernel on its behalf do, every other process
      keeps its tree, and so its page map, and the contents of every page, those exactly
      when a signal's push spares them. */
  lemma OthersUndisturbed(a: World, b: World, act: Act, c: Config, j: nat)
    requires WorldOk(a, c) && WorldStep(a, b, act, c) && j in a.spaces && j != Current(a)
    ensures j in b.spaces && b.spaces[j] == a.spaces[j]
    ensures SameContents(a.v, b.v, a.spaces[j]) <==> PushSpares(a, act, MappedFrames(a.spaces[j]))
  {
    hide WorldOk, SameContents, WorldStep, PushSpares, MappedFrames, PushDone, StoreStep;
    OtherTrees(a, b, act, c, j);
    if act.Schedule? || act.Deliver? {
      PushIsDone(a, b, act, c);
      PushContents(a, b, act, a.spaces[j]);
    } else {
      NoPushSpares(a, act, MappedFrames(a.spaces[j]));
      if act.Store? {
        IsStoreStep(a, b, act, c);
        StoreContents(a, b, act.l, act.k, act.value, c, j);
      } else {
        KernelActContents(a, b, act, c, j);
      }
    }
  }

  lemma IsStoreStep(a: World, b: World, act: Act, c: Config)
    requires act.Store? && WorldStep(a, b, act, c)
    ensures StoreStep(a, b, act.l, act.k, act.value)
  {
  }

  lemma OtherTrees(a: World, b: World, act: Act, c: Config, j: nat)
    requires WorldStep(a, b, act, c) && j in a.spaces && j != Current(a)
    ensures j in b.spaces && b.spaces[j] == a.spaces[j]
  {
    hide R.SchedOk, R.Step, R.Enabled, Mapped, Removed, ForkMade, Abs, ShrinkSafe, PL.Free, S.Sized, S.Saved, InRange;
    hide PagePlace, ReadOnlySide, WriteFlag, PL.Shape, PL.Supply, PL.Picked, PL.Take, SegOf, Aligned, WithBreak;
    hide W.Translate, PushDone;
  }

  /** Pushes in a stretch of a run spare the pages of a tree. */
  ghost predicate PagesSpared(run: seq<World>, acts: seq<Act>, s: Space, m: nat, n: nat)
    requires |run| == |acts| + 1 && m <= n <= |acts|
  {
    forall k: nat | m <= k < n :: PushSpares(run[k], acts[k], MappedFrames(s))
  }

  /** Over every run: a process that has not run in between finds its whole address space
      as it left it, if no push meanwhile hit one of its pages. */
  lemma {:induction false} RunUndisturbed(run: seq<World>, acts: seq<Act>, c: Config, j: nat, m: nat, n: nat)
    requires WorldRun(run, acts, c) && WorldOk(run[0], c) && m <= n < |run| && j in run[m].spaces
    requires forall k: nat | m <= k < n :: Current(run[k]) != j
    requires TablesSpared(run, acts, n) && PagesSpared(run, acts, run[m].spaces[j], m, n)
    ensures j in run[n].spaces && run[n].spaces[j] == run[m].spaces[j]
    ensures SameContents(run[m].v, run[n].v, run[m].spaces[j])
    decreases n
  {
    hide WorldOk, WorldStep, PushSpares, LiveTableFrames, MappedFrames;
    if m < n {
      RunUndisturbed(run, acts, c, j, m, n - 1);
      RunWorldOk(run, acts, c, n - 1);
      RunStep(run, acts, c, n - 1);
      assert Current(run[n - 1]) != j && PushSpares(run[n - 1], acts[n - 1], MappedFrames(run[m].spaces[j]));
      OthersUndisturbed(run[n - 1], run[n], acts[n - 1], c, j);
    }
  }

  /** In particular if every push went where its process could have written itself. */
  lemma {:induction false} OwnPushesUndisturbed(run: seq<World>, acts: seq<Act>, c: Config, j: nat, m: nat, n: nat)
    requires WorldRun(run, acts, c) && WorldOk(run[0], c) && m <= n < |run| && j in run[m].spaces
    requires (forall k: nat | m <= k < n :: Current(run[k]) != j) && OwnPushes(run, acts, n)
    ensures j in run[n].spaces && run[n].spaces[j] == run[m].spaces[j]
    ensures SameContents(run[m].v, run[n].v, run[m].spaces[j])
    decreases n
  {
    hide WorldOk, WorldStep, PushSpares, LiveTableFrames, MappedFrames, OwnPush;
    if m < n {
      OwnPushesUndisturbed(run, acts, c, j, m, n - 1);
      OwnPushesOk(run, acts, c, n - 1);
      RunStep(run, acts, c, n - 1);
      assert Current(run[n - 1]) != j && OwnPush(run[n - 1], acts[n - 1]);
      OwnPushSpares(run[n - 1], run[n], acts[n - 1], c);
      OthersUndisturbed(run[n - 1], run[n], acts[n - 1], c, j);
    }
  }
}
