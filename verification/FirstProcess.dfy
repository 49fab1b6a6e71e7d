/** The first process: `create_context` and `exec_init` (context.c) up to the jump to
    user mode. */
module FirstProcess {
  import opened PageTable
  import opened Physical
  import opened Install
  import opened InstallMulti
  import opened KernelMap
  import opened Segments
  import opened Context
  import opened Fork
  import opened CopyWhole
  import opened Teardown
  import opened Isolation
  import opened Kernel
  import opened KernelSteps
  import opened Lifecycle
  import opened Syscalls
  import PL = PageList

  /** The frame at which the boot image holds the init program (0x200000). */
  const TEXT_FRAME: nat := 0x200

  /** The segments `create_context` fills in; it leaves three of the four break
      pointers as they were. */
  function CreatedSegs(g: Segs): Segs {
    Segs(Segment(CODE_START, RODATA_START - 1, g.code.nextFree, 5),
         Segment(RODATA_START, DATA_START - 1, RODATA_START, 1),
         Segment(DATA_START, STACK_START - MAX_STACK_SIZE - 1, g.data.nextFree, 3),
         Segment(STACK_START - MAX_STACK_SIZE, STACK_START, g.stack.nextFree, 3))
  }

  function CreatedContext(x: ExecContext, slot: nat, stack: nat): ExecContext {
    x.(pid := slot, state := New, pgd := 0, osStackPfn := stack, segs := CreatedSegs(x.segs))
  }

  /** Where the segments lie, and what they grant (1 read, 2 write, 4 execute). */
  predicate Placed(g: Segs) {
    && g.code.start == 0x1_0000_0000 && g.code.end == 0x1_3FFF_FFFF && g.code.accessFlags == 5
    && g.rodata.start == g.rodata.nextFree == 0x1_4000_0000 && g.rodata.end == 0x1_7FFF_FFFF
    && g.rodata.accessFlags == 1
    && g.data.start == 0x1_8000_0000 && g.data.end == 0x7_FEFF_FFFF && g.data.accessFlags == 3
    && g.stack.start == 0x7_FF00_0000 && g.stack.end == 0x8_0000_0000 && g.stack.accessFlags == 3
  }

  lemma CreatedValues(g0: Segs)
    ensures Placed(CreatedSegs(g0)) && Placed(InitSegs(g0))
    ensures InitSegs(g0).code.nextFree == 0x1_0000_8000 && InitSegs(g0).rodata.nextFree == 0x1_4000_0000
    ensures InitSegs(g0).data.nextFree == 0x1_8000_1000 && InitSegs(g0).stack.nextFree == 0x7_FFFF_F000
  {
  }

  /** `create_context`. */
  method CreateContext(sys: System) returns (slot: nat)
    requires sys.m.Valid() && sys.ctxs !in sys.m.Objs()
    requires FirstUnused(sys.ctxs[..]) < sys.ctxs.Length && PL.Supply(sys.m.pt.Value()) != {}
    modifies sys.ctxs, sys.m.Objs()
    ensures sys.m.Valid() && slot == FirstUnused(old(sys.ctxs[..]))
    ensures sys.m.Value() == TakeTable(old(sys.m.Value()))
    ensures sys.ctxs[..] == old(sys.ctxs[..])[slot :=
      CreatedContext(old(sys.ctxs[..])[slot], slot, PL.Picked(old(sys.m.pt.Value())))]
    ensures var x, y := old(sys.ctxs[..])[slot], sys.ctxs[..][slot];
      y == x.(pid := slot, state := New, pgd := 0, osStackPfn := PL.Picked(old(sys.m.pt.Value())), segs := y.segs)
    ensures Placed(sys.ctxs[..][slot].segs)
  {
    CreatedValues(sys.ctxs[..][FirstUnused(sys.ctxs[..])].segs);
    hide Placed;
    hide PhysOk, PL.PageList.Value, PL.Supply, PL.Picked, CreatedSegs;
    slot := GetNewCtx(sys.ctxs);
    var x := sys.ctxs[slot];
    var stack := sys.m.FreshTable();
    sys.SetContext(slot, x.(state := New, pgd := 0, osStackPfn := stack, segs := CreatedSegs(x.segs)));
  }

  // ---- The tree ---------------------------------------------------------

  function CodeLeaf(): Node { LeafOf(CODE_START) }
  function DataLeaf(): Node { LeafOf(DATA_START) }
  function StackLeaf(): Node { LeafOf(STACK_START - PAGE_SIZE) }

  lemma InitLeaves()
    ensures CodeLeaf() == Leaf(0, 4, 0, 0) && DataLeaf() == Leaf(0, 6, 0, 0) && StackLeaf() == Leaf(0, 31, 511, 511)
    ensures !KernelSide(CodeLeaf()) && !KernelSide(DataLeaf()) && !KernelSide(StackLeaf())
  {
  }

  /** The page map of the init process: eight code pages in a row on consecutive
      frames, read-only; the first data page; the topmost stack page. */
  predicate InitPages(pages: map<Node, Pte>, text: nat, data: nat, stack: nat) {
    pages == RunLeaves(map[], CodeLeaf(), text, CODE_PAGES, 5)[DataLeaf() := Pte(data, 7)][StackLeaf() := Pte(stack, 7)]
  }

  /** Nothing below the page-table region has changed. */
  predicate LowKept(v: Phys, w: Phys) {
    |w.mem| == |v.mem| && v.pt.start <= |v.mem| && w.pt.start == v.pt.start
    && forall f: nat | f < v.pt.start :: w.mem[f] == v.mem[f]
  }

  lemma LowStep(v: Phys, w: Phys, t: Space, x: Phys, u: Space)
    requires LowKept(v, w) && Grown(w, t, x, u) && Holds(x, u)
    ensures LowKept(v, x)
  {
    hide PL.Free, PL.Supply, Wf;
    forall f: nat | f < v.pt.start
      ensures x.mem[f] == v.mem[f]
    {
      assert f in u.owner ==> Taken(x.pt, f);
    }
  }

  /** The tables of init's own pages. */
  function InitTables(): set<Node> {
    {Pud(0), Pmd(0, 4), Pt(0, 4, 0), Pmd(0, 6), Pt(0, 6, 0), Pmd(0, 31), Pt(0, 31, 511)}
  }

  /** Before the kernel's entries are added: only user-side tables and pages. */
  ghost predicate UserOnly(s: Space) {
    Pud(0) in s.ents && Huges(s) == map[] && forall n | n in s.ents && !n.Leaf? :: n in InitTables()
  }

  lemma RootOnly(f: nat)
    ensures Huges(RootSpace(f)) == map[] && Leaves(RootSpace(f)) == map[] && RootSpace(f).root == f
    ensures RootSpace(f).ents == map[]
  {
  }

  lemma AfterCode(v: Phys, w: Phys, f: nat, x: Phys, u: Space)
    requires Built(v, w, RootSpace(f)) && PhysOk(w) && LowKept(v, w) && |PL.Supply(w.user)| >= CODE_PAGES
    requires MultiMapped(w, RootSpace(f), x, u, CodeLeaf(), CODE_PAGES, 5) && x.user == PL.TakeN(w.user, CODE_PAGES)
    requires PL.ClearRun(w.user, PL.Picked(w.user), CODE_PAGES)
    ensures Built(v, x, u) && UserOnly(u) && LowKept(v, x) && PhysOk(x)
    ensures Leaves(u) == RunLeaves(map[], CodeLeaf(), PL.Picked(w.user), CODE_PAGES, 5)
    ensures |PL.Supply(x.pt)| == |PL.Supply(w.pt)| - 3 && |PL.Supply(x.user)| == |PL.Supply(w.user)| - CODE_PAGES
    ensures u.root == f
  {
    hide PL.Shape, PL.Ledger, PL.Supply, PL.Free, PL.TakeN, PL.ClearRun, PL.Picked, Built, Holds, Leaves;
    hide Huges, UserTree, Wf, MultiLeaves, RunLeaves, InRun;
    RootOnly(f);
    UserShape(w);
    BuiltMapRun(v, w, RootSpace(f), x, u, CodeLeaf(), CODE_PAGES, 5);
    ConsecutiveLeaves(map[], CodeLeaf(), w.user, CODE_PAGES, CODE_PAGES, 5);
    LowStep(v, w, RootSpace(f), x, u);
    TakeNEffect(w.user, CODE_PAGES);
    HeldPhys(x, u);
    InitLeaves();
    hide LeafOf, Grown;
    assert UserOnly(u);
  }

  lemma AfterPage(v: Phys, w: Phys, t: Space, x: Phys, u: Space, l: Node, p: Pte)
    requires Built(v, w, t) && PhysOk(w) && LowKept(v, w) && UserOnly(t) && l !in Leaves(t)
    requires l == DataLeaf() || l == StackLeaf()
    requires l.Leaf? && Mapped(w, t, x, u, l, p) && PL.Supply(w.user) != {} && p.pfn == PL.Picked(w.user)
    requires x.user == PL.Take(w.user)
    ensures Built(v, x, u) && UserOnly(u) && LowKept(v, x) && PhysOk(x)
    ensures Leaves(u) == Leaves(t)[l := p]
    ensures |PL.Supply(x.pt)| >= |PL.Supply(w.pt)| - 2 && |PL.Supply(x.user)| == |PL.Supply(w.user)| - 1
    ensures u.root == t.root
  {
    hide PL.Shape, PL.Ledger, PL.Supply, PL.Free, PL.Take, PL.Picked, Built, Holds, Leaves, Huges, UserTree, Wf;
    NotLeaf(t, l);
    BuiltMapPage(v, w, t, x, u, l, p);
    LowStep(v, w, t, x, u);
    HeldPhys(x, u);
    TakeFrame(w.user);
    InitLeaves();
    hide LeafOf, Grown;
    assert UserOnly(u);
  }

  /** At most two tables are missing for a page once the PUD table is there. */
  lemma MissingTwo(t: Space, l: Node)
    requires UserOnly(t) && (l == DataLeaf() || l == StackLeaf())
    ensures l.Leaf? && Missing(t, l) <= 2
  {
    InitLeaves();
    hide LeafOf;
  }

  lemma AfterKernel(v: Phys, w: Phys, t: Space, x: Phys, u: Space, c: Config)
    requires Built(v, w, t) && PhysOk(w) && LowKept(v, w) && UserOnly(t) && ConfigOk(c)
    requires KernelGrown(w, t, x, u) && Pmd(0, 0) in u.ents
    requires Huges(u) == IdentityHuges(Huges(t), c, OS_PT_MAPS)[ApicSlot(c) := ApicPte(c)]
    requires forall l | l in Leaves(t) :: !Skipped(l)
    ensures Built(v, x, u) && LowKept(v, x) && PhysOk(x) && ProcessTree(u, c) && KernelEntries(u, c)
    ensures Leaves(u) == Leaves(t) && u.root == t.root
  {
    hide PL.Supply, PL.Free, Built, UserTree, ConfigOk, ApicSlot, Leaves, IdentityHuges, Huges, Holds, PhysOk;
    hide ProcessTree, Skipped;
    BuiltMapKernel(v, w, t, x, u);
    LowStep(v, w, t, x, u);
    HeldPhys(x, u);
    InitTree(w, t, x, u, c);
    KernelRoot(w, t, x, u);
  }

  lemma InitTree(w: Phys, t: Space, x: Phys, u: Space, c: Config)
    requires UserOnly(t) && ConfigOk(c) && KernelGrown(w, t, x, u) && Pmd(0, 0) in u.ents
    requires KernelEntries(u, c)
    requires forall l | l in Leaves(t) :: !Skipped(l)
    ensures ProcessTree(u, c)
  {
    assert ApicSlot(c) in Huges(u);
    KernelGrownKeeps(w, t, x, u);
    HeldShaped(x, u);
    hide Shaped, Skipped, SideOk, ApicSlot, IdentityHuges, Leaves, Holds, Grown, ConfigOk, UserTree, UserOnly;
    forall n | n in u.ents
      ensures SideOk(n, c)
    {
      InitSide(w, t, x, u, c, n);
    }
  }

  lemma InitSide(w: Phys, t: Space, x: Phys, u: Space, c: Config, n: Node)
    requires UserOnly(t) && KernelGrown(w, t, x, u) && Shaped(u) && n in u.ents
    requires KernelEntries(u, c)
    requires forall l | l in Leaves(t) :: !Skipped(l)
    ensures SideOk(n, c)
  {
    hide PL.Supply, PL.Free, Grown, UserTree, ApicSlot, Holds, IdentityHuges, Wf;
    assert NodeOk(u, n);
    if Huge(n) {
      assert n in Huges(u);
      IdentityHugesAt(map[], c, OS_PT_MAPS, n);
    } else if n in t.ents {
      assert n.Leaf? ==> n in Leaves(t);
    }
  }

  // ---- The page map -----------------------------------------------------

  lemma CodePages(text: nat)
    ensures var r := RunLeaves(map[], CodeLeaf(), text, CODE_PAGES, 5);
      && DataLeaf() !in r && StackLeaf() !in r[DataLeaf() := Pte(0, 7)]
      && (forall l | l in r :: l.Leaf? && l.a == 0 && l.b == 4)
  {
    InitLeaves();
    hide LeafOf;
    forall l: Node
      ensures l in RunLeaves(map[], CodeLeaf(), text, CODE_PAGES, 5) ==> InRun(CodeLeaf(), CODE_PAGES, l)
    {
      RunLeavesAt(map[], CodeLeaf(), text, CODE_PAGES, 5, l);
    }
  }

  /** Which pages these are, by address. */
  lemma InitPagesAt(pages: map<Node, Pte>, text: nat, data: nat, stack: nat, l: Node)
    requires InitPages(pages, text, data, stack)
    ensures l in pages <==>
      (exists k: nat | k < CODE_PAGES :: l == Leaf(0, 4, 0, k)) || l == DataLeaf() || l == StackLeaf()
    ensures forall k: nat | k < CODE_PAGES :: Leaf(0, 4, 0, k) in pages && pages[Leaf(0, 4, 0, k)] == Pte(text + k, 5)
    ensures pages[DataLeaf()] == Pte(data, 7) && pages[StackLeaf()] == Pte(stack, 7)
  {
    InitLeaves();
    hide LeafOf, CodeLeaf, DataLeaf, StackLeaf;
    RunLeavesAt(map[], CodeLeaf(), text, CODE_PAGES, 5, l);
    assert InRun(CodeLeaf(), CODE_PAGES, l) ==> l == Leaf(0, 4, 0, l.d);
    forall k: nat | k < CODE_PAGES
      ensures Leaf(0, 4, 0, k) in pages && pages[Leaf(0, 4, 0, k)] == Pte(text + k, 5)
    {
      RunLeavesAt(map[], CodeLeaf(), text, CODE_PAGES, 5, Leaf(0, 4, 0, k));
    }
  }

  lemma NothingSkipped(pages: map<Node, Pte>, text: nat, data: nat, stack: nat)
    requires InitPages(pages, text, data, stack)
    ensures forall l | l in pages :: !Skipped(l)
  {
    InitLeaves();
    hide LeafOf, CodeLeaf, DataLeaf, StackLeaf, InitPages;
    forall l | l in pages
      ensures !Skipped(l)
    {
      InitPagesAt(pages, text, data, stack, l);
    }
  }

  /** What `exec_init` leaves in the segments. */
  function InitSegs(g: Segs): Segs {
    var c := CreatedSegs(g);
    Segs(c.code.(nextFree := CODE_START + CODE_PAGES * PAGE_SIZE), c.rodata,
         c.data.(nextFree := DATA_START + PAGE_SIZE), c.stack.(nextFree := STACK_START - PAGE_SIZE))
  }

  lemma InitSegsOk(g: Segs)
    ensures SegsOk(InitSegs(g))
  {
  }

  predicate EnoughForInit(v: Phys) {
    && |PL.Supply(v.pt)| >= 10 && |PL.Supply(v.user)| >= CODE_PAGES + 2
    && PL.Shape(v.user) && PL.ClearRun(v.user, PL.Picked(v.user), CODE_PAGES)
  }

  lemma InitRoot(v: Phys)
    requires PhysOk(v) && EnoughForInit(v)
    ensures PL.Supply(v.pt) != {}
    ensures var f, w := PL.Picked(v.pt), TakeTable(v);
      && Built(v, w, RootSpace(f)) && LowKept(v, w) && PhysOk(w) && Holds(w, RootSpace(f)) && RootSpace(f).root == f
      && w.user == v.user && |PL.Supply(w.pt)| >= 9 && Missing(RootSpace(f), CodeLeaf()) <= 3
      && f < |w.mem| && w.mem[f := ZeroFrame()] == w.mem
  {
    hide PL.Supply, PL.ClearRun, PL.Shape, PL.Ledger, PL.Take, PL.Picked, Wf, UserTree, PL.Free, CodeLeaf, LeafOf;
    BuiltStart(v);
    TakeTableFrame(v);
    TakeTableOk(v);
    TakeTableCost(v);
    var w := TakeTable(v);
    ZeroSame(w, PL.Picked(v.pt), v);
  }

  lemma BuiltHolds(v: Phys, w: Phys, t: Space)
    requires Built(v, w, t)
    ensures Holds(w, t) && UserTree(t) && PhysOk(w)
  {
  }

  /** `exec_init`'s mappings: code, first data page, stack page, kernel. */
  method BuildInit(m: Machine, c: Config, g0: Segs, osPmd: nat)
    returns (pgd: nat, text: nat, g: Segs, osPmd': nat, ghost t: Space, ghost data: nat, ghost stack: nat)
    requires m.Valid() && ConfigOk(c) && EnoughForInit(m.Value())
    modifies m.Objs()
    ensures m.Valid() && Built(old(m.Value()), m.Value(), t) && LowKept(old(m.Value()), m.Value())
    ensures ProcessTree(t, c) && KernelEntries(t, c) && t.root == pgd && osPmd' == OsPmdOf(t)
    ensures text == PL.Picked(old(m.user.Value())) && InitPages(Leaves(t), text, data, stack)
    ensures g == InitSegs(g0)
  {
    hide PhysOk, PL.PageList.Value, PL.Supply, PL.Picked, PL.Take, PL.TakeN, PL.ClearRun, Built, LowKept;
    hide UserOnly, Mapped, MultiMapped, Holds, KernelGrown, ConfigOk;
    hide Leaves, Huges, IdentityHuges, ApicSlot, ApicPmd, RunLeaves, ProcessTree, KernelEntries, Skipped;
    hide LeafOf, KernelSide, Missing, RootSpace;
    ghost var v := m.Value();
    g := CreatedSegs(g0);
    InitRoot(v);
    pgd := m.FreshTable();
    m.Bzero(pgd);
    ghost var w := m.Value();
    InitLeaves();
    text, t := InstallPtableMulti(m, pgd, g.code.start, CODE_PAGES, false, RootSpace(pgd));
    g := g.(code := g.code.(nextFree := g.code.start + CODE_PAGES * PAGE_SIZE));
    AfterCode(v, w, pgd, m.Value(), t);
    CodePages(text);
    BuiltHolds(v, m.Value(), t);
    MissingTwo(t, DataLeaf());
    ghost var w1, t1 := m.Value(), t;
    data, t := InstallPtable(m, pgd, g.data.start, g.data.accessFlags, 0, 0, t);
    AfterPage(v, w1, t1, m.Value(), t, DataLeaf(), Pte(data, 7));
    g := g.(data := g.data.(nextFree := g.data.start + PAGE_SIZE));
    BuiltHolds(v, m.Value(), t);
    MissingTwo(t, StackLeaf());
    ghost var w2, t2 := m.Value(), t;
    var stackStart := g.stack.start;
    g := g.(stack := g.stack.(start := g.stack.end - PAGE_SIZE));
    stack, t := InstallPtable(m, pgd, g.stack.start, g.stack.accessFlags, 0, 0, t);
    AfterPage(v, w2, t2, m.Value(), t, StackLeaf(), Pte(stack, 7));
    g := g.(stack := g.stack.(start := stackStart, nextFree := g.stack.end - PAGE_SIZE));
    BuiltHolds(v, m.Value(), t);
    OsTwo(t, c);
    ghost var w3, t3 := m.Value(), t;
    osPmd', t := InstallOsPts(m, c, pgd, osPmd, t);
    NothingSkipped(Leaves(t3), text, data, stack);
    AfterKernel(v, w3, t3, m.Value(), t, c);
  }

  lemma OsTwo(t: Space, c: Config)
    requires UserOnly(t)
    ensures OsMissing(t, c) <= 2 && Pmd(0, 0) !in t.ents
  {
  }

  // ---- The program text -------------------------------------------------

  /** k frames from TEXT_FRAME on have been copied to the frames from text on. */
  ghost predicate CopiedText(before: Mem, after: Mem, text: nat, k: nat) {
    && |after| == |before| && text + k <= |before| && TEXT_FRAME + k <= |before|
    && after[text..text + k] == before[TEXT_FRAME..TEXT_FRAME + k]
    && forall f: nat | f < |before| && !(text <= f < text + k) :: after[f] == before[f]
  }

  lemma CopiedStep(before: Mem, mem: Mem, text: nat, k: nat)
    requires CopiedText(before, mem, text, k) && TEXT_FRAME + k < text && text + k < |before|
    ensures CopiedText(before, mem[text + k := mem[TEXT_FRAME + k]], text, k + 1)
  {
    var after := mem[text + k := mem[TEXT_FRAME + k]];
    assert after[text..text + (k + 1)] == mem[text..text + k] + [before[TEXT_FRAME + k]];
  }

  /** The one flat copy of the program: because the code frames are consecutive, it
      fills exactly them. */
  method CopyText(m: Machine, text: nat, ghost s: Space)
    requires m.Valid() && Holds(m.Value(), s)
    requires m.Value().user.start <= text && text + CODE_PAGES <= |m.mem|
    requires TEXT_FRAME + CODE_PAGES <= m.Value().user.start
    modifies m`mem
    ensures m.Valid() && Holds(m.Value(), s) && CopiedText(old(m.mem), m.mem, text, CODE_PAGES)
    ensures m.Value() == old(m.Value()).(mem := m.mem)
  {
    hide PhysOk, PL.PageList.Value, Holds, CopiedText;
    CopiedStart(m.mem, text);
    var k := 0;
    while k < CODE_PAGES
      invariant k <= CODE_PAGES && m.Valid() && Holds(m.Value(), s)
      invariant m.Value() == old(m.Value()).(mem := m.mem) && |m.mem| == |old(m.mem)|
      invariant CopiedText(old(m.mem), m.mem, text, k)
    {
      FrameSize(m.Value(), TEXT_FRAME + k);
      UserWrite(m.Value(), text + k, m.mem[TEXT_FRAME + k], s);
      CopiedStep(old(m.mem), m.mem, text, k);
      m.CopyFrame(text + k, TEXT_FRAME + k);
      k := k + 1;
    }
  }

  lemma CopiedStart(mem: Mem, text: nat)
    requires text <= |mem| && TEXT_FRAME <= |mem|
    ensures CopiedText(mem, mem, text, 0)
  {
  }

  lemma FrameSize(v: Phys, f: nat)
    requires PhysOk(v) && f < |v.mem|
    ensures |v.mem[f]| == ENTRIES
  {
  }

  lemma SameLists(v: Phys, w: Phys, x: Phys, t: Space)
    requires Built(v, w, t) && Holds(x, t) && x.pt == w.pt && x.user == w.user
    ensures Built(v, x, t)
  {
  }

  // ---- The first process ------------------------------------------------

  lemma InitPlace(g: Segs, pages: map<Node, Pte>, text: nat, data: nat, stack: nat, l: Node)
    requires InitPages(pages, text, data, stack) && l in pages
    ensures InRange(l) && PagePlace(InitSegs(g), l) && (ReadOnlySide(l) ==> !WriteFlag(pages[l]))
  {
    InitPagesAt(pages, text, data, stack, l);
    InitLeaves();
    hide InitPages, LeafOf, CodeLeaf, DataLeaf, StackLeaf;
  }

  lemma InitProc(before: set<nat>, now: set<nat>, g: Segs, pages: map<Node, Pte>, text: nat, data: nat, stack: nat)
    requires PagesFrom(before, now, pages) && InitPages(pages, text, data, stack)
    ensures ProcOk(Proc(InitSegs(g), pages), now)
  {
    InitSegsOk(g);
    InitPagesAt(pages, text, data, stack, CodeLeaf());
    InitLeaves();
    hide InitPages, InitSegs, SegsOk, InRange, PagePlace, ReadOnlySide, WriteFlag, LeafOf;
    assert Leaf(0, 4, 0, 0) in pages;
    forall l | l in pages
      ensures PageOk(InitSegs(g), l, pages[l], now)
    {
      InitPlace(g, pages, text, data, stack, l);
      assert pages[l].pfn in PageFrames(pages);
    }
  }

  lemma OneProcess(v: Phys, ctxs: seq<ExecContext>, t: Space, slot: nat)
    requires slot < |ctxs| && ProcOk(Proc(ctxs[slot].segs, Leaves(t)), PL.Free(v.user))
    ensures SysOk(Abs(v, ctxs, map[slot := t]))
  {
    hide ProcOk, Leaves, PL.Free, Apart;
  }

  lemma InitLive(v: Phys, w: Phys, t: Space, x: ExecContext, c: Config)
    requires Built(v, w, t) && PhysOk(v) && ProcessTree(t, c) && KernelEntries(t, c) && Taken(v.pt, x.osStackPfn)
    requires x.pgd == t.root && x.state != Unused
    ensures Live(w, x, t, c)
  {
    hide ProcessTree, KernelEntries, UserTree, Holds, Taken, Leaves;
    StackNotReach(v, x);
    StillTakenOne(v.pt, w.pt, x.osStackPfn);
    hide PL.Free;
    forall l | l in t.ents && l.Leaf?
      ensures w.user.start < t.ents[l].pfn < w.user.start + w.user.size
    {
      NotLeaf(t, l);
      assert t.ents[l].pfn in PageFrames(Leaves(t));
      FreedRange(v, t.ents[l].pfn);
    }
  }

  /** The table when only the swapper and the process in `slot` exist. */
  predicate OnlySlot(ctxs: seq<ExecContext>, slot: nat) {
    |ctxs| == MAX_PROCESSES && 1 <= slot < MAX_PROCESSES
    && forall i: nat | i < MAX_PROCESSES && i != slot :: ctxs[i].state == Unused <==> i != 0
  }

  lemma InitKernel(v: Phys, w: Phys, t: Space, ctxs: seq<ExecContext>, slot: nat, x: ExecContext, g: Segs, c: Config,
                   text: nat, data: nat, stack: nat)
    requires |ctxs| == MAX_PROCESSES && slot < |ctxs|
    requires PhysOk(v) && Built(v, w, t) && ProcessTree(t, c) && KernelEntries(t, c)
    requires InitPages(Leaves(t), text, data, stack)
    requires ConfigOk(c) && ApicOutside(v, c) && OnlySlot(ctxs, slot) && Taken(v.pt, x.osStackPfn)
    requires x.pgd == t.root && x.state == Running && x.segs == InitSegs(g)
    ensures KernelOk(w, ctxs[slot := x], map[slot := t], c)
  {
    hide PhysOk, ProcessTree, KernelEntries, InitPages, ConfigOk, Taken, InitSegs, Leaves, PL.Free, SysOk;
    hide Abs, Live, UserTree, Holds, PagesFrom;
    BuiltHolds(v, w, t);
    InitProc(PL.Free(v.user), PL.Free(w.user), g, Leaves(t), text, data, stack);
    OneProcess(w, ctxs[slot := x], t, slot);
    InitLive(v, w, t, x, c);
    SameApic(v, w, c);
  }

  lemma CodeEnds(pages: map<Node, Pte>, text: nat, data: nat, stack: nat)
    requires InitPages(pages, text, data, stack)
    ensures text in PageFrames(pages) && text + 7 in PageFrames(pages)
  {
    InitPagesAt(pages, text, data, stack, CodeLeaf());
    hide InitPages, CodeLeaf, DataLeaf, StackLeaf;
    assert Leaf(0, 4, 0, 0) in pages && Leaf(0, 4, 0, 7) in pages;
    assert pages[Leaf(0, 4, 0, 0)] == Pte(text + 0, 5);
  }

  lemma TextFrames(v: Phys, w: Phys, t: Space, text: nat, data: nat, stack: nat)
    requires PhysOk(v) && Built(v, w, t) && LowKept(v, w) && InitPages(Leaves(t), text, data, stack)
    ensures v.user.start < text && text + CODE_PAGES <= |w.mem| && w.user.start == v.user.start
    ensures v.pt.start <= v.user.start
  {
    hide InitPages, Leaves, PL.Free, PageFrames, PhysOk, Built;
    CodeEnds(Leaves(t), text, data, stack);
    RegionOrder(v);
    FramesWereFree(v, w, t);
    FreedRange(v, text);
    FreedRange(v, text + 7);
  }

  lemma FramesWereFree(v: Phys, w: Phys, t: Space)
    requires Built(v, w, t)
    ensures PageFrames(Leaves(t)) <= PL.Free(v.user) && w.user.start == v.user.start
  {
    hide PL.Free, PageFrames, Leaves, Holds, UserTree;
  }

  lemma RegionOrder(v: Phys)
    requires PhysOk(v)
    ensures v.pt.start <= v.user.start && v.user.start + v.user.size <= |v.mem|
  {
  }

  /** The frames the program is read from have not been touched by the set-up. */
  lemma TextThere(v: Phys, w: Phys, x: Phys, text: nat)
    requires LowKept(v, w) && TEXT_FRAME + CODE_PAGES <= v.pt.start && CopiedText(w.mem, x.mem, text, CODE_PAGES)
    ensures text + CODE_PAGES <= |x.mem| && x.mem[text..text + CODE_PAGES] == v.mem[TEXT_FRAME..TEXT_FRAME + CODE_PAGES]
  {
  }

  function InitContext(x: ExecContext, pgd: nat): ExecContext {
    x.(pgd := pgd, segs := InitSegs(x.segs), state := Running)
  }

  /** `exec_init`: from a state in which only the swapper exists it leaves the kernel's
      invariant true with one RUNNING process, whose ten pages are exactly the code,
      data and stack pages, and whose code pages hold the program from the boot image. */
  method ExecInit(sys: System, slot: nat) returns (text: nat, ghost data: nat, ghost stack: nat)
    requires sys.m.Valid() && sys.ctxs !in sys.m.Objs() && sys !in sys.m.Objs()
    requires OnlySlot(sys.ctxs[..], slot) && Taken(sys.m.pt.Value(), sys.ctxs[..][slot].osStackPfn)
    requires ConfigOk(sys.config) && ApicOutside(sys.m.Value(), sys.config) && EnoughForInit(sys.m.Value())
    requires TEXT_FRAME + CODE_PAGES <= sys.m.Value().pt.start
    modifies sys, sys.ctxs, sys.m.Objs()
    ensures sys.Valid() && sys.current == slot && sys.spaces.Keys == {slot}
    ensures sys.ctxs[..] == old(sys.ctxs[..])[slot := InitContext(old(sys.ctxs[..])[slot], sys.spaces[slot].root)]
    ensures Built(old(sys.m.Value()), sys.m.Value(), sys.spaces[slot])
    ensures text == PL.Picked(old(sys.m.user.Value())) && InitPages(Leaves(sys.spaces[slot]), text, data, stack)
    ensures text + CODE_PAGES <= |sys.m.mem| && TEXT_FRAME + CODE_PAGES <= |old(sys.m.mem)|
    ensures sys.m.mem[text..text + CODE_PAGES] == old(sys.m.mem)[TEXT_FRAME..TEXT_FRAME + CODE_PAGES]
    ensures sys.osPmd == OsPmdOf(sys.spaces[slot])
    ensures var x, y := old(sys.ctxs[..])[slot], sys.ctxs[..][slot];
      && y == x.(pgd := sys.spaces[slot].root, state := Running, segs := y.segs)
      && Placed(y.segs) && y.segs.code.nextFree == 0x1_0000_8000 && y.segs.data.nextFree == 0x1_8000_1000
      && y.segs.rodata.nextFree == 0x1_4000_0000 && y.segs.stack.nextFree == 0x7_FFFF_F000
  {
    hide PhysOk, PL.PageList.Value, Built, InitPages, ConfigOk, Taken, InitSegs, Leaves, Holds, KernelOk;
    hide ProcessTree, KernelEntries, EnoughForInit, PL.Supply, PL.Picked, CopiedText, Placed;
    var m, x := sys.m, sys.ctxs[slot];
    CreatedValues(x.segs);
    ghost var v, table := m.Value(), sys.ctxs[..];
    var pgd, g;
    ghost var t;
    pgd, text, g, sys.osPmd, t, data, stack := BuildInit(m, sys.config, x.segs, sys.osPmd);
    ghost var w := m.Value();
    TextFrames(v, w, t, text, data, stack);
    BuiltHolds(v, w, t);
    CopyText(m, text, t);
    SameLists(v, w, m.Value(), t);
    TextThere(v, w, m.Value(), text);
    sys.SetContext(slot, x.(pgd := pgd, segs := g, state := Running));
    sys.current := slot;
    sys.spaces := map[slot := t];
    InitKernel(v, m.Value(), t, table, slot, x.(pgd := pgd, segs := g, state := Running), x.segs, sys.config, text,
      data, stack);
  }
}
