/** `copy_mm` (context.c) as a whole: what the child's address space is. */
module CopyWhole {
  import opened PageTable
  import opened Physical
  import opened Install
  import opened KernelMap
  import opened Segments
  import opened Fork
  import opened CopyLoops
  import opened Teardown
  import PL = PageList

  /** The child's tree ct after the copy; `priv` says which page each of its own
      frames copies. */
  ghost predicate Forked(v: Phys, ps: Space, w: Phys, ct: Space, g: Segs, priv: map<nat, Node>, c: Config)
    requires PhysOk(v)
  {
    && Holds(w, ct) && Holds(w, ps) && ProcessTree(ct, c)
    && KeptHeld(v, w) && SameRegions(v, w)
    && ct.owner.Keys <= PL.Free(v.pt) && PL.Free(w.pt) == PL.Free(v.pt) - ct.owner.Keys
    && ChildPagesExactly(v, ps, w, ct, g, priv)
    && Huges(ct) == KernelHuges(c) && OpenTables(ct)
  }

  /** The child maps exactly the pages to be copied: CODE and RODATA pages on the
      parent's frames, DATA and stack pages each on a frame of its own, new and with
      the parent's contents. */
  ghost predicate ChildPagesExactly(v: Phys, ps: Space, w: Phys, ct: Space, g: Segs, priv: map<nat, Node>) {
    && (forall l: Node | l.Leaf? :: l in ct.ents <==> l in ps.ents && (SharedPage(g, l) || PrivatePage(g, l)))
    && (forall l | l in ct.ents && SharedPage(g, l) :: SharedWith(ps, ct, g, l))
    && (forall l | l in ct.ents && PrivatePage(g, l) :: ct.ents[l].pfn in priv && priv[ct.ents[l].pfn] == l)
    && (forall f | f in priv :: PrivatePage(g, priv[f]) && CopyOf(v, ps, w, ct, g, f, priv[f]))
    && PL.Free(w.user) == PL.Free(v.user) - priv.Keys
  }

  // ---- The fresh root ---------------------------------------------------

  function RootSpace(f: nat): Space {
    Space(f, map[], map[f := Pgd])
  }

  lemma RootShaped(mem: Mem, f: nat)
    requires MemOk(mem) && f < |mem| && mem[f] == ZeroFrame()
    ensures Wf(mem, RootSpace(f)) && UserTree(RootSpace(f))
  {
    var s := RootSpace(f);
    forall n, i: nat | IsTable(s, n) && i < ENTRIES
      ensures SlotOk(mem, s, n, i)
    {
      assert n == Pgd;
    }
  }

  lemma CopyStart(v: Phys, ps: Space, g: Segs)
    requires ParentOk(v, ps) && PL.Supply(v.pt) != {}
    ensures PL.Picked(v.pt) < |TakeTable(v).mem|
    ensures Copying(v, ps, TakeTable(v), RootSpace(PL.Picked(v.pt)), g, {}, {}, map[])
  {
    hide PL.Supply, PL.Free, PL.Picked, PL.Take, PL.Shape, PL.Ledger, Wf;
    var f, w := PL.Picked(v.pt), TakeTable(v);
    var s := RootSpace(f);
    TakeTableOk(v);
    TakeTableHolds(v, ps);
    TakeTableCost(v);
    PL.SupplyIsFree(v.pt);
    RootShaped(w.mem, f);
    assert TableNodes(s) == {};
    assert LeafSet(s) == {} + {};
    assert w.user == v.user;
  }

  // ---- After the loops --------------------------------------------------

  lemma SharedThreeWay(ps: Space, g: Segs, l: Node)
    requires SegsOk(g)
    ensures l in PagesIn(ps, g.code.start, g.code.nextFree) + PagesIn(ps, g.rodata.start, g.rodata.nextFree)
      <==> l in ps.ents && SharedPage(g, l)
    ensures l in PagesIn(ps, g.data.start, g.data.nextFree) + PagesIn(ps, g.stack.nextFree, g.stack.end)
      <==> l in ps.ents && PrivatePage(g, l)
    ensures !(SharedPage(g, l) && PrivatePage(g, l))
  {
  }

  lemma ExactPages(v: Phys, ps: Space, w: Phys, cs: Space, g: Segs, shared: set<Node>, done: set<Node>,
                   priv: map<nat, Node>)
    requires PhysOk(v) && ParentOk(v, ps) && Copying(v, ps, w, cs, g, shared, done, priv) && SegsOk(g)
    requires shared == PagesIn(ps, g.code.start, g.code.nextFree) + PagesIn(ps, g.rodata.start, g.rodata.nextFree)
    requires done == PagesIn(ps, g.data.start, g.data.nextFree) + PagesIn(ps, g.stack.nextFree, g.stack.end)
    ensures ChildPagesExactly(v, ps, w, cs, g, priv)
  {
    hide PhysOk, Holds, ChildTables, KeptHeld, CopyOf, SharedWith, PagesIn, SegsOk, SharedPage, PrivatePage;
    hide PL.Free, PL.Supply;
    forall l: Node | l.Leaf?
      ensures l in cs.ents <==> l in ps.ents && (SharedPage(g, l) || PrivatePage(g, l))
      ensures l in cs.ents && SharedPage(g, l) ==> l in shared
      ensures l in cs.ents && PrivatePage(g, l) ==> l !in shared
    {
      SharedThreeWay(ps, g, l);
      assert l in LeafSet(cs) <==> l in cs.ents;
    }
    SharedLeaves(g);
    forall f | f in priv
      ensures PrivatePage(g, priv[f])
    {
      CopyIsPrivate(v, ps, w, cs, g, shared, done, priv, f);
    }
  }

  lemma SharedLeaves(g: Segs)
    ensures forall l | SharedPage(g, l) || PrivatePage(g, l) :: l.Leaf?
  {
  }

  /** A frame of the child's own is never mapped at a shared page: there the entry
      names the parent's frame, which was not free. */
  lemma CopyIsPrivate(v: Phys, ps: Space, w: Phys, cs: Space, g: Segs, shared: set<Node>, done: set<Node>,
                      priv: map<nat, Node>, f: nat)
    requires PhysOk(v) && ParentOk(v, ps) && Copying(v, ps, w, cs, g, shared, done, priv) && SegsOk(g) && f in priv
    requires shared == PagesIn(ps, g.code.start, g.code.nextFree) + PagesIn(ps, g.rodata.start, g.rodata.nextFree)
    requires done == PagesIn(ps, g.data.start, g.data.nextFree) + PagesIn(ps, g.stack.nextFree, g.stack.end)
    ensures PrivatePage(g, priv[f])
  {
    hide PhysOk, Holds, ChildTables, KeptHeld, PagesIn, SegsOk, SharedPage, PrivatePage, PL.Free, PL.Supply;
    hide CopyFlags, ParentOk, Taken, UserTree;
    var l := priv[f];
    SharedThreeWay(ps, g, l);
    assert CopyOf(v, ps, w, cs, g, f, l);
    assert l in LeafSet(cs);
    ParentFrame(v, ps, l);
    TakenNotFree(v.user, ps.ents[l].pfn);
    assert l in shared ==> SharedWith(ps, cs, g, l);
  }

  lemma TakenNotFree(u: PL.State, f: nat)
    requires Taken(u, f)
    ensures f !in PL.Free(u)
  {
  }

  // ---- The kernel mappings on top ---------------------------------------

  lemma ParentKernelTables(ps: Space, c: Config)
    requires Shaped(ps) && ProcessTree(ps, c) && ConfigOk(c)
    ensures {Pmd(0, 0), ApicPmd(c)} <= TableNodes(ps) && Pud(0) in TableNodes(ps)
    ensures KernelSide(Pmd(0, 0)) && KernelSide(ApicPmd(c))
  {
    ApicIsKernel(c);
    hide ConfigOk, ApicPmd;
    assert NodeOk(ps, ApicSlot(c));
    assert NodeOk(ps, Pmd(0, 0));
  }

  /** The parent has the kernel's tables too, so its table count covers them. */
  lemma EnoughForOs(v: Phys, ps: Space, w: Phys, cs: Space, c: Config)
    requires Shaped(ps) && ProcessTree(ps, c) && ConfigOk(c)
    requires ChildTables(v, ps, w, cs) && |PL.Supply(v.pt)| >= 1 + |TableNodes(ps)|
    requires Pud(0) in cs.ents
    ensures |PL.Supply(w.pt)| - OsMissing(cs, c) + 1 + |TableNodes(ps)| >= |PL.Supply(v.pt)|
    ensures |PL.Supply(w.pt)| >= OsMissing(cs, c)
    ensures Pmd(0, 0) !in cs.ents && ApicPmd(c) !in cs.ents
  {
    ParentKernelTables(ps, c);
    hide ProcessTree, ConfigOk, Shaped, PL.Supply, ApicPmd, TableNodes, PL.Free;
    ApicPmdIsTable(c);
    var extra := {Pmd(0, 0), ApicPmd(c)};
    assert Pmd(0, 0) !in cs.ents && ApicPmd(c) !in cs.ents;
    KernelNotChild(cs, extra);
    PL.SubsetSize(TableNodes(cs) + extra, TableNodes(ps)) by {
      ChildNodesInParent(v, ps, w, cs);
    }
    UnionSize(TableNodes(cs), extra);
    ExtraSize(cs, c);
  }

  lemma ExtraSize(cs: Space, c: Config)
    requires Pud(0) in cs.ents && Pmd(0, 0) !in cs.ents && ApicPmd(c) !in cs.ents
    ensures OsMissing(cs, c) == |{Pmd(0, 0), ApicPmd(c)}|
  {
    hide ApicPmd;
  }

  lemma ApicPmdIsTable(c: Config)
    ensures ApicPmd(c).Pmd?
  {
  }

  lemma KernelNotChild(cs: Space, extra: set<Node>)
    requires forall n | n in extra :: n !in cs.ents
    ensures TableNodes(cs) !! extra
  {
  }

  lemma ChildNodesInParent(v: Phys, ps: Space, w: Phys, cs: Space)
    requires ChildTables(v, ps, w, cs)
    ensures TableNodes(cs) <= TableNodes(ps)
  {
    hide PL.Supply, PL.Free;
    forall n | n in TableNodes(cs)
      ensures n in TableNodes(ps)
    {
      assert !n.Leaf?;
    }
  }

  lemma NoHuges(v: Phys, ps: Space, w: Phys, cs: Space)
    requires ChildTables(v, ps, w, cs)
    ensures Huges(cs) == map[]
  {
    hide PL.Supply, PL.Free;
    forall n | n in cs.ents
      ensures !Huge(n)
    {
      assert n.Leaf? || n in TableNodes(ps);
    }
  }

  /** The finished child is a process tree. */
  lemma ChildProcessTree(v: Phys, ps: Space, w: Phys, cs: Space, x: Phys, ct: Space, g: Segs, c: Config,
                         priv: map<nat, Node>)
    requires ProcessTree(ps, c) && ChildTables(v, ps, w, cs) && KernelGrown(w, cs, x, ct)
    requires ChildPagesExactly(v, ps, w, cs, g, priv)
    requires Huges(ct) == IdentityHuges(map[], c, OS_PT_MAPS)[ApicSlot(c) := ApicPte(c)]
    requires Pmd(0, 0) in ct.ents && ConfigOk(c) && Pud(0) in cs.ents
    ensures ProcessTree(ct, c)
  {
    ApicIsKernel(c);
    hide PL.Supply, PL.Free, Grown, UserTree, ConfigOk, SharedPage, PrivatePage, CopyOf, SharedWith, ApicSlot;
    hide ApicPmd, Leaves;
    assert ApicSlot(c) in Huges(ct);
    assert Shaped(ct) by {
      HeldShaped(x, ct);
    }
    forall n | n in ct.ents
      ensures SideOk(n, c)
    {
      ChildSide(v, ps, w, cs, x, ct, g, c, priv, n);
    }
  }

  lemma ChildSide(v: Phys, ps: Space, w: Phys, cs: Space, x: Phys, ct: Space, g: Segs, c: Config,
                  priv: map<nat, Node>, n: Node)
    requires ProcessTree(ps, c) && ChildTables(v, ps, w, cs) && KernelGrown(w, cs, x, ct) && Shaped(ct)
    requires ChildPagesExactly(v, ps, w, cs, g, priv)
    requires Huges(ct) == IdentityHuges(map[], c, OS_PT_MAPS)[ApicSlot(c) := ApicPte(c)]
    requires n in ct.ents
    ensures SideOk(n, c)
  {
    hide PL.Supply, PL.Free, Grown, UserTree, SharedPage, PrivatePage, CopyOf, SharedWith, ApicSlot, Leaves;
    hide Holds, IdentityHuges, Wf;
    assert NodeOk(ct, n);
    if Huge(n) {
      assert n in Huges(ct);
      IdentityHugesAt(map[], c, OS_PT_MAPS, n);
    } else if n in cs.ents {
      assert n in ps.ents;
      assert SideOk(n, c);
    }
  }

  lemma SameLeaf(s: Space, t: Space, l: Node)
    requires Leaves(t) == Leaves(s) && l.Leaf?
    ensures l in t.ents <==> l in s.ents
    ensures l in t.ents ==> t.ents[l] == s.ents[l]
  {
    assert l in Leaves(t) <==> l in t.ents;
    assert l in Leaves(s) <==> l in s.ents;
  }

  lemma CopySurvives(v: Phys, ps: Space, w: Phys, cs: Space, x: Phys, ct: Space, g: Segs, f: nat, l: Node)
    requires PhysOk(v) && CopyOf(v, ps, w, cs, g, f, l) && Leaves(ct) == Leaves(cs)
    requires |x.mem| == |w.mem| && (f !in ct.owner && f < |w.mem| ==> x.mem[f] == w.mem[f])
    requires ct.owner.Keys <= PL.Free(v.pt)
    ensures CopyOf(v, ps, x, ct, g, f, l)
  {
    SameLeaf(cs, ct, l);
    UserFrameNotTable(v, f);
  }

  lemma PagesSurvive(v: Phys, ps: Space, w: Phys, cs: Space, x: Phys, ct: Space, g: Segs, priv: map<nat, Node>)
    requires PhysOk(v) && ChildPagesExactly(v, ps, w, cs, g, priv)
    requires Leaves(ct) == Leaves(cs) && x.user == w.user && Grown(w, cs, x, ct) && ct.owner.Keys <= PL.Free(v.pt)
    ensures ChildPagesExactly(v, ps, x, ct, g, priv)
  {
    hide PhysOk, Leaves, PL.Free, PL.Supply, CopyOf, SharedPage, PrivatePage, CopyFlags;
    SharedLeaves(g);
    forall l: Node | l.Leaf?
      ensures l in ct.ents <==> l in cs.ents
      ensures l in ct.ents ==> ct.ents[l] == cs.ents[l]
    {
      SameLeaf(cs, ct, l);
    }
    forall f | f in priv
      ensures CopyOf(v, ps, x, ct, g, f, priv[f])
    {
      CopySurvives(v, ps, w, cs, x, ct, g, f, priv[f]);
    }
    forall l | l in ct.ents && SharedPage(g, l)
      ensures SharedWith(ps, ct, g, l)
    {
      assert SharedWith(ps, cs, g, l);
    }
  }

  lemma OwnersGrow(v: Phys, ps: Space, w: Phys, cs: Space, x: Phys, ct: Space)
    requires Holds(w, ps) && ChildTables(v, ps, w, cs) && Grown(w, cs, x, ct)
    ensures ct.owner.Keys <= PL.Free(v.pt) && PL.Free(x.pt) == PL.Free(v.pt) - ct.owner.Keys
    ensures cs.owner.Keys !! ps.owner.Keys
  {
    hide Holds, PL.Free, PL.Supply, TableNodes;
    TableFrames(v, ps, w, cs, x, ct);
  }

  /** The copy and the kernel mappings together. */
  lemma ForkDone(v: Phys, ps: Space, w: Phys, cs: Space, x: Phys, ct: Space, g: Segs, c: Config,
                 shared: set<Node>, done: set<Node>, priv: map<nat, Node>)
    requires ParentOk(v, ps) && ProcessTree(ps, c) && SegsOk(g) && ConfigOk(c) && PhysOk(v)
    requires Copying(v, ps, w, cs, g, shared, done, priv)
    requires shared == PagesIn(ps, g.code.start, g.code.nextFree) + PagesIn(ps, g.rodata.start, g.rodata.nextFree)
    requires done == PagesIn(ps, g.data.start, g.data.nextFree) + PagesIn(ps, g.stack.nextFree, g.stack.end)
    requires KernelGrown(w, cs, x, ct) && Pud(0) in cs.ents && Pmd(0, 0) in ct.ents
    requires Huges(ct) == IdentityHuges(Huges(cs), c, OS_PT_MAPS)[ApicSlot(c) := ApicPte(c)]
    ensures Forked(v, ps, x, ct, g, priv, c) && UserTree(ct) && ct.owner.Keys !! ps.owner.Keys
  {
    hide PhysOk, Holds, ParentOk, SegsOk, ConfigOk, ProcessTree, UserTree, Leaves, PL.Free, PL.Supply, PagesIn;
    hide ChildTables, ChildPages, ChildPagesExactly, IdentityHuges;
    hide ApicSlot, Grown, KeptHeld;
    ExactPages(v, ps, w, cs, g, shared, done, priv);
    NoHuges(v, ps, w, cs);
    OwnersGrow(v, ps, w, cs, x, ct);
    PagesSurvive(v, ps, w, cs, x, ct, g, priv);
    ChildProcessTree(v, ps, w, cs, x, ct, g, c, priv);
    OtherHolds(w, cs, x, ct, ps);
    KeptStep(v, w, cs, x, ct);
    GrownRegions(v, w, cs, x, ct);
    OpenKernel(v, ps, w, cs, x, ct);
    hide OpenTables;
  }

  /** The kernel's entries leave the way to the pages as it is. */
  lemma OpenKernel(v: Phys, ps: Space, w: Phys, cs: Space, x: Phys, ct: Space)
    requires ChildTables(v, ps, w, cs) && KernelGrown(w, cs, x, ct) && Pud(0) in cs.ents
    ensures OpenTables(ct)
  {
    hide PL.Free, PL.Supply, Holds, Grown, Leaves, UserTree, TableNodes;
  }

  lemma GrownRegions(v: Phys, w: Phys, cs: Space, x: Phys, ct: Space)
    requires SameRegions(v, w) && Grown(w, cs, x, ct) && x.user == w.user
    ensures SameRegions(v, x)
  {
  }

  lemma LeafHasRoot(w: Phys, cs: Space, l: Node)
    requires Holds(w, cs) && l.Leaf? && l in cs.ents && l.a == 0
    ensures Pud(0) in cs.ents
  {
    HeldShaped(w, cs);
    PathOfLeaf(cs, l);
  }

  /** Some page of the parent is copied; in a running process its code is. */
  ghost predicate SomethingCopied(ps: Space, g: Segs) {
    exists l :: l in ps.ents && (SharedPage(g, l) || PrivatePage(g, l))
  }

  lemma CopiedRoot(v: Phys, ps: Space, w: Phys, cs: Space, g: Segs, shared: set<Node>, done: set<Node>,
                   priv: map<nat, Node>)
    requires ParentOk(v, ps) && PhysOk(v) && SegsOk(g) && Copying(v, ps, w, cs, g, shared, done, priv)
    requires shared == PagesIn(ps, g.code.start, g.code.nextFree) + PagesIn(ps, g.rodata.start, g.rodata.nextFree)
    requires done == PagesIn(ps, g.data.start, g.data.nextFree) + PagesIn(ps, g.stack.nextFree, g.stack.end)
    requires SomethingCopied(ps, g)
    ensures Pud(0) in cs.ents
  {
    hide PhysOk, Holds, ParentOk, PagesIn, ChildTables, ChildPages, ChildPagesExactly, KeptHeld, PL.Free, PL.Supply;
    ExactPages(v, ps, w, cs, g, shared, done, priv);
    var l :| l in ps.ents && (SharedPage(g, l) || PrivatePage(g, l));
    CopiedIsLow(v, ps, g, l);
    SharedLeaves(g);
    assert l in cs.ents by {
      ExactHas(v, ps, w, cs, g, priv, l);
    }
    LeafHasRoot(w, cs, l);
  }

  lemma ExactHas(v: Phys, ps: Space, w: Phys, cs: Space, g: Segs, priv: map<nat, Node>, l: Node)
    requires ChildPagesExactly(v, ps, w, cs, g, priv) && l.Leaf? && l in ps.ents
    requires (SharedPage(g, l) || PrivatePage(g, l))
    ensures l in cs.ents
  {
  }

  lemma CopiedIsLow(v: Phys, ps: Space, g: Segs, l: Node)
    requires ParentOk(v, ps) && SegsOk(g) && l in ps.ents && (SharedPage(g, l) || PrivatePage(g, l))
    ensures l.a == 0
  {
  }

  /** The frame of a tree's kernel PMD. */
  function OsPmdOf(s: Space): nat {
    if Pmd(0, 0) in s.ents then s.ents[Pmd(0, 0)].pfn else 0
  }

  /** `copy_mm`, running under the parent's tree. Each `memcpy` of a DATA or stack page
      needs both its frames within the first 128MB; the copy faults on the way if and
      only if one of them is not, and then stops with the child half built. */
  method CopyMm(m: Machine, c: Config, parent: nat, g: Segs, osPmd: nat, ghost ps: Space)
    returns (faulted: bool, child: nat, osPmd': nat, ghost ct: Space, ghost priv: map<nat, Node>)
    requires m.Valid() && ParentOk(m.Value(), ps) && ps.root == parent && ProcessTree(ps, c) && KernelEntries(ps, c)
    requires SegsOk(g) && ConfigOk(c) && ForkBudget(m.Value(), ps, g) && SomethingCopied(ps, g)
    modifies m.Objs()
    ensures m.Valid()
    ensures faulted <==> !ForkFits(old(m.Value()), ps, g)
    ensures faulted ==> Stopped(old(m.Value()), ps, m.Value()) && osPmd' == osPmd
    ensures !faulted ==> ct.root == child && Forked(old(m.Value()), ps, m.Value(), ct, g, priv, c)
    ensures !faulted ==> UserTree(ct) && ct.owner.Keys !! ps.owner.Keys
    ensures !faulted ==> osPmd' == OsPmdOf(ct)
    ensures !faulted ==> |PL.Supply(m.pt.Value())| + 1 + |TableNodes(ps)| >= |PL.Supply(old(m.pt.Value()))|
  {
    hide Copying, Holds, ParentOk, ForkBudget, SegsOk, ConfigOk, PagesIn, PhysOk, PL.PageList.Value, PL.Supply, Forked;
    hide SomethingCopied, ProcessTree, RootSpace, PL.Picked, KernelGrown, IdentityHuges, ApicSlot, UserTree, TableNodes;
    hide OsMissing, Stopped, InReach, PL.TakeN, PL.Shape, KernelEntries;
    ghost var v := m.Value();
    ParentHolds(v, ps);
    BudgetTables(v, ps, g);
    CopyStart(v, ps, g);
    osPmd' := osPmd;
    child := m.FreshTable();
    ZeroSame(m.Value(), child, v);
    m.Bzero(child);
    ghost var shared, done;
    ct := RootSpace(child);
    RootIs(child);
    assert m.user.Value() == v.user;
    LoopStarts(ps, g);
    ct, shared := ShareSegment(m, parent, child, g.code, v, ps, ct, g, {});
    SharedBelow(ps, g, shared);
    ct, shared := ShareSegment(m, parent, child, g.rodata, v, ps, ct, g, shared);
    SharedBelow(ps, g, shared);
    faulted, ct, done, priv := CopyData(m, c, parent, child, g.data, v, ps, ct, g, shared);
    if faulted {
      DataIsPrivate(v, ps, g);
      return;
    }
    faulted, ct, done, priv := CopyStack(m, c, parent, child, g.stack, v, ps, ct, g, shared, done, priv);
    if faulted {
      return;
    }
    ghost var w, cs := m.Value(), ct;
    CopiedRoot(v, ps, w, cs, g, shared, done, priv);
    CopyingForOs(v, ps, w, cs, g, c, shared, done, priv);
    osPmd', ct := InstallOsPts(m, c, child, osPmd, cs);
    ForkDone(v, ps, w, cs, m.Value(), ct, g, c, shared, done, priv);
    KernelRoot(w, cs, m.Value(), ct);
  }

  lemma DataIsPrivate(v: Phys, ps: Space, g: Segs)
    requires PL.Shape(v.user) && !InReach(v, ps, PagesIn(ps, g.data.start, g.data.nextFree))
    ensures !InReach(v, ps, CopiedPages(ps, g))
  {
    hide InReach, PagesIn;
    NotAllInReach(v, ps, PagesIn(ps, g.data.start, g.data.nextFree), CopiedPages(ps, g));
  }

  lemma BudgetTables(v: Phys, ps: Space, g: Segs)
    requires ForkBudget(v, ps, g)
    ensures PL.Supply(v.pt) != {}
  {
    hide PL.Supply, PagesIn, TableNodes;
  }

  lemma ZeroSame(w: Phys, f: nat, v: Phys)
    requires PhysOk(v) && PL.Supply(v.pt) != {} && w == TakeTable(v) && f == PL.Picked(v.pt)
    ensures f < |w.mem| && w.mem[f := ZeroFrame()] == w.mem
  {
    TakeTableOk(v);
    hide PL.Supply, PL.Shape, PL.Ledger, PL.Take, PL.Picked;
    assert w.mem[f] == ZeroFrame();
  }

  lemma RootIs(f: nat)
    ensures RootSpace(f).root == f
  {
  }

  lemma LoopStarts(ps: Space, g: Segs)
    ensures AllBelow({}, g.code.start)
  {
  }

  lemma SharedBelow(ps: Space, g: Segs, shared: set<Node>)
    requires SegsOk(g)
    ensures shared == {} + PagesIn(ps, g.code.start, g.code.nextFree) ==> AllBelow(shared, g.rodata.start)
    ensures shared == {} + PagesIn(ps, g.code.start, g.code.nextFree) + PagesIn(ps, g.rodata.start, g.rodata.nextFree)
      ==> AllBelow(shared, g.data.start)
  {
    hide VaOf;
  }

  lemma CopyingForOs(v: Phys, ps: Space, w: Phys, cs: Space, g: Segs, c: Config, shared: set<Node>, done: set<Node>,
                     priv: map<nat, Node>)
    requires PhysOk(v) && ParentOk(v, ps) && ForkBudget(v, ps, g) && ProcessTree(ps, c) && ConfigOk(c)
    requires Copying(v, ps, w, cs, g, shared, done, priv) && Pud(0) in cs.ents
    ensures Holds(w, cs) && |PL.Supply(w.pt)| >= OsMissing(cs, c) && Pmd(0, 0) !in cs.ents
    ensures |PL.Supply(w.pt)| - OsMissing(cs, c) + 1 + |TableNodes(ps)| >= |PL.Supply(v.pt)|
  {
    hide PhysOk, Wf, PagesIn, ChildTables, ChildPages, KeptHeld, PL.Free, PL.Supply, ProcessTree, ConfigOk;
    hide OsMissing, UserTree, TableNodes;
    ParentShaped(v, ps);
    EnoughForOs(v, ps, w, cs, c);
  }

  lemma KernelRoot(w: Phys, cs: Space, x: Phys, ct: Space)
    requires KernelGrown(w, cs, x, ct)
    ensures ct.root == cs.root
  {
  }
}
