/** The segment loops of `copy_mm` (context.c). */
module CopyLoops {
  import opened PageTable
  import opened Physical
  import opened Install
  import opened KernelMap
  import opened Segments
  import opened Fork
  import opened KernelAccess
  import PL = PageList

  /** The mapped pages with addresses in [lo, hi). */
  function PagesIn(s: Space, lo: nat, hi: nat): set<Node> {
    set l | l in s.ents && l.Leaf? && lo <= VaOf(l) < hi
  }

  lemma LeafInRange(s: Space, l: Node)
    requires Shaped(s) && l in s.ents && l.Leaf?
    ensures InRange(l)
  {
    assert NodeOk(s, l);
    assert NodeOk(s, Pt(l.a, l.b, l.c));
    assert NodeOk(s, Pmd(l.a, l.b));
    assert NodeOk(s, Pud(l.a));
  }

  lemma OnePage(s: Space, va: nat, l: Node)
    requires Shaped(s) && Aligned(va) && va < STACK_START && l in s.ents && l.Leaf?
    ensures va <= VaOf(l) < va + PAGE_SIZE <==> l == LeafOf(va)
  {
    LeafInRange(s, l);
    AddressOfPage(l);
    PageOfAddress(va);
    hide VaOf, LeafOf;
    if va <= VaOf(l) < va + PAGE_SIZE {
      SamePage(va, VaOf(l));
    }
  }

  lemma SamePage(a: nat, b: nat)
    requires Aligned(a) && Aligned(b) && a <= b < a + PAGE_SIZE
    ensures a == b
  {
  }

  /** One page further: the page at va joins if it is mapped. */
  lemma PagesStep(s: Space, lo: nat, va: nat)
    requires Shaped(s) && Aligned(va) && lo <= va < STACK_START
    ensures PagesIn(s, lo, va + PAGE_SIZE) == PagesIn(s, lo, va) + (if LeafOf(va) in s.ents then {LeafOf(va)} else {})
    ensures LeafOf(va) !in PagesIn(s, lo, va)
  {
    hide VaOf, LeafOf, Shaped, Aligned;
    forall l | l in s.ents && l.Leaf?
      ensures va <= VaOf(l) < va + PAGE_SIZE <==> l == LeafOf(va)
    {
      OnePage(s, va, l);
    }
    LeafOfIsLeaf(va);
  }

  lemma LeafOfIsLeaf(va: nat)
    ensures LeafOf(va).Leaf?
  {
  }

  /** The same, going down. */
  lemma PagesStepDown(s: Space, va: nat, hi: nat)
    requires Shaped(s) && Aligned(va) && va < STACK_START && va + PAGE_SIZE <= hi
    ensures PagesIn(s, va, hi) == PagesIn(s, va + PAGE_SIZE, hi) + (if LeafOf(va) in s.ents then {LeafOf(va)} else {})
    ensures LeafOf(va) !in PagesIn(s, va + PAGE_SIZE, hi)
  {
    hide VaOf, LeafOf, Shaped, Aligned;
    forall l | l in s.ents && l.Leaf?
      ensures va <= VaOf(l) < va + PAGE_SIZE <==> l == LeafOf(va)
    {
      OnePage(s, va, l);
    }
    LeafOfIsLeaf(va);
  }

  /** Where the copy stands: the child has exactly the pages in `shared` and `done`. */
  ghost predicate Copying(v: Phys, ps: Space, w: Phys, cs: Space, g: Segs, shared: set<Node>, done: set<Node>,
                          priv: map<nat, Node>)
    requires PhysOk(v)
  {
    Forking(v, ps, w, cs, g, shared, priv) && Listed(cs, shared, done, priv)
  }

  function LeafSet(s: Space): set<Node> {
    set l | l in s.ents && l.Leaf?
  }

  ghost predicate Listed(cs: Space, shared: set<Node>, done: set<Node>, priv: map<nat, Node>) {
    && LeafSet(cs) == shared + done
    && |priv| == |done|
    && shared !! done
  }

  /** What the whole copy may need. */
  ghost predicate ForkBudget(v: Phys, ps: Space, g: Segs) {
    && |PL.Supply(v.pt)| >= 1 + |TableNodes(ps)|
    && |PL.Supply(v.user)| >=
       |PagesIn(ps, g.data.start, g.data.nextFree)| + |PagesIn(ps, g.stack.nextFree, g.stack.end)|
  }

  lemma CopyingTables(v: Phys, ps: Space, w: Phys, cs: Space, g: Segs, shared: set<Node>, done: set<Node>,
                      priv: map<nat, Node>, l: Node)
    requires PhysOk(v) && Copying(v, ps, w, cs, g, shared, done, priv) && ForkBudget(v, ps, g)
    requires l.Leaf? && l in ps.ents
    ensures |PL.Supply(w.pt)| >= Missing(cs, l) && Holds(w, cs) && Holds(w, ps)
  {
    hide PhysOk, Holds, ChildTables, ChildPages, PL.Supply, KeptHeld, TableNodes, Missing, PagesIn;
    EnoughTables(v, ps, w, cs, l);
  }

  lemma LeavesGrow(w: Phys, cs: Space, x: Phys, ct: Space, l: Node, p: Pte)
    requires l.Leaf? && Mapped(w, cs, x, ct, l, p)
    ensures LeafSet(ct) == LeafSet(cs) + {l}
  {
    hide Holds, Grown, Missing, PathTables, UserTree, Huges, PL.Supply;
    forall n: Node | n.Leaf?
      ensures n in ct.ents <==> n in cs.ents || n == l
    {
      LeafKept(cs, ct, l, p, n);
    }
  }

  lemma CopyingShare(v: Phys, ps: Space, w: Phys, cs: Space, x: Phys, ct: Space, g: Segs,
                     shared: set<Node>, done: set<Node>, priv: map<nat, Node>, l: Node)
    requires PhysOk(v) && Copying(v, ps, w, cs, g, shared, done, priv)
    requires l.Leaf? && l in ps.ents && l !in shared && l !in done && x.user == w.user
    requires Mapped(w, cs, x, ct, l, Pte(ps.ents[l].pfn, CopyFlags(g, l))) && NewTables(cs, ct, 7)
    ensures Copying(v, ps, x, ct, g, shared + {l}, done, priv)
  {
    hide NewTables;
    hide PhysOk, Forking, Mapped, CopyFlags;
    ShareStep(v, ps, w, cs, x, ct, g, shared, priv, l);
    LeavesGrow(w, cs, x, ct, l, Pte(ps.ents[l].pfn, CopyFlags(g, l)));
  }

  lemma CopyingPrivate(v: Phys, ps: Space, w: Phys, cs: Space, x: Phys, ct: Space, g: Segs,
                       shared: set<Node>, done: set<Node>, priv: map<nat, Node>, l: Node, r: nat)
    requires PhysOk(v) && Copying(v, ps, w, cs, g, shared, done, priv)
    requires l.Leaf? && l in ps.ents && l !in shared && l !in done && Taken(v.user, ps.ents[l].pfn)
    requires PL.Supply(w.user) != {} && r == PL.Picked(w.user) && x.user == PL.Take(w.user) && r < |x.mem|
    requires Mapped(w, cs, x, ct, l, Pte(r, CopyFlags(g, l))) && NewTables(cs, ct, 7)
    ensures ps.ents[l].pfn < |x.mem| && r != ps.ents[l].pfn
    ensures var y := x.(mem := x.mem[r := x.mem[ps.ents[l].pfn]]);
      Copying(v, ps, y, ct, g, shared, done + {l}, priv[r := l])
  {
    hide NewTables;
    hide PhysOk, Forking, Mapped, CopyFlags, PL.Shape, PL.Supply, PL.Picked, PL.Take, Taken;
    PrivateStep(v, ps, w, cs, x, ct, g, shared, priv, l, r);
    NewKey(v, ps, w, cs, x, ct, g, shared, priv, l, r);
    ListPrivate(w, cs, x, ct, shared, done, priv, l, r, Pte(r, CopyFlags(g, l)));
    hide Listed;
  }

  lemma ListPrivate(w: Phys, cs: Space, x: Phys, ct: Space, shared: set<Node>, done: set<Node>, priv: map<nat, Node>,
                    l: Node, r: nat, p: Pte)
    requires Listed(cs, shared, done, priv) && l.Leaf? && l !in shared && l !in done && r !in priv
    requires Mapped(w, cs, x, ct, l, p)
    ensures Listed(ct, shared, done + {l}, priv[r := l])
  {
    hide Mapped, LeafSet;
    LeavesGrow(w, cs, x, ct, l, p);
    MapGrows(priv, r, l);
    assert (shared + done) + {l} == shared + (done + {l});
  }

  lemma MapGrows<K, V>(m: map<K, V>, k: K, v: V)
    requires k !in m
    ensures |m[k := v]| == |m| + 1
  {
    assert m[k := v].Keys == m.Keys + {k};
  }

  lemma NewKey(v: Phys, ps: Space, w: Phys, cs: Space, x: Phys, ct: Space, g: Segs,
               shared: set<Node>, priv: map<nat, Node>, l: Node, r: nat)
    requires PhysOk(v) && Forking(v, ps, w, cs, g, shared, priv) && PL.Supply(w.user) != {} && r == PL.Picked(w.user)
    ensures r !in priv
  {
    hide PL.Supply, PL.Picked, ChildTables, KeptHeld, CopyOf, Wf;
    UserListShape(w, cs);
    TakeFrame(w.user);
  }

  lemma AccessInSegment(g: Segs, l: Node)
    requires SegsOk(g) && l.Leaf?
    ensures g.code.start <= VaOf(l) < g.code.nextFree ==> AccessOf(g, l) == g.code.accessFlags
    ensures g.rodata.start <= VaOf(l) < g.rodata.nextFree ==> AccessOf(g, l) == g.rodata.accessFlags
    ensures g.data.start <= VaOf(l) < g.data.nextFree ==> AccessOf(g, l) == g.data.accessFlags
    ensures g.stack.nextFree <= VaOf(l) < g.stack.end ==> AccessOf(g, l) == g.stack.accessFlags
  {
  }

  lemma ParentFrame(v: Phys, ps: Space, l: Node)
    requires ParentOk(v, ps) && l.Leaf? && l in ps.ents
    ensures Taken(v.user, ps.ents[l].pfn) && 0 < ps.ents[l].pfn < MAX_FRAMES
  {
  }

  // ---- One page ---------------------------------------------------------

  /** The body of the CODE and RODATA loops. */
  method SharePage(m: Machine, parent: nat, child: nat, seg: Segment, vaddr: nat,
                   ghost v: Phys, ghost ps: Space, ghost cs: Space, ghost g: Segs,
                   ghost shared: set<Node>, ghost done: set<Node>, ghost priv: map<nat, Node>)
    returns (ghost ct: Space)
    requires m.Valid() && ParentOk(v, ps) && ForkBudget(v, ps, g)
    requires Copying(v, ps, m.Value(), cs, g, shared, done, priv)
    requires ps.root == parent && cs.root == child && CODE_START <= vaddr < STACK_START
    requires LeafOf(vaddr) !in shared && LeafOf(vaddr) !in done
    requires CopyFlags(g, LeafOf(vaddr)) == if Writable(seg.accessFlags) then 7 else 5
    modifies m.Objs()
    ensures m.Valid() && ct.root == child && m.user.Value() == old(m.user.Value())
    ensures Copying(v, ps, m.Value(), ct, g,
      shared + (if LeafOf(vaddr) in ps.ents then {LeafOf(vaddr)} else {}), done, priv)
  {
    hide Copying, Holds, PL.Supply, PhysOk, KernelSide, Missing, Writable, CopyFlags, LeafOf;
    hide PL.PageList.Value, ReadsAs, Taken, SlotValue, MaskedFrame;
    hide Mapped, ParentOk, ForkBudget;
    ghost var l, w := LeafOf(vaddr), m.Value();
    LeafOfIsLeaf(vaddr);
    UserSide(vaddr);
    ParentHolds(v, ps);
    CopyingHolds(v, ps, w, cs, g, shared, done, priv);
    ct := cs;
    var pte := GetUserPte(m, parent, vaddr, ps);
    if pte.Some? {
      ParentFrame(v, ps, l);
      CopyingTables(v, ps, w, cs, g, shared, done, priv, l);
      EntryFrame(w, ps, l, pte.value);
      var pfn;
      pfn, ct := InstallPtable(m, child, seg.start, seg.accessFlags, vaddr,
        MaskedFrame(m.mem[pte.value.frame][pte.value.index]), cs);
      CopyingShare(v, ps, w, cs, m.Value(), ct, g, shared, done, priv, l);
      MappedRoot(w, cs, m.Value(), ct, l, Pte(pfn, CopyFlags(g, l)));
    } else {
      assert shared + {} == shared;
    }
  }

  lemma ParentHolds(v: Phys, ps: Space)
    requires ParentOk(v, ps)
    ensures PhysOk(v) && UserTree(ps) && PL.Shape(v.user)
  {
  }

  lemma CopyingHolds(v: Phys, ps: Space, w: Phys, cs: Space, g: Segs, shared: set<Node>, done: set<Node>,
                     priv: map<nat, Node>)
    requires PhysOk(v) && Copying(v, ps, w, cs, g, shared, done, priv)
    ensures Holds(w, cs) && Holds(w, ps)
  {
  }

  /** The frame `copy_mm` reads out of the parent's entry. */
  lemma EntryFrame(w: Phys, ps: Space, l: Node, e: EntryPtr)
    requires Holds(w, ps) && PointsAt(w, ps, l, e)
    ensures e.frame < |w.mem| && e.index < |w.mem[e.frame]|
    ensures MaskedFrame(w.mem[e.frame][e.index]) == ps.ents[l].pfn
  {
  }

  lemma MappedRoot(v: Phys, s: Space, w: Phys, t: Space, l: Node, p: Pte)
    requires l.Leaf? && Mapped(v, s, w, t, l, p)
    ensures t.root == s.root
  {
  }

  /** The copies of the first |done| private pages are within the kernel's reach: the
      parent's frames and the frames taken for them, in the order of taking. */
  ghost predicate InReach(v: Phys, ps: Space, done: set<Node>)
    requires PL.Shape(v.user)
  {
    && (forall l | l in done && l in ps.ents :: ps.ents[l].pfn < KERNEL_FRAMES)
    && forall k: nat | k < |done| :: PL.Picked(PL.TakeN(v.user, k)) < KERNEL_FRAMES
  }

  lemma FewerInReach(v: Phys, ps: Space, done: set<Node>, all: set<Node>)
    requires PL.Shape(v.user) && done <= all && InReach(v, ps, all)
    ensures InReach(v, ps, done)
  {
    hide PL.Picked, PL.TakeN;
    PL.SubsetSize(done, all);
  }

  lemma OneMoreInReach(v: Phys, ps: Space, done: set<Node>, l: Node)
    requires PL.Shape(v.user) && InReach(v, ps, done) && l !in done && l in ps.ents
    ensures InReach(v, ps, done + {l})
      <==> ps.ents[l].pfn < KERNEL_FRAMES && PL.Picked(PL.TakeN(v.user, |done|)) < KERNEL_FRAMES
  {
    hide PL.Picked, PL.TakeN, PL.Shape;
    var more := done + {l};
    assert |more| == |done| + 1;
    assert l in more;
    assert InReach(v, ps, more) ==> PL.Picked(PL.TakeN(v.user, |done|)) < KERNEL_FRAMES;
  }

  /** Everything the loops need to know of the tree that is loaded. */
  ghost predicate ParentLoaded(ps: Space, c: Config) {
    ConfigOk(c) && KernelEntries(ps, c)
  }

  /** The body of the DATA and stack loops, under the parent's tree. */
  method CopyPage(m: Machine, c: Config, parent: nat, child: nat, seg: Segment, vaddr: nat,
                  ghost v: Phys, ghost ps: Space, ghost cs: Space, ghost g: Segs,
                  ghost shared: set<Node>, ghost done: set<Node>, ghost priv: map<nat, Node>)
    returns (faulted: bool, ghost ct: Space, ghost priv': map<nat, Node>)
    requires m.Valid() && ParentOk(v, ps) && ForkBudget(v, ps, g) && ParentLoaded(ps, c)
    requires Copying(v, ps, m.Value(), cs, g, shared, done, priv)
    requires PL.Shape(v.user) && m.user.Value() == PL.TakeN(v.user, |done|) && InReach(v, ps, done)
    requires ps.root == parent && cs.root == child && CODE_START <= vaddr < STACK_START
    requires LeafOf(vaddr) !in shared && LeafOf(vaddr) !in done
    requires LeafOf(vaddr) in ps.ents ==> |done| < |PL.Supply(v.user)|
    requires CopyFlags(g, LeafOf(vaddr)) == if Writable(seg.accessFlags) then 7 else 5
    modifies m.Objs()
    ensures m.Valid()
    ensures var now := done + (if LeafOf(vaddr) in ps.ents then {LeafOf(vaddr)} else {});
      && (faulted <==> !InReach(v, ps, now))
      && (faulted ==> Stopped(v, ps, m.Value()))
      && (!faulted ==> ct.root == child && Copying(v, ps, m.Value(), ct, g, shared, now, priv'))
      && (!faulted ==> m.user.Value() == PL.TakeN(v.user, |now|))
  {
    hide NewTables;
    hide Copying, Holds, PL.Supply, PL.Picked, PL.Take, PhysOk, KernelSide, Missing, Writable, CopyFlags, LeafOf;
    hide PL.PageList.Value, ReadsAs, Taken, SlotValue, MaskedFrame, PL.TakeN, PL.Shape, InReach, Stopped;
    hide Mapped, PointsAt, ParentOk, ForkBudget, ConfigOk, KernelEntries;
    ghost var l, w := LeafOf(vaddr), m.Value();
    LeafOfIsLeaf(vaddr);
    UserSide(vaddr);
    ParentHolds(v, ps);
    CopyingHolds(v, ps, w, cs, g, shared, done, priv);
    ct, priv' := cs, priv;
    faulted := false;
    var pte := GetUserPte(m, parent, vaddr, ps);
    if pte.Some? {
      ParentFrame(v, ps, l);
      CopyingTables(v, ps, w, cs, g, shared, done, priv, l);
      CopyingUser(v, ps, w, cs, g, shared, done, priv);
      EntryFrame(w, ps, l, pte.value);
      NextTaken(v.user, |done|);
      OneMoreInReach(v, ps, done, l);
      assert |done + {l}| == |done| + 1;
      var pfn;
      pfn, ct := InstallPtable(m, child, seg.start, seg.accessFlags, vaddr, 0, cs);
      ghost var x := m.Value();
      CopyingPrivate(v, ps, w, cs, x, ct, g, shared, done, priv, l, pfn);
      CopyingStopped(v, ps, w, cs, x, ct, g, shared, done, priv, l, pfn);
      EntryAfter(v, ps, w, cs, x, ct, g, shared, done, priv, l, Pte(pfn, CopyFlags(g, l)), pte.value);
      StoppedFrames(v, ps, w, x, l, pfn);
      faulted := CopyUnder(m, c, parent, pfn, MaskedFrame(m.mem[pte.value.frame][pte.value.index]), ps);
      priv' := priv[pfn := l];
      MappedRoot(w, cs, x, ct, l, Pte(pfn, CopyFlags(g, l)));
    } else {
      assert done + {} == done;
    }
  }

  lemma NextTaken(u: PL.State, k: nat)
    requires PL.Shape(u)
    ensures PL.Shape(PL.TakeN(u, k)) && PL.TakeN(u, k + 1) == PL.Take(PL.TakeN(u, k))
  {
  }

  lemma CopyingStopped(v: Phys, ps: Space, w: Phys, cs: Space, x: Phys, ct: Space, g: Segs,
                       shared: set<Node>, done: set<Node>, priv: map<nat, Node>, l: Node, r: nat)
    requires PhysOk(v) && Copying(v, ps, w, cs, g, shared, done, priv) && l.Leaf? && l in ps.ents
    requires PL.Supply(w.user) != {} && x.user == PL.Take(w.user)
    requires Mapped(w, cs, x, ct, l, Pte(r, CopyFlags(g, l))) && NewTables(cs, ct, 7)
    ensures Stopped(v, ps, x)
  {
    hide NewTables;
    hide PhysOk, Forking, Mapped, PL.Take, PL.Supply, CopyFlags, Stopped;
    StoppedStep(v, ps, w, cs, x, ct, g, shared, priv, l, r);
  }

  /** Both frames of the copy are user frames. */
  lemma StoppedFrames(v: Phys, ps: Space, w: Phys, x: Phys, l: Node, r: nat)
    requires Stopped(v, ps, x) && l in ps.ents && Taken(v.user, ps.ents[l].pfn) && r < |x.mem|
    requires PhysOk(w) && PL.Supply(w.user) != {} && r == PL.Picked(w.user) && x.user == PL.Take(w.user)
    ensures Wf(x.mem, ps) && r < END_PFN && ps.ents[l].pfn < END_PFN && ps.ents[l].pfn < |x.mem|
  {
    StoppedTree(v, ps, x);
    hide Stopped, PL.Supply, PL.Take, PL.Picked, Wf;
    TakeFrame(w.user);
    UserBound(v, ps.ents[l].pfn);
    StoppedBound(v, ps, x);
  }

  lemma StoppedTree(v: Phys, ps: Space, x: Phys)
    requires Stopped(v, ps, x)
    ensures Wf(x.mem, ps) && PhysOk(v)
  {
  }

  lemma StoppedBound(v: Phys, ps: Space, x: Phys)
    requires Stopped(v, ps, x)
    ensures |x.mem| == |v.mem|
  {
    hide PhysOk, Holds, PL.Free;
  }

  lemma UserBound(v: Phys, f: nat)
    requires PhysOk(v) && Taken(v.user, f)
    ensures f < END_PFN && f < |v.mem|
  {
  }

  lemma CopyingUser(v: Phys, ps: Space, w: Phys, cs: Space, g: Segs, shared: set<Node>, done: set<Node>,
                    priv: map<nat, Node>)
    requires PhysOk(v) && Copying(v, ps, w, cs, g, shared, done, priv) && |done| < |PL.Supply(v.user)|
    ensures PL.Supply(w.user) != {}
  {
    hide PL.Supply, PhysOk, Holds, ChildTables, KeptHeld, CopyOf;
  }

  /** The parent's entry is still the same after the child's page is mapped. */
  lemma EntryAfter(v: Phys, ps: Space, w: Phys, cs: Space, x: Phys, ct: Space, g: Segs,
                   shared: set<Node>, done: set<Node>, priv: map<nat, Node>, l: Node, p: Pte, e: EntryPtr)
    requires PhysOk(v) && Copying(v, ps, w, cs, g, shared, done, priv)
    requires l.Leaf? && Mapped(w, cs, x, ct, l, p) && PointsAt(w, ps, l, e)
    ensures e.frame < |x.mem| && e.index < |x.mem[e.frame]|
    ensures MaskedFrame(x.mem[e.frame][e.index]) == ps.ents[l].pfn
  {
    hide PhysOk, ChildPages, KeptHeld, PL.Supply, PL.Free, SlotValue, MaskedFrame, UserTree, Wf;
    OwnersApart(v, ps, w, cs);
    OtherHolds(w, cs, x, ct, ps);
    EntryStays(w, ps, x, l, e);
  }

  lemma EntryStays(w: Phys, ps: Space, x: Phys, l: Node, e: EntryPtr)
    requires Holds(w, ps) && Holds(x, ps) && PointsAt(w, ps, l, e)
    ensures PointsAt(x, ps, l, e) && MaskedFrame(x.mem[e.frame][e.index]) == ps.ents[l].pfn
  {
    hide MaskedFrame, SlotValue, PhysOk, UserBit, PfnField, Present;
    ChildOfParent(l);
    assert SlotOk(x.mem, ps, Parent(l), Slot(l));
    assert SlotOk(w.mem, ps, Parent(l), Slot(l));
  }

  // ---- The loops --------------------------------------------------------

  lemma NoPages(s: Space, va: nat)
    ensures PagesIn(s, va, va) == {}
  {
  }

  lemma PageBelow(va: nat)
    requires Aligned(va) && va < STACK_START
    ensures LeafOf(va).Leaf? && VaOf(LeafOf(va)) == va
  {
    PageOfAddress(va);
  }

  lemma FewerPages(s: Space, done: set<Node>, all: set<Node>, l: Node, budget: nat)
    requires done <= all && l in all && l !in done && |all| <= budget
    ensures |done| < budget
  {
    PL.SubsetSize(done + {l}, all);
  }

  lemma SharedFlags(g: Segs, seg: Segment, va: nat)
    requires SegsOk(g) && (seg == g.code || seg == g.rodata) && seg.start <= va < seg.nextFree && Aligned(va)
    ensures va < STACK_START && CopyFlags(g, LeafOf(va)) == if Writable(seg.accessFlags) then 7 else 5
  {
    PageBelow(va);
    hide LeafOf, VaOf;
    AccessInSegment(g, LeafOf(va));
  }

  lemma PrivateFlags(g: Segs, seg: Segment, va: nat)
    requires SegsOk(g) && Aligned(va)
    requires (seg == g.data && seg.start <= va < seg.nextFree) || (seg == g.stack && seg.nextFree <= va < seg.end)
    ensures CODE_START <= va < STACK_START && CopyFlags(g, LeafOf(va)) == if Writable(seg.accessFlags) then 7 else 5
  {
    assert va < STACK_START;
    PageBelow(va);
    hide LeafOf, VaOf;
    AccessInSegment(g, LeafOf(va));
  }

  predicate AllBelow(pages: set<Node>, va: nat) {
    forall n | n in pages :: n.Leaf? && VaOf(n) < va
  }

  lemma SegmentStarts(g: Segs)
    requires SegsOk(g)
    ensures Aligned(g.code.start) && Aligned(g.rodata.start) && Aligned(g.data.start)
    ensures CODE_START <= g.code.start <= g.code.nextFree <= g.rodata.start <= g.rodata.nextFree <= g.data.start
    ensures g.data.start <= g.data.nextFree <= g.stack.nextFree
    ensures g.stack.nextFree + PAGE_SIZE == g.stack.end == STACK_START
    ensures Aligned(g.code.nextFree) && Aligned(g.rodata.nextFree) && Aligned(g.data.nextFree)
    ensures Aligned(g.stack.nextFree)
  {
  }

  /** The CODE loop and the RODATA loop. */
  method ShareSegment(m: Machine, parent: nat, child: nat, seg: Segment,
                      ghost v: Phys, ghost ps: Space, ghost cs: Space, ghost g: Segs, ghost shared0: set<Node>)
    returns (ghost ct: Space, ghost shared: set<Node>)
    requires m.Valid() && ParentOk(v, ps) && ForkBudget(v, ps, g) && SegsOk(g)
    requires Copying(v, ps, m.Value(), cs, g, shared0, {}, map[])
    requires ps.root == parent && cs.root == child
    requires (seg == g.code || seg == g.rodata) && AllBelow(shared0, seg.start)
    modifies m.Objs()
    ensures m.Valid() && ct.root == child && m.user.Value() == old(m.user.Value())
    ensures Copying(v, ps, m.Value(), ct, g, shared, {}, map[])
    ensures shared == shared0 + PagesIn(ps, seg.start, seg.nextFree)
  {
    hide NewTables;
    hide Copying, Holds, ParentOk, ForkBudget, SegsOk, PagesIn, CopyFlags, Writable, LeafOf, VaOf, PhysOk;
    hide PL.PageList.Value;
    ParentHolds(v, ps);
    ParentShaped(v, ps);
    SegmentStarts(g);
    NoPages(ps, seg.start);
    ct, shared := cs, shared0;
    var vaddr := seg.start;
    while vaddr < seg.nextFree
      invariant seg.start <= vaddr <= seg.nextFree && Aligned(vaddr)
      invariant m.Valid() && ct.root == child && m.user.Value() == old(m.user.Value())
      invariant Copying(v, ps, m.Value(), ct, g, shared, {}, map[])
      invariant shared == shared0 + PagesIn(ps, seg.start, vaddr)
    {
      SharedFlags(g, seg, vaddr);
      PagesStep(ps, seg.start, vaddr);
      BelowStart(shared0, seg.start, vaddr);
      ct := SharePage(m, parent, child, seg, vaddr, v, ps, ct, g, shared, {}, map[]);
      ghost var more: set<Node> := if LeafOf(vaddr) in ps.ents then {LeafOf(vaddr)} else {};
      assert shared + more == shared0 + (PagesIn(ps, seg.start, vaddr) + more);
      shared := shared + more;
      NextAligned(vaddr, seg.nextFree);
      vaddr := vaddr + PAGE_SIZE;
    }
  }

  lemma ParentShaped(v: Phys, ps: Space)
    requires ParentOk(v, ps)
    ensures Shaped(ps)
  {
  }

  lemma NextAligned(va: nat, limit: nat)
    requires Aligned(va) && Aligned(limit) && va < limit
    ensures Aligned(va + PAGE_SIZE) && va + PAGE_SIZE <= limit
  {
  }

  lemma BelowStart(pages: set<Node>, start: nat, va: nat)
    requires AllBelow(pages, start) && start <= va < STACK_START && Aligned(va)
    ensures LeafOf(va) !in pages
  {
    PageBelow(va);
  }

  /** The pages that a fork copies. */
  function CopiedPages(ps: Space, g: Segs): set<Node> {
    PagesIn(ps, g.data.start, g.data.nextFree) + PagesIn(ps, g.stack.nextFree, g.stack.end)
  }

  /** All the copies of a fork are within the kernel's reach. */
  ghost predicate ForkFits(v: Phys, ps: Space, g: Segs) {
    PL.Shape(v.user) && InReach(v, ps, CopiedPages(ps, g))
  }

  /** How many allocations after boot the first frame beyond the kernel's reach is taken. */
  const NEAR_FRAMES: nat := KERNEL_FRAMES - USER_START_PFN - 4

  /** After so many allocations the next user frame is number 0x8000. */
  lemma FirstFarFrame(u: PL.State)
    requires PL.Shape(u) && PL.Booted(u) && u.start == USER_START_PFN && u.size == END_PFN - USER_START_PFN
    ensures PL.Picked(PL.TakeN(u, NEAR_FRAMES)) == KERNEL_FRAMES
  {
    assert PL.Reserve(u.size) == 4;
    hide PL.Booted, PL.Picked, PL.TakeN, PL.Shape, PL.ClearRun, PL.Reserve;
    PL.BootReach(u, NEAR_FRAMES + 1);
    PL.ConsecutiveTakes(u, NEAR_FRAMES + 1, NEAR_FRAMES);
  }

  /** The input at which a fork fails: on a booted machine with that many user frames in
      use, any process that has a page to copy. */
  lemma FarFork(u: PL.State, v: Phys, ps: Space, g: Segs)
    requires PL.Shape(u) && PL.Booted(u) && u.start == USER_START_PFN && u.size == END_PFN - USER_START_PFN
    requires v.user == PL.TakeN(u, NEAR_FRAMES) && CopiedPages(ps, g) != {}
    ensures !ForkFits(v, ps, g)
  {
    FirstFarFrame(u);
    hide PL.Booted, PL.Picked, PL.Shape, PL.Reserve, CopiedPages;
    assert PL.TakeN(v.user, 0) == v.user && 0 < |CopiedPages(ps, g)|;
    var first := PL.Picked(PL.TakeN(v.user, 0));
    assert first == KERNEL_FRAMES;
  }

  /** The DATA loop. */
  method CopyData(m: Machine, c: Config, parent: nat, child: nat, seg: Segment,
                  ghost v: Phys, ghost ps: Space, ghost cs: Space, ghost g: Segs, ghost shared: set<Node>)
    returns (faulted: bool, ghost ct: Space, ghost done: set<Node>, ghost priv: map<nat, Node>)
    requires m.Valid() && ParentOk(v, ps) && ForkBudget(v, ps, g) && SegsOk(g) && ParentLoaded(ps, c)
    requires Copying(v, ps, m.Value(), cs, g, shared, {}, map[])
    requires PL.Shape(v.user) && m.user.Value() == v.user
    requires ps.root == parent && cs.root == child && seg == g.data && AllBelow(shared, seg.start)
    modifies m.Objs()
    ensures m.Valid() && (faulted <==> !InReach(v, ps, PagesIn(ps, seg.start, seg.nextFree)))
    ensures faulted ==> Stopped(v, ps, m.Value())
    ensures !faulted ==> ct.root == child && Copying(v, ps, m.Value(), ct, g, shared, done, priv)
    ensures !faulted ==> done == PagesIn(ps, seg.start, seg.nextFree) && m.user.Value() == PL.TakeN(v.user, |done|)
  {
    hide Copying, Holds, ParentOk, SegsOk, CopyFlags, Writable, LeafOf, VaOf, PhysOk, PL.PageList.Value, PagesIn;
    hide PL.Supply, TableNodes, PL.Shape, PL.TakeN, InReach, Stopped, ParentLoaded, ForkBudget;
    ParentHolds(v, ps);
    ParentShaped(v, ps);
    SegmentStarts(g);
    NoPages(ps, seg.start);
    NoneYet(v, ps);
    faulted, ct, done, priv := false, cs, {}, map[];
    var vaddr := seg.start;
    while vaddr < seg.nextFree
      invariant seg.start <= vaddr <= seg.nextFree && Aligned(vaddr)
      invariant m.Valid() && ct.root == child
      invariant Copying(v, ps, m.Value(), ct, g, shared, done, priv)
      invariant done == PagesIn(ps, seg.start, vaddr)
      invariant InReach(v, ps, done) && m.user.Value() == PL.TakeN(v.user, |done|)
    {
      PrivateFlags(g, seg, vaddr);
      PagesStep(ps, seg.start, vaddr);
      BelowStart(shared, seg.start, vaddr);
      if LeafOf(vaddr) in ps.ents {
        DataBudget(v, ps, g, vaddr, done);
      }
      NextAligned(vaddr, seg.nextFree);
      MorePages(ps, seg.start, vaddr + PAGE_SIZE, seg.nextFree);
      faulted, ct, priv := CopyPage(m, c, parent, child, seg, vaddr, v, ps, ct, g, shared, done, priv);
      if faulted {
        NotAllInReach(v, ps, PagesIn(ps, seg.start, vaddr + PAGE_SIZE), PagesIn(ps, seg.start, seg.nextFree));
        return;
      }
      done := PagesIn(ps, seg.start, vaddr + PAGE_SIZE);
      vaddr := vaddr + PAGE_SIZE;
    }
  }

  lemma NoneYet(v: Phys, ps: Space)
    requires PL.Shape(v.user)
    ensures InReach(v, ps, {}) && PL.TakeN(v.user, 0) == v.user
  {
  }

  lemma MorePages(s: Space, lo: nat, mid: nat, hi: nat)
    requires mid <= hi
    ensures PagesIn(s, lo, mid) <= PagesIn(s, lo, hi)
  {
  }

  lemma NotAllInReach(v: Phys, ps: Space, some: set<Node>, all: set<Node>)
    requires PL.Shape(v.user) && some <= all && !InReach(v, ps, some)
    ensures !InReach(v, ps, all)
  {
    hide InReach;
    if InReach(v, ps, all) {
      FewerInReach(v, ps, some, all);
    }
  }

  lemma DataBudget(v: Phys, ps: Space, g: Segs, va: nat, done: set<Node>)
    requires ForkBudget(v, ps, g) && Aligned(va) && g.data.start <= va < g.data.nextFree && va < STACK_START
    requires LeafOf(va) in ps.ents && done == PagesIn(ps, g.data.start, va)
    ensures |done| < |PL.Supply(v.user)|
  {
    hide PL.Supply, TableNodes, LeafOf;
    PageBelow(va);
    FewerPages(ps, done, PagesIn(ps, g.data.start, g.data.nextFree), LeafOf(va), |PL.Supply(v.user)|);
  }

  /** The stack loop, from the top page down to `next_free`. */
  method CopyStack(m: Machine, c: Config, parent: nat, child: nat, seg: Segment,
                   ghost v: Phys, ghost ps: Space, ghost cs: Space, ghost g: Segs, ghost shared: set<Node>,
                   ghost done0: set<Node>, ghost priv0: map<nat, Node>)
    returns (faulted: bool, ghost ct: Space, ghost done: set<Node>, ghost priv: map<nat, Node>)
    requires m.Valid() && ParentOk(v, ps) && ForkBudget(v, ps, g) && SegsOk(g) && ParentLoaded(ps, c)
    requires Copying(v, ps, m.Value(), cs, g, shared, done0, priv0)
    requires PL.Shape(v.user) && InReach(v, ps, done0) && m.user.Value() == PL.TakeN(v.user, |done0|)
    requires ps.root == parent && cs.root == child && seg == g.stack
    requires AllBelow(shared, g.data.start) && done0 == PagesIn(ps, g.data.start, g.data.nextFree)
    modifies m.Objs()
    ensures m.Valid() && (faulted <==> !InReach(v, ps, CopiedPages(ps, g)))
    ensures faulted ==> Stopped(v, ps, m.Value())
    ensures !faulted ==> ct.root == child && Copying(v, ps, m.Value(), ct, g, shared, done, priv)
    ensures !faulted ==> done == CopiedPages(ps, g)
  {
    hide Copying, Holds, ParentOk, SegsOk, CopyFlags, Writable, LeafOf, VaOf, PhysOk, PL.PageList.Value, PagesIn;
    hide PL.Supply, TableNodes, ForkBudget, Shaped, PL.Shape, PL.TakeN, InReach, Stopped, ParentLoaded;
    ParentHolds(v, ps);
    ParentShaped(v, ps);
    SegmentStarts(g);
    NoPages(ps, seg.end);
    faulted, ct, done, priv := false, cs, done0, priv0;
    var vaddr := seg.end - PAGE_SIZE;
    while vaddr >= seg.nextFree
      invariant seg.nextFree <= vaddr + PAGE_SIZE <= seg.end && Aligned(vaddr)
      invariant m.Valid() && ct.root == child
      invariant Copying(v, ps, m.Value(), ct, g, shared, done, priv)
      invariant done == done0 + PagesIn(ps, vaddr + PAGE_SIZE, seg.end)
      invariant InReach(v, ps, done) && m.user.Value() == PL.TakeN(v.user, |done|)
      decreases vaddr
    {
      PrivateFlags(g, seg, vaddr);
      StackStep(ps, g, vaddr, seg.end, done0, done);
      BelowStart(shared, g.data.start, vaddr);
      if LeafOf(vaddr) in ps.ents {
        StackBudget(v, ps, g, vaddr, done);
      }
      faulted, ct, priv := CopyPage(m, c, parent, child, seg, vaddr, v, ps, ct, g, shared, done, priv);
      if faulted {
        LowerPages(ps, seg.nextFree, vaddr, seg.end);
        NotAllInReach(v, ps, done0 + PagesIn(ps, vaddr, seg.end), CopiedPages(ps, g));
        return;
      }
      done := done + (if LeafOf(vaddr) in ps.ents then {LeafOf(vaddr)} else {});
      vaddr := vaddr - PAGE_SIZE;
    }
    assert vaddr + PAGE_SIZE == seg.nextFree by {
      StackBottom(vaddr, seg.nextFree);
    }
  }

  lemma LowerPages(s: Space, lo: nat, mid: nat, hi: nat)
    requires lo <= mid
    ensures PagesIn(s, mid, hi) <= PagesIn(s, lo, hi)
  {
  }

  lemma StackStep(ps: Space, g: Segs, va: nat, hi: nat, done0: set<Node>, done: set<Node>)
    requires Shaped(ps) && SegsOk(g) && Aligned(va) && g.stack.nextFree <= va < STACK_START && va + PAGE_SIZE <= hi
    requires done0 == PagesIn(ps, g.data.start, g.data.nextFree) && done == done0 + PagesIn(ps, va + PAGE_SIZE, hi)
    ensures LeafOf(va) !in done
    ensures done + (if LeafOf(va) in ps.ents then {LeafOf(va)} else {}) == done0 + PagesIn(ps, va, hi)
  {
    PagesStepDown(ps, va, hi);
    AboveData(ps, g, va);
    hide PagesIn, LeafOf, SegsOk, Shaped;
  }

  lemma StackBottom(va: nat, limit: nat)
    requires Aligned(va) && Aligned(limit) && va < limit <= va + PAGE_SIZE
    ensures va + PAGE_SIZE == limit
  {
  }

  lemma AboveData(ps: Space, g: Segs, va: nat)
    requires SegsOk(g) && Aligned(va) && g.stack.nextFree <= va < STACK_START
    ensures LeafOf(va) !in PagesIn(ps, g.data.start, g.data.nextFree)
  {
    PageBelow(va);
  }

  lemma StackBudget(v: Phys, ps: Space, g: Segs, va: nat, done: set<Node>)
    requires ForkBudget(v, ps, g) && SegsOk(g) && Aligned(va) && g.stack.nextFree <= va < g.stack.end
    requires LeafOf(va) in ps.ents
    requires done == PagesIn(ps, g.data.start, g.data.nextFree) + PagesIn(ps, va + PAGE_SIZE, g.stack.end)
    ensures |done| < |PL.Supply(v.user)|
  {
    hide PL.Supply, TableNodes, LeafOf;
    PageBelow(va);
    var a, b := PagesIn(ps, g.data.start, g.data.nextFree), PagesIn(ps, g.stack.nextFree, g.stack.end);
    assert a !! b;
    UnionSize(a, b);
    assert LeafOf(va) in b && LeafOf(va) !in done;
    assert done <= a + b;
    hide PagesIn, SegsOk;
    FewerPages(ps, done, a + b, LeafOf(va), |PL.Supply(v.user)|);
  }
}
