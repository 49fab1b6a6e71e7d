/** Copying an address space for fork: `copy_mm` (context.c). */
module Fork {
  import opened PageTable
  import opened Physical
  import opened Install
  import opened KernelMap
  import opened Segments
  import PL = PageList

  // ---- What is copied ---------------------------------------------------

  /** Pages of CODE and RODATA below the break: the child maps the same frame. */
  predicate SharedPage(g: Segs, l: Node) {
    l.Leaf? && (g.code.start <= VaOf(l) < g.code.nextFree || g.rodata.start <= VaOf(l) < g.rodata.nextFree)
  }

  /** Pages of DATA below the break, and of the stack from `next_free` to its end:
      the child gets a frame of its own with the same contents. */
  predicate PrivatePage(g: Segs, l: Node) {
    l.Leaf? && (g.data.start <= VaOf(l) < g.data.nextFree || g.stack.nextFree <= VaOf(l) < g.stack.end)
  }

  function AccessOf(g: Segs, l: Node): nat
    requires l.Leaf?
  {
    if VaOf(l) < g.rodata.start then g.code.accessFlags
    else if VaOf(l) < g.data.start then g.rodata.accessFlags
    else if VaOf(l) < g.stack.start then g.data.accessFlags
    else g.stack.accessFlags
  }

  /** The flags `install_ptable` gives the child's entry. */
  function CopyFlags(g: Segs, l: Node): nat
    requires l.Leaf?
  {
    if Writable(AccessOf(g, l)) then 7 else 5
  }

  // ---- Other trees ------------------------------------------------------

  /** Growing one tree leaves every tree with other frames held. */
  lemma OtherHolds(v: Phys, s: Space, w: Phys, t: Space, o: Space)
    requires Holds(v, s) && Holds(v, o) && s.owner.Keys !! o.owner.Keys
    requires Holds(w, t) && Grown(v, s, w, t)
    ensures Holds(w, o) && t.owner.Keys !! o.owner.Keys
  {
    hide PL.Shape, PL.Ledger, Shaped, SlotOk;
    HeldNotFree(v, o);
    HeldBounds(v, o);
    forall f | f in o.owner
      ensures f !in t.owner && Taken(w.pt, f)
    {
      assert Taken(v.pt, f);
      PL.FreeMembership(v.pt, f);
      PL.FreeMembership(w.pt, f);
    }
    WfFraming(v.mem, w.mem, o);
  }

  lemma HeldBounds(v: Phys, o: Space)
    requires Holds(v, o)
    ensures forall f | f in o.owner :: f < |v.mem| && f < v.user.start
  {
    hide Wf;
    forall f | f in o.owner
      ensures f < |v.mem| && f < v.user.start
    {
      assert Taken(v.pt, f);
    }
  }

  /** Writing a user frame leaves every tree held. */
  lemma UserWrite(v: Phys, f: nat, frame: seq<nat>, s: Space)
    requires Holds(v, s) && v.user.start <= f < |v.mem| && |frame| == ENTRIES
    ensures Holds(v.(mem := v.mem[f := frame]), s)
  {
    hide PL.Shape, PL.Ledger, Shaped, SlotOk, Taken;
    HeldBounds(v, s);
    WfFraming(v.mem, v.mem[f := frame], s);
  }

  // ---- Progress ---------------------------------------------------------

  function TableNodes(s: Space): set<Node> {
    set n | n in s.ents && IsTable(s, n)
  }

  ghost predicate ParentOk(v: Phys, ps: Space) {
    && Holds(v, ps) && UserTree(ps)
    && forall l | l in ps.ents && l.Leaf? :: Taken(v.user, ps.ents[l].pfn)
  }

  /** A frame of the child's own: fresh, mapped at l, a copy of the parent's. */
  predicate CopyOf(v: Phys, ps: Space, w: Phys, cs: Space, g: Segs, f: nat, l: Node) {
    && l.Leaf? && l in ps.ents && l in cs.ents
    && cs.ents[l] == Pte(f, CopyFlags(g, l))
    && f in PL.Free(v.user)
    && f < |w.mem| && ps.ents[l].pfn < |v.mem| && w.mem[f] == v.mem[ps.ents[l].pfn]
  }

  predicate SharedWith(ps: Space, cs: Space, g: Segs, l: Node) {
    l.Leaf? && l in ps.ents && l in cs.ents && cs.ents[l] == Pte(ps.ents[l].pfn, CopyFlags(g, l))
  }

  /** Everything outside the frames that were free stays as it was. */
  predicate KeptHeld(v: Phys, w: Phys) {
    |w.mem| == |v.mem|
    && forall f: nat | f < |v.mem| && f !in PL.Free(v.pt) && f !in PL.Free(v.user) :: w.mem[f] == v.mem[f]
  }

  predicate SameRegions(v: Phys, w: Phys) {
    && w.pt.start == v.pt.start && w.pt.size == v.pt.size
    && w.user.start == v.user.start && w.user.size == v.user.size
  }

  /** Where the page-table frames came from. */
  ghost predicate ChildTables(v: Phys, ps: Space, w: Phys, cs: Space) {
    && cs.owner.Keys <= PL.Free(v.pt) && cs.owner.Keys !! ps.owner.Keys
    && PL.Free(w.pt) == PL.Free(v.pt) - cs.owner.Keys
    && |PL.Supply(w.pt)| + 1 + |TableNodes(cs)| == |PL.Supply(v.pt)|
    && (forall n | n in cs.ents && !n.Leaf? :: n in TableNodes(ps) && !KernelSide(n))
    && OpenTables(cs)
  }

  /** The tables that lead to a process's pages, as the set-up code makes them: none of
      them stands in the way of a user access. */
  ghost predicate OpenTables(s: Space) {
    forall n | n in s.ents && !n.Leaf? && !KernelSide(n) :: s.ents[n].flags == 7
  }

  lemma OpenStep(s: Space, t: Space)
    requires OpenTables(s) && NewTables(s, t, 7)
    ensures OpenTables(t)
  {
  }

  /** Where its pages came from: `shared` keep the parent's frame, `priv` says which
      page each new frame copies. */
  ghost predicate ChildPages(v: Phys, ps: Space, w: Phys, cs: Space, g: Segs, shared: set<Node>, priv: map<nat, Node>) {
    && (forall l | l in shared :: SharedWith(ps, cs, g, l))
    && (forall f | f in priv :: CopyOf(v, ps, w, cs, g, f, priv[f]))
    && (forall l | l in cs.ents && l.Leaf? :: l in shared || (cs.ents[l].pfn in priv && priv[cs.ents[l].pfn] == l))
    && PL.Free(w.user) == PL.Free(v.user) - priv.Keys
    && |PL.Supply(w.user)| + |priv| == |PL.Supply(v.user)|
  }

  ghost predicate Forking(v: Phys, ps: Space, w: Phys, cs: Space, g: Segs, shared: set<Node>, priv: map<nat, Node>) {
    && Holds(w, cs) && Holds(w, ps) && UserTree(cs)
    && KeptHeld(v, w) && SameRegions(v, w)
    && ChildTables(v, ps, w, cs)
    && ChildPages(v, ps, w, cs, g, shared, priv)
  }

  lemma PathInParent(ps: Space, l: Node)
    requires Shaped(ps) && l.Leaf? && l in ps.ents
    ensures PathTables(l) <= TableNodes(ps)
    ensures forall n | n in PathTables(l) :: !KernelSide(n)
  {
    PathOfLeaf(ps, l);
  }

  /** Mapping a page of the parent's needs no more tables than the parent has. */
  lemma EnoughTables(v: Phys, ps: Space, w: Phys, cs: Space, l: Node)
    requires PhysOk(v) && Holds(w, ps) && Holds(w, cs) && ChildTables(v, ps, w, cs)
    requires l.Leaf? && l in ps.ents && |PL.Supply(v.pt)| >= 1 + |TableNodes(ps)|
    ensures |PL.Supply(w.pt)| >= Missing(cs, l)
  {
    hide PL.Shape, PL.Supply, PL.Free, PhysOk;
    PathInParent(ps, l);
    var lack := PathTables(l) - cs.ents.Keys;
    MissingCount(cs, l);
    assert TableNodes(cs) + lack <= TableNodes(ps);
    PL.SubsetSize(TableNodes(cs) + lack, TableNodes(ps));
    assert TableNodes(cs) !! lack;
    assert |TableNodes(cs) + lack| == |TableNodes(cs)| + |lack|;
  }

  lemma UnionSize<T>(a: set<T>, b: set<T>)
    requires a !! b
    ensures |a + b| == |a| + |b|
  {
  }

  function Lack(s: Space, n: Node): (r: set<Node>)
    ensures |r| == if n in s.ents then 0 else 1
  {
    if n in s.ents then {} else {n}
  }

  lemma LackUnion(s: Space, l: Node)
    requires l.Leaf?
    ensures var s1, s2, s3 := Lack(s, Pud(l.a)), Lack(s, Pmd(l.a, l.b)), Lack(s, Pt(l.a, l.b, l.c));
      PathTables(l) - s.ents.Keys == (s1 + s2) + s3 && s1 !! s2 && (s1 + s2) !! s3
  {
    assert Pud(l.a) != Pmd(l.a, l.b) && Pud(l.a) != Pt(l.a, l.b, l.c) && Pmd(l.a, l.b) != Pt(l.a, l.b, l.c);
    LackParts(s, Pud(l.a), Pmd(l.a, l.b), Pt(l.a, l.b, l.c));
  }

  lemma LackParts(s: Space, x: Node, y: Node, z: Node)
    requires x != y && x != z && y != z
    ensures {x, y, z} - s.ents.Keys == (Lack(s, x) + Lack(s, y)) + Lack(s, z)
    ensures Lack(s, x) !! Lack(s, y) && (Lack(s, x) + Lack(s, y)) !! Lack(s, z)
  {
  }

  lemma MissingCount(s: Space, l: Node)
    requires l.Leaf?
    ensures |PathTables(l) - s.ents.Keys| == Missing(s, l)
  {
    hide Lack, PathTables;
    LackUnion(s, l);
    var s1, s2, s3 := Lack(s, Pud(l.a)), Lack(s, Pmd(l.a, l.b)), Lack(s, Pt(l.a, l.b, l.c));
    UnionSize(s1, s2);
    UnionSize(s1 + s2, s3);
  }

  lemma TableNodesAdded(s: Space, t: Space, l: Node)
    requires l.Leaf? && t.ents.Keys == s.ents.Keys + PathTables(l) + {l}
    requires forall n | n in PathTables(l) :: !KernelSide(n)
    ensures TableNodes(t) == TableNodes(s) + (PathTables(l) - s.ents.Keys)
    ensures TableNodes(s) !! (PathTables(l) - s.ents.Keys)
  {
    hide KernelSide;
    assert forall n | n in PathTables(l) :: !Huge(n) && !n.Leaf?;
    hide PathTables;
    forall n
      ensures n in TableNodes(t) <==> n in TableNodes(s) || n in PathTables(l) - s.ents.Keys
    {
      assert n in t.ents <==> n in s.ents || n in PathTables(l) || n == l;
    }
  }

  lemma TableNodesStep(s: Space, t: Space, l: Node)
    requires l.Leaf? && t.ents.Keys == s.ents.Keys + PathTables(l) + {l}
    requires forall n | n in PathTables(l) :: !KernelSide(n)
    ensures |TableNodes(t)| == |TableNodes(s)| + Missing(s, l)
  {
    TableNodesAdded(s, t, l);
    hide TableNodes, PathTables, Missing;
    MissingCount(s, l);
    UnionSize(TableNodes(s), PathTables(l) - s.ents.Keys);
  }

  lemma TablesStep(v: Phys, ps: Space, w: Phys, cs: Space, x: Phys, ct: Space, l: Node, p: Pte)
    requires PhysOk(v) && Holds(w, ps) && Holds(w, cs) && ChildTables(v, ps, w, cs)
    requires l.Leaf? && l in ps.ents && Mapped(w, cs, x, ct, l, p) && NewTables(cs, ct, 7)
    ensures ChildTables(v, ps, x, ct)
    ensures ct.owner.Keys <= PL.Free(v.pt)
  {
    hide PL.Shape, PL.Ledger, PL.Supply, PL.Free, Holds, Leaves, Huges, UserTree, KernelSide, Missing;
    hide TableNodes, PathTables, Grown;
    TableFrames(v, ps, w, cs, x, ct);
    TablePaths(ps, cs, ct, l, w);
    TableNodesStep(cs, ct, l);
    OpenStep(cs, ct);
    hide NewTables, OpenTables;
  }

  lemma TableFrames(v: Phys, ps: Space, w: Phys, cs: Space, x: Phys, ct: Space)
    requires Holds(w, ps) && cs.owner.Keys <= PL.Free(v.pt) && cs.owner.Keys !! ps.owner.Keys
    requires PL.Free(w.pt) == PL.Free(v.pt) - cs.owner.Keys && Grown(w, cs, x, ct)
    ensures ct.owner.Keys <= PL.Free(v.pt) && ct.owner.Keys !! ps.owner.Keys
    ensures PL.Free(x.pt) == PL.Free(v.pt) - ct.owner.Keys
  {
    hide PL.Supply, PL.Free, Holds;
    HeldNotFree(w, ps);
    PL.SupplyIsFree(w.pt);
    FramesAdded(PL.Free(v.pt), PL.Free(w.pt), PL.Supply(w.pt), PL.Free(x.pt), cs.owner.Keys, ct.owner.Keys,
      ps.owner.Keys);
  }

  lemma FramesAdded(before: set<nat>, free: set<nat>, reach: set<nat>, after: set<nat>, cs: set<nat>, ct: set<nat>,
                    ps: set<nat>)
    requires cs <= before && cs !! ps && free == before - cs && reach <= free && ps !! free
    requires cs <= ct <= cs + reach && after == free - ct
    ensures ct <= before && ct !! ps && after == before - ct
  {
  }

  lemma TablePaths(ps: Space, cs: Space, ct: Space, l: Node, w: Phys)
    requires Holds(w, ps) && l.Leaf? && l in ps.ents && ct.ents.Keys == cs.ents.Keys + PathTables(l) + {l}
    requires forall n | n in cs.ents && !n.Leaf? :: n in TableNodes(ps) && !KernelSide(n)
    ensures forall n | n in ct.ents && !n.Leaf? :: n in TableNodes(ps) && !KernelSide(n)
    ensures forall n | n in PathTables(l) :: !KernelSide(n)
  {
    HeldShaped(w, ps);
    PathInParent(ps, l);
    hide PathTables, Holds, TableNodes, KernelSide, Shaped;
    forall n | n in ct.ents && !n.Leaf?
      ensures n in TableNodes(ps) && !KernelSide(n)
    {
      assert n in cs.ents || n in PathTables(l);
    }
  }

  lemma KeptStep(v: Phys, w: Phys, cs: Space, x: Phys, ct: Space)
    requires PhysOk(v)
    requires KeptHeld(v, w) && Grown(w, cs, x, ct) && ct.owner.Keys <= PL.Free(v.pt)
    ensures KeptHeld(v, x)
  {
    hide PL.Shape, PL.Ledger, PL.Supply, PL.Free;
  }

  lemma LeafKept(s: Space, t: Space, l: Node, p: Pte, x: Node)
    requires Leaves(t) == Leaves(s)[l := p] && x.Leaf? && l.Leaf?
    ensures x in t.ents <==> x in s.ents || x == l
    ensures x in t.ents ==> t.ents[x] == if x == l then p else s.ents[x]
  {
    assert x in Leaves(t) <==> x in t.ents;
    assert x in Leaves(s) <==> x in s.ents;
  }

  lemma CopyKept(v: Phys, ps: Space, w: Phys, cs: Space, x: Phys, ct: Space, g: Segs, l: Node, p: Pte, f: nat, n: Node)
    requires PhysOk(v) && SameRegions(v, w)
    requires l.Leaf? && Leaves(ct) == Leaves(cs)[l := p] && l !in cs.ents
    requires CopyOf(v, ps, w, cs, g, f, n) && |x.mem| == |w.mem|
    requires f !in ct.owner ==> x.mem[f] == w.mem[f]
    requires ct.owner.Keys <= PL.Free(v.pt)
    ensures CopyOf(v, ps, x, ct, g, f, n)
  {
    LeafKept(cs, ct, l, p, n);
    UserFrameNotTable(v, f);
  }

  lemma UserFrameNotTable(v: Phys, f: nat)
    requires PhysOk(v) && f in PL.Free(v.user)
    ensures f !in PL.Free(v.pt) && v.user.start <= f < |v.mem|
  {
  }

  lemma PagesKept(v: Phys, ps: Space, w: Phys, cs: Space, x: Phys, ct: Space, g: Segs, l: Node, p: Pte,
                  shared: set<Node>, priv: map<nat, Node>)
    requires PhysOk(v) && SameRegions(v, w)
    requires l.Leaf? && Leaves(ct) == Leaves(cs)[l := p] && l !in cs.ents
    requires ChildPages(v, ps, w, cs, g, shared, priv)
    requires Grown(w, cs, x, ct) && ct.owner.Keys <= PL.Free(v.pt)
    ensures forall n | n in shared :: SharedWith(ps, ct, g, n)
    ensures forall f | f in priv :: CopyOf(v, ps, x, ct, g, f, priv[f])
    ensures forall n | n in ct.ents && n.Leaf? && n != l ::
      n in shared || (ct.ents[n].pfn in priv && priv[ct.ents[n].pfn] == n)
  {
    hide PL.Shape, PL.Ledger, PL.Supply, PL.Free, Leaves, CopyOf, CopyFlags;
    forall n | n in shared
      ensures SharedWith(ps, ct, g, n)
    {
      assert SharedWith(ps, cs, g, n);
      LeafKept(cs, ct, l, p, n);
    }
    forall f | f in priv
      ensures CopyOf(v, ps, x, ct, g, f, priv[f])
    {
      CopyBound(v, ps, w, cs, g, f, priv[f]);
      CopyKept(v, ps, w, cs, x, ct, g, l, p, f, priv[f]);
    }
    forall n | n in ct.ents && n.Leaf? && n != l
      ensures n in cs.ents && ct.ents[n] == cs.ents[n]
    {
      LeafKept(cs, ct, l, p, n);
    }
  }

  lemma CopyBound(v: Phys, ps: Space, w: Phys, cs: Space, g: Segs, f: nat, n: Node)
    requires CopyOf(v, ps, w, cs, g, f, n)
    ensures f < |w.mem| && f in PL.Free(v.user)
  {
  }

  /** Mapping one more page in the child: all but the list of its pages. */
  lemma MappedStep(v: Phys, ps: Space, w: Phys, cs: Space, x: Phys, ct: Space, g: Segs, shared: set<Node>,
                   priv: map<nat, Node>, l: Node, p: Pte)
    requires PhysOk(v) && Forking(v, ps, w, cs, g, shared, priv)
    requires l.Leaf? && l in ps.ents && Mapped(w, cs, x, ct, l, p) && NewTables(cs, ct, 7)
    requires x.user.start == w.user.start && x.user.size == w.user.size
    ensures Holds(x, ct) && Holds(x, ps) && UserTree(ct)
    ensures KeptHeld(v, x) && SameRegions(v, x) && ChildTables(v, ps, x, ct)
    ensures ct.owner.Keys <= PL.Free(v.pt) && Grown(w, cs, x, ct)
  {
    hide NewTables;
    hide Holds, PhysOk, ChildTables, KeptHeld, ChildPages, UserTree, Leaves, Huges, PathTables, Missing;
    hide PL.Free, PL.Supply;
    TablesStep(v, ps, w, cs, x, ct, l, p);
    OwnersApart(v, ps, w, cs);
    OtherHolds(w, cs, x, ct, ps);
    KeptStep(v, w, cs, x, ct);
  }

  lemma OwnersApart(v: Phys, ps: Space, w: Phys, cs: Space)
    requires ChildTables(v, ps, w, cs)
    ensures cs.owner.Keys !! ps.owner.Keys
  {
  }

  /** A shared page: the child maps the parent's frame. */
  lemma ShareStep(v: Phys, ps: Space, w: Phys, cs: Space, x: Phys, ct: Space, g: Segs, shared: set<Node>,
                  priv: map<nat, Node>, l: Node)
    requires PhysOk(v) && Forking(v, ps, w, cs, g, shared, priv)
    requires l.Leaf? && l in ps.ents && l !in cs.ents && x.user == w.user
    requires Mapped(w, cs, x, ct, l, Pte(ps.ents[l].pfn, CopyFlags(g, l))) && NewTables(cs, ct, 7)
    ensures Forking(v, ps, x, ct, g, shared + {l}, priv)
  {
    hide NewTables;
    hide Holds, PhysOk, ChildTables, KeptHeld, UserTree, Leaves, Huges, PathTables, Missing, PL.Free;
    hide PL.Supply, CopyOf, CopyFlags, Grown;
    var p := Pte(ps.ents[l].pfn, CopyFlags(g, l));
    MappedStep(v, ps, w, cs, x, ct, g, shared, priv, l, p);
    PagesKept(v, ps, w, cs, x, ct, g, l, p, shared, priv);
    LeafKept(cs, ct, l, p, l);
  }

  lemma HeldFrameKept(v: Phys, x: Phys, q: nat)
    requires PhysOk(v) && KeptHeld(v, x) && Taken(v.user, q)
    ensures q < |v.mem| && q < |x.mem| && x.mem[q] == v.mem[q] && q !in PL.Free(v.user) && v.user.start <= q
  {
    PL.FreeMembership(v.user, q);
  }

  lemma WriteKept(v: Phys, x: Phys, r: nat, frame: seq<nat>)
    requires PhysOk(v) && KeptHeld(v, x) && r in PL.Free(v.user) && r < |x.mem|
    ensures KeptHeld(v, x.(mem := x.mem[r := frame]))
  {
    hide PL.Free, PL.Shape;
  }

  lemma CopyWritten(v: Phys, ps: Space, x: Phys, ct: Space, g: Segs, f: nat, n: Node, r: nat, frame: seq<nat>)
    requires CopyOf(v, ps, x, ct, g, f, n) && r < |x.mem| && f != r
    ensures CopyOf(v, ps, x.(mem := x.mem[r := frame]), ct, g, f, n)
  {
    hide PL.Free;
  }

  /** The pages after a private copy. */
  lemma PrivatePages(v: Phys, ps: Space, w: Phys, cs: Space, x: Phys, ct: Space, g: Segs,
                     shared: set<Node>, priv: map<nat, Node>, l: Node, r: nat)
    requires PhysOk(v) && Forking(v, ps, w, cs, g, shared, priv)
    requires l.Leaf? && l in ps.ents && l !in cs.ents && Taken(v.user, ps.ents[l].pfn)
    requires PL.Supply(w.user) != {} && r == PL.Picked(w.user) && x.user == PL.Take(w.user)
    requires Mapped(w, cs, x, ct, l, Pte(r, CopyFlags(g, l)))
    requires KeptHeld(v, x) && SameRegions(v, x) && r < |x.mem| && ct.owner.Keys <= PL.Free(v.pt)
    ensures r in PL.Free(v.user) && r !in priv && ps.ents[l].pfn < |x.mem|
    ensures var y := x.(mem := x.mem[r := x.mem[ps.ents[l].pfn]]);
      ChildPages(v, ps, y, ct, g, shared, priv[r := l])
  {
    hide Holds, PhysOk, ChildTables, KeptHeld, UserTree, Leaves, Huges, PathTables, Missing, PL.Shape;
    hide PL.Free, PL.Supply, PL.Picked, PL.Take, CopyOf, CopyFlags, Grown, Taken;
    var p, q := Pte(r, CopyFlags(g, l)), ps.ents[l].pfn;
    UserListShape(w, cs);
    TakeFrame(w.user);
    HeldFrameKept(v, x, q);
    PagesKept(v, ps, w, cs, x, ct, g, l, p, shared, priv);
    LeafKept(cs, ct, l, p, l);
    var y := x.(mem := x.mem[r := x.mem[q]]);
    forall f | f in priv
      ensures CopyOf(v, ps, y, ct, g, f, priv[f])
    {
      CopyWritten(v, ps, x, ct, g, f, priv[f], r, x.mem[q]);
    }
    NewCopy(v, ps, y, ct, g, r, l);
  }

  lemma NewCopy(v: Phys, ps: Space, y: Phys, ct: Space, g: Segs, r: nat, l: Node)
    requires l.Leaf? && l in ps.ents && l in ct.ents && ct.ents[l] == Pte(r, CopyFlags(g, l)) && r in PL.Free(v.user)
    requires r < |y.mem| && ps.ents[l].pfn < |v.mem| && y.mem[r] == v.mem[ps.ents[l].pfn]
    ensures CopyOf(v, ps, y, ct, g, r, l)
  {
  }

  lemma UserListShape(w: Phys, cs: Space)
    requires Holds(w, cs)
    ensures PhysOk(w) && PL.Shape(w.user)
  {
  }

  /** A private page: a new frame with the parent's contents. */
  lemma PrivateStep(v: Phys, ps: Space, w: Phys, cs: Space, x: Phys, ct: Space, g: Segs,
                    shared: set<Node>, priv: map<nat, Node>, l: Node, r: nat)
    requires PhysOk(v) && Forking(v, ps, w, cs, g, shared, priv)
    requires l.Leaf? && l in ps.ents && l !in cs.ents && Taken(v.user, ps.ents[l].pfn)
    requires PL.Supply(w.user) != {} && r == PL.Picked(w.user) && x.user == PL.Take(w.user) && r < |x.mem|
    requires Mapped(w, cs, x, ct, l, Pte(r, CopyFlags(g, l))) && NewTables(cs, ct, 7)
    ensures ps.ents[l].pfn < |x.mem| && r != ps.ents[l].pfn
    ensures var y := x.(mem := x.mem[r := x.mem[ps.ents[l].pfn]]);
      Forking(v, ps, y, ct, g, shared, priv[r := l])
  {
    hide NewTables;
    hide Holds, PhysOk, ChildPages, KeptHeld, UserTree, Leaves, Huges, PathTables, TableNodes, Missing;
    hide PL.Shape, PL.Free, PL.Supply, PL.Picked, PL.Take, CopyFlags, Grown, Taken;
    UserListShape(w, cs);
    TakeFrame(w.user);
    MappedStep(v, ps, w, cs, x, ct, g, shared, priv, l, Pte(r, CopyFlags(g, l)));
    PrivatePages(v, ps, w, cs, x, ct, g, shared, priv, l, r);
    HeldFrameKept(v, x, ps.ents[l].pfn);
    var frame := x.mem[ps.ents[l].pfn];
    FrameLength(x, ct, ps.ents[l].pfn);
    FreeUserBounds(v, r);
    UserWrite(x, r, frame, ct);
    UserWrite(x, r, frame, ps);
    WriteKept(v, x, r, frame);
  }

  /** What the machine still satisfies when the copy stops short: everything held before,
      the parent's tree included, is as it was. */
  ghost predicate Stopped(v: Phys, ps: Space, w: Phys) {
    && PhysOk(v) && PhysOk(w) && Holds(w, ps) && KeptHeld(v, w) && SameRegions(v, w)
    && PL.Free(w.pt) <= PL.Free(v.pt) && PL.Free(w.user) <= PL.Free(v.user)
  }

  /** A page has been mapped in the child and the copy into it never happens. */
  lemma StoppedStep(v: Phys, ps: Space, w: Phys, cs: Space, x: Phys, ct: Space, g: Segs,
                    shared: set<Node>, priv: map<nat, Node>, l: Node, r: nat)
    requires PhysOk(v) && Forking(v, ps, w, cs, g, shared, priv)
    requires l.Leaf? && l in ps.ents
    requires PL.Supply(w.user) != {} && x.user == PL.Take(w.user)
    requires Mapped(w, cs, x, ct, l, Pte(r, CopyFlags(g, l))) && NewTables(cs, ct, 7)
    ensures Stopped(v, ps, x)
  {
    hide NewTables;
    hide Holds, PhysOk, KeptHeld, UserTree, Leaves, Huges, PathTables, TableNodes;
    hide Missing, PL.Shape, PL.Free, PL.Supply;
    hide PL.Picked, PL.Take, CopyFlags, Grown, Taken, CopyOf, SharedWith;
    UserListShape(w, cs);
    TakeFrame(w.user);
    MappedStep(v, ps, w, cs, x, ct, g, shared, priv, l, Pte(r, CopyFlags(g, l)));
    UserListShape(x, ct);
  }

  lemma FrameLength(x: Phys, ct: Space, f: nat)
    requires Holds(x, ct) && f < |x.mem|
    ensures |x.mem[f]| == ENTRIES
  {
  }

  lemma FreeUserBounds(v: Phys, r: nat)
    requires PhysOk(v) && r in PL.Free(v.user)
    ensures v.user.start <= r
  {
  }
}
