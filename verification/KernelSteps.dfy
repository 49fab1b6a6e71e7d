/** Expand, shrink, fork and exit on the whole kernel: each is the abstract step of
    Isolation, and each keeps the kernel's invariant. */
module KernelSteps {
  import opened PageTable
  import opened Physical
  import opened Install
  import opened KernelMap
  import opened Segments
  import opened Context
  import opened Fork
  import opened CopyLoops
  import opened CopyWhole
  import opened Shrink
  import opened Teardown
  import opened Isolation
  import opened Kernel
  import PL = PageList

  /** Slot i's process is replaced by another value of itself with another tree. */
  lemma ReplacedKernel(v: Phys, w: Phys, t: Space, x: ExecContext, ctxs: seq<ExecContext>, spaces: map<nat, Space>,
                       c: Config, i: nat)
    requires KernelOk(v, ctxs, spaces, c) && i in spaces && i < |ctxs|
    requires Holds(w, t) && Grown(v, spaces[i], w, t) && w.user.start == v.user.start && w.user.size == v.user.size
    requires x.osStackPfn == ctxs[i].osStackPfn && Live(w, x, t, c)
    requires SysOk(Abs(w, ctxs[i := x], spaces[i := t]))
    ensures KernelOk(w, ctxs[i := x], spaces[i := t], c)
  {
    hide PairOk, SysOk, Holds, ConfigOk, PhysOk, Grown, Abs, ProcessTree, UserTree;
    KernelSlotHeld(v, ctxs, spaces, c, i);
    HeldPhys(w, t);
    GrownApic(v, w, spaces[i], t, c);
    hide Live;
    forall j | j in spaces && j != i
      ensures Live(w, ctxs[j], spaces[j], c) && PairOk(x, t, ctxs[j], spaces[j]) && PairOk(ctxs[j], spaces[j], x, t)
    {
      OtherSlot(v, spaces[i], w, t, ctxs[i], ctxs[j], spaces[j], c);
      SamePair(ctxs[i], x, t, ctxs[j], spaces[j]);
      PairSymmetric(x, t, ctxs[j], spaces[j]);
    }
    LiveUsed(w, x, t, c);
  }

  lemma SamePair(x: ExecContext, x': ExecContext, s: Space, y: ExecContext, t: Space)
    requires PairOk(x, s, y, t) && x'.osStackPfn == x.osStackPfn
    ensures PairOk(x', s, y, t)
  {
  }

  lemma LiveUsed(w: Phys, x: ExecContext, t: Space, c: Config)
    requires Live(w, x, t, c)
    ensures x.state != Unused
  {
  }

  // ---- Expand -----------------------------------------------------------

  function WithSegs(x: ExecContext, g: Segs): ExecContext {
    x.(segs := g)
  }

  lemma AbsSegs(v: Phys, ctxs: seq<ExecContext>, spaces: map<nat, Space>, i: nat, g: Segs)
    requires i in spaces && i < |ctxs|
    ensures var a := Abs(v, ctxs, spaces);
      Abs(v, ctxs[i := WithSegs(ctxs[i], g)], spaces) == a.(procs := a.procs[i := a.procs[i].(segs := g)])
  {
    hide Leaves, PL.Free;
    var a, b := Abs(v, ctxs, spaces), Abs(v, ctxs[i := WithSegs(ctxs[i], g)], spaces);
    assert b.procs == a.procs[i := a.procs[i].(segs := g)];
  }

  lemma ExpandKernel(v: Phys, ctxs: seq<ExecContext>, spaces: map<nat, Space>, c: Config, i: nat, which: Which,
                     nextFree: nat)
    requires KernelOk(v, ctxs, spaces, c) && i in spaces && i < |ctxs|
    requires SegOf(ctxs[i].segs, which).nextFree <= nextFree <= SegOf(ctxs[i].segs, which).end && Aligned(nextFree)
    ensures var ctxs' := ctxs[i := WithSegs(ctxs[i], WithBreak(ctxs[i].segs, which, nextFree))];
      && ExpandStep(Abs(v, ctxs, spaces), Abs(v, ctxs', spaces), i, which, nextFree)
      && KernelOk(v, ctxs', spaces, c)
  {
    hide PairOk, SysOk, ConfigOk, PhysOk, WithBreak, SegOf, Abs, Live, Leaves;
    var g := WithBreak(ctxs[i].segs, which, nextFree);
    var x := WithSegs(ctxs[i], g);
    KernelSlot(v, ctxs, spaces, c, i);
    AbsSegs(v, ctxs, spaces, i, g);
    ExpandKeeps(Abs(v, ctxs, spaces), Abs(v, ctxs[i := x], spaces), i, which, nextFree);
    LiveSegs(v, ctxs[i], g, spaces[i], c);
    assert spaces[i := spaces[i]] == spaces;
    LiveHolds(v, ctxs[i], spaces[i], c);
    GrownReflexive(v, spaces[i]);
    ReplacedKernel(v, v, spaces[i], x, ctxs, spaces, c, i);
  }

  lemma LiveHolds(v: Phys, x: ExecContext, s: Space, c: Config)
    requires Live(v, x, s, c)
    ensures Holds(v, s) && UserTree(s) && ProcessTree(s, c) && KernelEntries(s, c) && s.root == x.pgd
  {
  }

  lemma LiveSegs(v: Phys, x: ExecContext, g: Segs, s: Space, c: Config)
    requires Live(v, x, s, c)
    ensures Live(v, WithSegs(x, g), s, c)
  {
  }

  // ---- Shrink -----------------------------------------------------------

  lemma CutLeaves(s: Space, lo: nat, hi: nat)
    ensures Leaves(Cut(s, lo, hi)) == Leaves(s) - PagesIn(s, lo, hi)
  {
  }

  lemma BetweenIsPagesIn(s: Space, g: Segs, lo: nat, hi: nat)
    ensures Between(Proc(g, Leaves(s)), lo, hi) == PagesIn(s, lo, hi)
  {
    forall l
      ensures l in Between(Proc(g, Leaves(s)), lo, hi) <==> l in PagesIn(s, lo, hi)
    {
      assert l in Leaves(s) <==> l in s.ents && l.Leaf?;
    }
  }

  lemma FramesAtIsFramesOf(s: Space, g: Segs, lo: nat, hi: nat)
    ensures FramesAt(Proc(g, Leaves(s)), PagesIn(s, lo, hi)) == FramesOf(s, PagesIn(s, lo, hi))
  {
    forall l | l in PagesIn(s, lo, hi)
      ensures l in Leaves(s) && Leaves(s)[l] == s.ents[l]
    {
    }
  }

  lemma AbsShrunk(v: Phys, w: Phys, t: Space, ctxs: seq<ExecContext>, spaces: map<nat, Space>, i: nat, which: Which,
                  nextFree: nat)
    requires i in spaces && i < |ctxs|
    requires Removed(v, spaces[i], w, t, nextFree, SegOf(ctxs[i].segs, which).nextFree)
    ensures var g := WithBreak(ctxs[i].segs, which, nextFree);
      var a, b := Abs(v, ctxs, spaces), Abs(w, ctxs[i := WithSegs(ctxs[i], g)], spaces[i := t]);
      && b.procs == a.procs[i := ShrinkProc(a.procs[i], which, nextFree)]
      && b.free == a.free + FramesAt(a.procs[i], Between(a.procs[i], nextFree, SegOf(ctxs[i].segs, which).nextFree))
  {
    hide PL.Free, Leaves, PagesIn, Holds, Grown, UserTree, Between, FramesAt, FramesOf, WithBreak, SegOf;
    var s, hi := spaces[i], SegOf(ctxs[i].segs, which).nextFree;
    CutLeaves(s, nextFree, hi);
    BetweenIsPagesIn(s, ctxs[i].segs, nextFree, hi);
    FramesAtIsFramesOf(s, ctxs[i].segs, nextFree, hi);
    var g := WithBreak(ctxs[i].segs, which, nextFree);
    var a, b := Abs(v, ctxs, spaces), Abs(w, ctxs[i := WithSegs(ctxs[i], g)], spaces[i := t]);
    assert b.procs == a.procs[i := ShrinkProc(a.procs[i], which, nextFree)];
  }

  lemma CutTree(s: Space, lo: nat, hi: nat, c: Config)
    requires ProcessTree(s, c)
    ensures ProcessTree(Cut(s, lo, hi), c)
  {
    hide SideOk;
    ApicNotLeaf(c);
  }

  lemma CutHuges(s: Space, lo: nat, hi: nat)
    ensures Huges(Cut(s, lo, hi)) == Huges(s)
  {
    assert forall n | n in s.ents && Huge(n) :: n in Cut(s, lo, hi).ents;
  }

  lemma ApicNotLeaf(c: Config)
    ensures !ApicSlot(c).Leaf?
  {
  }

  lemma ShrunkLive(v: Phys, s: Space, w: Phys, t: Space, x: ExecContext, g: Segs, c: Config, lo: nat, hi: nat)
    requires Live(v, x, s, c) && Removed(v, s, w, t, lo, hi)
    ensures Live(w, WithSegs(x, g), t, c)
  {
    hide PL.Free, PL.Supply, Wf, PhysOk, ProcessTree, UserTree, Taken, PagesIn, Huges, KernelHuges;
    CutHuges(s, lo, hi);
    CutTree(s, lo, hi, c);
    StackNotReach(v, x);
  }

  /** A shrink on the whole kernel. The abstract step holds in any case; the
      invariant afterwards is a matter of whether the frames were shared. */
  lemma ShrinkKernel(v: Phys, w: Phys, t: Space, ctxs: seq<ExecContext>, spaces: map<nat, Space>, c: Config, i: nat,
                     which: Which, nextFree: nat)
    requires KernelOk(v, ctxs, spaces, c) && i in spaces && i < |ctxs|
    requires SegOf(ctxs[i].segs, which).start <= nextFree <= SegOf(ctxs[i].segs, which).nextFree && Aligned(nextFree)
    requires Removed(v, spaces[i], w, t, nextFree, SegOf(ctxs[i].segs, which).nextFree)
    ensures i in Abs(v, ctxs, spaces).procs
    ensures var ctxs' := ctxs[i := WithSegs(ctxs[i], WithBreak(ctxs[i].segs, which, nextFree))];
      && ShrinkStep(Abs(v, ctxs, spaces), Abs(w, ctxs', spaces[i := t]), i, which, nextFree)
      && (KernelOk(w, ctxs', spaces[i := t], c) <==> Unshared(Abs(v, ctxs, spaces), i, which, nextFree))
  {
    hide PairOk, SysOk, ConfigOk, PhysOk, WithBreak, Abs, Live, Leaves, Between, FramesAt, Unshared, ShrinkProc;
    var g := WithBreak(ctxs[i].segs, which, nextFree);
    var x := WithSegs(ctxs[i], g);
    KernelSlot(v, ctxs, spaces, c, i);
    AbsShrunk(v, w, t, ctxs, spaces, i, which, nextFree);
    var a, b := Abs(v, ctxs, spaces), Abs(w, ctxs[i := x], spaces[i := t]);
    ShrinkKeepsIff(a, b, i, which, nextFree);
    if SysOk(b) {
      RemovedFacts(v, spaces[i], w, t, nextFree, SegOf(ctxs[i].segs, which).nextFree);
      ShrunkLive(v, spaces[i], w, t, ctxs[i], g, c, nextFree, SegOf(ctxs[i].segs, which).nextFree);
      ReplacedKernel(v, w, t, x, ctxs, spaces, c, i);
    }
  }

  lemma RemovedFacts(v: Phys, s: Space, w: Phys, t: Space, lo: nat, hi: nat)
    requires Removed(v, s, w, t, lo, hi)
    ensures Holds(w, t) && Grown(v, s, w, t) && w.user.start == v.user.start && w.user.size == v.user.size
  {
  }

  // ---- Fork -------------------------------------------------------------

  /** The frames a fork may change were all free before it. */
  lemma HeldUnchanged(v: Phys, w: Phys, o: Space)
    requires Holds(v, o) && PhysOk(v) && KeptHeld(v, w)
    ensures forall f | f in o.owner && f < |v.mem| :: w.mem[f] == v.mem[f]
  {
    HeldNotFree(v, o);
    HeldBounds(v, o);
    hide PL.Free, PL.Supply, Wf;
    forall f | f in o.owner && f < |v.mem|
      ensures w.mem[f] == v.mem[f]
    {
      NotUserFree(v, f);
    }
  }

  lemma NotUserFree(v: Phys, f: nat)
    requires PhysOk(v) && f < v.user.start
    ensures f !in PL.Free(v.user)
  {
  }

  /** The other processes when a child is made. */
  lemma ForkOther(v: Phys, w: Phys, ct: Space, stack: nat, y: ExecContext, o: Space, c: Config)
    requires Live(v, y, o, c) && PhysOk(v) && PhysOk(w) && KeptHeld(v, w) && SameRegions(v, w)
    requires PL.Free(w.pt) <= PL.Free(v.pt) && ct.owner.Keys <= PL.Free(v.pt) && stack in PL.Free(v.pt)
    ensures Live(w, y, o, c) && ct.owner.Keys !! o.owner.Keys && y.osStackPfn !in ct.owner && stack !in o.owner
    ensures stack != y.osStackPfn
  {
    hide PL.Free, PL.Shape, PL.Ledger, Taken;
    LiveHolds(v, y, o, c);
    LiveStack(v, y, o, c);
    hide Live, Holds;
    HeldUnchanged(v, w, o);
    OtherAgree(v, w, y, o, c);
    HeldNotFree(v, o);
    StackNotReach(v, y);
  }

  lemma LiveStack(v: Phys, y: ExecContext, o: Space, c: Config)
    requires Live(v, y, o, c)
    ensures Taken(v.pt, y.osStackPfn)
  {
  }

  lemma ChildLive(v: Phys, w: Phys, ps: Space, ct: Space, x: ExecContext, g: Segs, priv: map<nat, Node>, c: Config,
                  y: ExecContext)
    requires PhysOk(v) && Live(v, y, ps, c) && SameRegions(v, w) && SegsOk(g)
    requires Holds(w, ct) && UserTree(ct) && ProcessTree(ct, c) && KernelEntries(ct, c)
    requires ChildPagesExactly(v, ps, w, ct, g, priv)
    requires x.pgd == ct.root && x.state != Unused && Taken(w.pt, x.osStackPfn) && x.osStackPfn !in ct.owner
    requires PL.Free(v.user) !! {v.user.start}
    ensures Live(w, x, ct, c)
  {
    hide PL.Free, PL.Shape, PL.Ledger, Taken, Holds, UserTree, ProcessTree, KernelEntries, SharedPage;
    hide PrivatePage, CopyFlags, SegsOk;
    forall l | l in ct.ents && l.Leaf?
      ensures w.user.start < ct.ents[l].pfn < w.user.start + w.user.size
    {
      ChildFrameRange(v, w, ps, ct, g, priv, c, y, l);
    }
  }

  lemma ChildFrameRange(v: Phys, w: Phys, ps: Space, ct: Space, g: Segs, priv: map<nat, Node>, c: Config,
                        y: ExecContext, l: Node)
    requires PhysOk(v) && Live(v, y, ps, c) && ChildPagesExactly(v, ps, w, ct, g, priv) && l in ct.ents && l.Leaf?
    requires PL.Free(v.user) !! {v.user.start}
    ensures v.user.start < ct.ents[l].pfn < v.user.start + v.user.size
  {
    hide PL.Free, PL.Shape, PL.Ledger, Taken, Holds, UserTree, ProcessTree, KernelEntries, SharedPage;
    hide PrivatePage, CopyFlags;
    if SharedPage(g, l) {
      assert SharedWith(ps, ct, g, l);
    } else {
      assert CopyOf(v, ps, w, ct, g, ct.ents[l].pfn, priv[ct.ents[l].pfn]);
      FreeRange(v.user, ct.ents[l].pfn);
    }
  }

  lemma FreeRange(u: PL.State, f: nat)
    requires PL.Shape(u) && f in PL.Free(u)
    ensures u.start <= f < u.start + u.size
  {
  }

  lemma FirstFrameTaken(v: Phys)
    requires PhysOk(v)
    ensures PL.Free(v.user) !! {v.user.start}
  {
  }

  /** What `ChildPagesExactly` says, in the terms of the abstract fork. */
  lemma ForkedChild(v: Phys, ps: Space, w: Phys, ct: Space, g: Segs, priv: map<nat, Node>)
    requires ChildPagesExactly(v, ps, w, ct, g, priv) && SegsOk(g)
    ensures ChildOf(Proc(g, Leaves(ps)), Proc(g, Leaves(ct)), PL.Free(v.user))
    ensures PrivateFrames(Proc(g, Leaves(ct)), g) == priv.Keys
  {
    hide PL.Free, SharedPage, PrivatePage, SegsOk, WriteFlag, CopyFlags, Leaves;
    SharedLeaves(g);
    LeavesAre(ps);
    LeavesAre(ct);
    var b := Proc(g, Leaves(ct));
    forall l | l in b.pages
      ensures SharedPage(g, l) ==> SharedWith(ps, ct, g, l) && !WriteFlag(b.pages[l])
      ensures PrivatePage(g, l) ==> b.pages[l].pfn in PL.Free(v.user) && priv[b.pages[l].pfn] == l
    {
      ChildEntry(v, ps, w, ct, g, priv, l);
    }
    forall f
      ensures f in PrivateFrames(b, g) <==> f in priv
    {
      if f in priv {
        CopyEntry(v, ps, w, ct, g, priv, f);
      }
    }
  }

  lemma LeavesAre(s: Space)
    ensures forall l :: l in Leaves(s) <==> l in s.ents && l.Leaf?
    ensures forall l | l in Leaves(s) :: Leaves(s)[l] == s.ents[l]
  {
  }

  lemma ChildEntry(v: Phys, ps: Space, w: Phys, ct: Space, g: Segs, priv: map<nat, Node>, l: Node)
    requires ChildPagesExactly(v, ps, w, ct, g, priv) && SegsOk(g) && l in ct.ents && l.Leaf?
    ensures SharedPage(g, l) ==> SharedWith(ps, ct, g, l) && !WriteFlag(ct.ents[l])
    ensures PrivatePage(g, l) ==>
      ct.ents[l].pfn in PL.Free(v.user) && ct.ents[l].pfn in priv && priv[ct.ents[l].pfn] == l
  {
    hide PL.Free, SegsOk;
    if SharedPage(g, l) {
      assert SharedWith(ps, ct, g, l);
      SharedFlagsOff(g, l);
    }
    if PrivatePage(g, l) {
      assert CopyOf(v, ps, w, ct, g, ct.ents[l].pfn, priv[ct.ents[l].pfn]);
    }
  }

  lemma SharedFlagsOff(g: Segs, l: Node)
    requires SegsOk(g) && SharedPage(g, l)
    ensures CopyFlags(g, l) == 5
  {
    AccessInSegment(g, l);
  }

  lemma CopyEntry(v: Phys, ps: Space, w: Phys, ct: Space, g: Segs, priv: map<nat, Node>, f: nat)
    requires ChildPagesExactly(v, ps, w, ct, g, priv) && f in priv
    ensures priv[f] in ct.ents && priv[f].Leaf? && ct.ents[priv[f]].pfn == f && PrivatePage(g, priv[f])
  {
    hide PL.Free;
    assert CopyOf(v, ps, w, ct, g, f, priv[f]);
  }

  lemma AbsForked(v: Phys, w: Phys, ctxs: seq<ExecContext>, spaces: map<nat, Space>, j: nat, y: ExecContext, ct: Space)
    requires j !in spaces && j < |ctxs| && forall i | i in spaces :: i < |ctxs|
    ensures Abs(w, ctxs[j := y], spaces[j := ct]).procs == Abs(v, ctxs, spaces).procs[j := Proc(y.segs, Leaves(ct))]
    ensures Abs(w, ctxs[j := y], spaces[j := ct]).free == PL.Free(w.user)
  {
    hide PL.Free, Leaves;
  }

  /** What a fork has made of the machine: the child's tree and its pages, and the OS
      stack frame; nothing that was held before has changed. */
  ghost predicate ForkMade(v: Phys, w: Phys, ps: Space, ct: Space, g: Segs, stack: nat, priv: map<nat, Node>,
                           c: Config) {
    && PhysOk(w) && KeptHeld(v, w) && SameRegions(v, w) && OpenTables(ct)
    && Holds(w, ct) && UserTree(ct) && ProcessTree(ct, c) && KernelEntries(ct, c)
    && ChildPagesExactly(v, ps, w, ct, g, priv)
    && PL.Free(w.pt) <= PL.Free(v.pt) && ct.owner.Keys <= PL.Free(v.pt)
    && stack in PL.Free(v.pt) && Taken(w.pt, stack) && stack !in ct.owner
  }

  /** A fork on the whole kernel. */
  lemma ForkKernel(v: Phys, w: Phys, ctxs: seq<ExecContext>, spaces: map<nat, Space>, c: Config, i: nat, j: nat,
                   y: ExecContext, ct: Space, priv: map<nat, Node>)
    requires KernelOk(v, ctxs, spaces, c) && i in spaces && i < |ctxs| && 1 <= j < MAX_PROCESSES && j !in spaces
    requires j < |ctxs|
    requires ForkMade(v, w, spaces[i], ct, ctxs[i].segs, y.osStackPfn, priv, c)
    requires y.segs == ctxs[i].segs && y.pgd == ct.root && y.state != Unused
    ensures ForkStep(Abs(v, ctxs, spaces), Abs(w, ctxs[j := y], spaces[j := ct]), i, j)
    ensures KernelOk(w, ctxs[j := y], spaces[j := ct], c)
  {
    hide PairOk, SysOk, ConfigOk, PhysOk, Abs, Leaves, ChildOf, PrivateFrames, PL.Free, Live, Holds, Taken;
    hide ProcessTree, UserTree, KeptHeld, KernelEntries;
    KernelSlot(v, ctxs, spaces, c, i);
    var g, a, b := ctxs[i].segs, Abs(v, ctxs, spaces), Abs(w, ctxs[j := y], spaces[j := ct]);
    ForkedChild(v, spaces[i], w, ct, g, priv);
    AbsForked(v, w, ctxs, spaces, j, y, ct);
    AbsKeys(v, ctxs, spaces);
    ForkFree(v, spaces[i], w, ct, g, priv);
    assert ForkStep(a, b, i, j);
    ForkKeeps(a, b, i, j);
    FirstFrameTaken(v);
    ChildLive(v, w, spaces[i], ct, y, g, priv, c, ctxs[i]);
    SameApic(v, w, c);
    ForkedSlots(v, w, ctxs, spaces, c, j, y, ct);
  }

  lemma AbsKeys(v: Phys, ctxs: seq<ExecContext>, spaces: map<nat, Space>)
    requires forall i | i in spaces :: i < |ctxs|
    ensures Abs(v, ctxs, spaces).procs.Keys == spaces.Keys && Abs(v, ctxs, spaces).free == PL.Free(v.user)
  {
    hide Leaves, PL.Free;
  }

  lemma ForkFree(v: Phys, ps: Space, w: Phys, ct: Space, g: Segs, priv: map<nat, Node>)
    requires ChildPagesExactly(v, ps, w, ct, g, priv)
    ensures PL.Free(w.user) == PL.Free(v.user) - priv.Keys
  {
  }

  lemma SameApic(v: Phys, w: Phys, c: Config)
    requires ApicOutside(v, c) && SameRegions(v, w)
    ensures ApicOutside(w, c)
  {
  }

  lemma ForkedSlots(v: Phys, w: Phys, ctxs: seq<ExecContext>, spaces: map<nat, Space>, c: Config, j: nat,
                    y: ExecContext, ct: Space)
    requires KernelOk(v, ctxs, spaces, c) && 1 <= j < MAX_PROCESSES && j !in spaces && j < |ctxs|
    requires PhysOk(w) && KeptHeld(v, w) && SameRegions(v, w) && ApicOutside(w, c)
    requires PL.Free(w.pt) <= PL.Free(v.pt) && ct.owner.Keys <= PL.Free(v.pt) && y.osStackPfn in PL.Free(v.pt)
    requires Live(w, y, ct, c) && SysOk(Abs(w, ctxs[j := y], spaces[j := ct]))
    ensures KernelOk(w, ctxs[j := y], spaces[j := ct], c)
  {
    hide PairOk, SysOk, ConfigOk, Abs, PL.Free, Live, KeptHeld;
    forall k | k in spaces
      ensures Live(w, ctxs[k], spaces[k], c) && PairOk(y, ct, ctxs[k], spaces[k]) && PairOk(ctxs[k], spaces[k], y, ct)
    {
      ForkOther(v, w, ct, y.osStackPfn, ctxs[k], spaces[k], c);
      NewPair(y, ct, ctxs[k], spaces[k]);
    }
    LiveUsed(w, y, ct, c);
  }

  lemma NewPair(y: ExecContext, ct: Space, x: ExecContext, o: Space)
    requires ct.owner.Keys !! o.owner.Keys && x.osStackPfn !in ct.owner && y.osStackPfn !in o.owner
    requires y.osStackPfn != x.osStackPfn
    ensures PairOk(y, ct, x, o) && PairOk(x, o, y, ct)
  {
  }

  // ---- Exit -------------------------------------------------------------

  lemma ExitOther(v: Phys, w: Phys, x: ExecContext, s: Space, y: ExecContext, o: Space, c: Config)
    requires Live(v, y, o, c) && PairOk(x, s, y, o) && PhysOk(v) && PhysOk(w) && Taken(v.pt, x.osStackPfn)
    requires w == v.(pt := PL.Give(v.pt, x.osStackPfn))
    ensures Live(w, y, o, c)
  {
    GiveOneFrame(v.pt, x.osStackPfn, y.osStackPfn);
    hide PL.Free, PL.Shape, PL.Ledger, Wf, ProcessTree, UserTree, KernelEntries, PL.Give, Taken;
    forall f | f in o.owner
      ensures Taken(w.pt, f)
    {
      assert Taken(v.pt, f);
      GiveOneFrame(v.pt, x.osStackPfn, f);
    }
  }

  lemma GiveOneFrame(l: PL.State, f: nat, g: nat)
    requires PL.Shape(l) && Taken(l, f) && Taken(l, g) && f != g
    ensures Taken(PL.Give(l, f), g)
    ensures PL.Give(l, f).start == l.start && PL.Give(l, f).size == l.size
  {
    PL.GiveEffect(l, f);
    PL.FreeMembership(l, g);
    PL.FreeMembership(PL.Give(l, f), g);
  }

  lemma AbsExited(v: Phys, w: Phys, ctxs: seq<ExecContext>, spaces: map<nat, Space>, i: nat, x: ExecContext)
    requires i in spaces && i < |ctxs| && w.user == v.user
    ensures Abs(w, ctxs[i := x], spaces - {i}) == Abs(v, ctxs, spaces).(procs := Abs(v, ctxs, spaces).procs - {i})
  {
    hide PL.Free, Leaves;
  }

  /** The exit of a process that is not the last: its OS stack is freed, its tree
      and pages stay allocated, the others are as they were. */
  lemma ExitKernel(v: Phys, w: Phys, ctxs: seq<ExecContext>, spaces: map<nat, Space>, c: Config, i: nat)
    requires KernelOk(v, ctxs, spaces, c) && i in spaces && i < |ctxs| && PhysOk(w)
    requires w == v.(pt := PL.Give(v.pt, ctxs[i].osStackPfn))
    ensures var ctxs' := ctxs[i := ctxs[i].(state := Unused)];
      && ExitStep(Abs(v, ctxs, spaces), Abs(w, ctxs', spaces - {i}), i)
      && KernelOk(w, ctxs', spaces - {i}, c)
  {
    hide PairOk, SysOk, ConfigOk, PhysOk, Abs, PL.Free, Live, PL.Give, Taken;
    KernelSlot(v, ctxs, spaces, c, i);
    KernelSlotHeld(v, ctxs, spaces, c, i);
    AbsExited(v, w, ctxs, spaces, i, ctxs[i].(state := Unused));
    ExitKeeps(Abs(v, ctxs, spaces), Abs(w, ctxs[i := ctxs[i].(state := Unused)], spaces - {i}), i);
    GiveRegions(v, w, ctxs[i].osStackPfn, c);
    forall k | k in spaces && k != i
      ensures Live(w, ctxs[k], spaces[k], c)
    {
      ExitOther(v, w, ctxs[i], spaces[i], ctxs[k], spaces[k], c);
    }
  }

  lemma GiveRegions(v: Phys, w: Phys, f: nat, c: Config)
    requires ApicOutside(v, c) && w == v.(pt := PL.Give(v.pt, f))
    ensures ApicOutside(w, c)
  {
  }
}
