/** The kernel's memory state as a whole: the machine, the process table and one
    tree per live process, and its reading as the abstract system of Isolation. */
module Kernel {
  import opened PageTable
  import opened Physical
  import opened Install
  import opened KernelMap
  import opened Segments
  import opened Context
  import opened Fork
  import opened Teardown
  import opened Isolation
  import PL = PageList

  /** A live process: its tree is held and reachable, its mapped frames are user
      frames, and its OS stack is an allocated frame outside the tree; its kernel half is the common one. */
  ghost predicate Live(v: Phys, x: ExecContext, s: Space, c: Config) {
    && Holds(v, s) && UserTree(s) && ProcessTree(s, c) && KernelEntries(s, c)
    && x.pgd == s.root && x.state != Unused
    && Taken(v.pt, x.osStackPfn) && x.osStackPfn !in s.owner
    && (forall l | l in s.ents && l.Leaf? :: v.user.start < s.ents[l].pfn < v.user.start + v.user.size)
  }

  /** Two live processes share neither tables nor OS stacks. */
  predicate PairOk(x: ExecContext, s: Space, y: ExecContext, t: Space) {
    s.owner.Keys !! t.owner.Keys && x.osStackPfn !in t.owner && y.osStackPfn !in s.owner && x.osStackPfn != y.osStackPfn
  }

  predicate LiveSlots(ctxs: seq<ExecContext>, spaces: map<nat, Space>) {
    |ctxs| == MAX_PROCESSES && ctxs[0].state != Unused
    && forall i: nat | i < MAX_PROCESSES :: i in spaces <==> 1 <= i && ctxs[i].state != Unused
  }

  function Abs(v: Phys, ctxs: seq<ExecContext>, spaces: map<nat, Space>): Sys {
    Sys(map i | i in spaces && i < |ctxs| :: Proc(ctxs[i].segs, Leaves(spaces[i])), PL.Free(v.user))
  }

  ghost predicate KernelOk(v: Phys, ctxs: seq<ExecContext>, spaces: map<nat, Space>, c: Config) {
    && PhysOk(v) && ConfigOk(c) && ApicOutside(v, c)
    && LiveSlots(ctxs, spaces)
    && (forall i | i in spaces :: i < MAX_PROCESSES && Live(v, ctxs[i], spaces[i], c))
    && (forall i, j | i in spaces && j in spaces && i != j :: PairOk(ctxs[i], spaces[i], ctxs[j], spaces[j]))
    && SysOk(Abs(v, ctxs, spaces))
  }

  // ---- Other processes --------------------------------------------------

  /** A process is untouched by whatever leaves its tables alone and frees no table frame. */
  lemma OtherAgree(v: Phys, w: Phys, x: ExecContext, o: Space, c: Config)
    requires Live(v, x, o, c) && PhysOk(w) && SameRegions(v, w) && |w.mem| == |v.mem|
    requires PL.Free(w.pt) <= PL.Free(v.pt)
    requires forall f | f in o.owner && f < |v.mem| :: w.mem[f] == v.mem[f]
    ensures Live(w, x, o, c)
  {
    hide PL.Shape, PL.Ledger, Shaped, SlotOk, ProcessTree, UserTree, KernelEntries;
    StillTakenOne(v.pt, w.pt, x.osStackPfn);
    forall f | f in o.owner
      ensures Taken(w.pt, f)
    {
      assert Taken(v.pt, f);
      StillTakenOne(v.pt, w.pt, f);
    }
    WfFraming(v.mem, w.mem, o);
  }

  lemma StillTakenOne(v: PL.State, w: PL.State, f: nat)
    requires Taken(v, f) && w.start == v.start && w.size == v.size && PL.Free(w) <= PL.Free(v)
    ensures Taken(w, f)
  {
    PL.FreeMembership(v, f);
    PL.FreeMembership(w, f);
  }

  /** The other processes when one tree grows. */
  lemma OtherSlot(v: Phys, s: Space, w: Phys, t: Space, x: ExecContext, y: ExecContext, o: Space, c: Config)
    requires Holds(v, s) && Holds(w, t) && Grown(v, s, w, t) && w.user.start == v.user.start
    requires w.user.size == v.user.size
    requires Live(v, y, o, c) && PairOk(x, s, y, o) && Taken(v.pt, x.osStackPfn)
    ensures Live(w, y, o, c) && PairOk(x, t, y, o) && Taken(w.pt, x.osStackPfn)
  {
    hide PL.Shape, PL.Ledger, PL.Free, PL.Supply, Wf, ProcessTree, UserTree, Taken, KernelEntries;
    HeldNotFree(v, o);
    StackNotReach(v, y);
    StillTakenOne(v.pt, w.pt, x.osStackPfn);
    OtherAgree(v, w, y, o, c);
  }

  lemma StackNotReach(v: Phys, y: ExecContext)
    requires Taken(v.pt, y.osStackPfn)
    ensures y.osStackPfn !in PL.Supply(v.pt) && y.osStackPfn !in PL.Free(v.pt)
  {
  }

  // ---- Mapping a page ---------------------------------------------------

  lemma UserPathSide(l: Node, c: Config)
    requires l.Leaf? && l.b != 0
    ensures forall n | n in PathTables(l) + {l} :: SideOk(n, c) || Huge(n)
    ensures l.a == 0 && 4 <= l.b ==> forall n | n in PathTables(l) + {l} :: SideOk(n, c) && !Huge(n)
  {
  }

  lemma MappedTree(v: Phys, s: Space, w: Phys, t: Space, l: Node, p: Pte, c: Config)
    requires ProcessTree(s, c) && l.Leaf? && Mapped(v, s, w, t, l, p) && l.a == 0 && 4 <= l.b
    ensures ProcessTree(t, c)
  {
    hide Holds, Grown, UserTree, Missing, Leaves, SideOk, ApicSlot, PL.Supply;
    UserPathSide(l, c);
    forall n | n in t.ents
      ensures SideOk(n, c)
    {
      assert n in s.ents || n in PathTables(l) + {l};
    }
  }

  lemma MappedSlot(v: Phys, s: Space, w: Phys, t: Space, x: ExecContext, l: Node, p: Pte, c: Config)
    requires Live(v, x, s, c) && l.Leaf? && Mapped(v, s, w, t, l, p) && l.a == 0 && 4 <= l.b
    requires w.user.start == v.user.start && w.user.size == v.user.size
    requires v.user.start < p.pfn < v.user.start + v.user.size
    ensures Live(w, x, t, c)
  {
    hide PL.Shape, PL.Ledger, PL.Free, PL.Supply, Wf, ProcessTree, UserTree, Taken, Missing, PathTables, Huges;
    hide KernelHuges;
    MappedTree(v, s, w, t, l, p, c);
    StackNotReach(v, x);
    StillTakenOne(v.pt, w.pt, x.osStackPfn);
    forall k | k in t.ents && k.Leaf?
      ensures w.user.start < t.ents[k].pfn < w.user.start + w.user.size
    {
      LeafKept(s, t, l, p, k);
    }
  }

  lemma AbsMapped(v: Phys, s: Space, w: Phys, t: Space, ctxs: seq<ExecContext>, spaces: map<nat, Space>, i: nat,
                  l: Node, p: Pte)
    requires i in spaces && i < |ctxs| && spaces[i] == s && Leaves(t) == Leaves(s)[l := p]
    requires PL.Free(w.user) == PL.Free(v.user) - {p.pfn}
    ensures var a := Abs(v, ctxs, spaces);
      Abs(w, ctxs, spaces[i := t]) ==
      Sys(a.procs[i := a.procs[i].(pages := a.procs[i].pages[l := p])], a.free - {p.pfn})
  {
    hide Leaves, PL.Free;
    var a, b := Abs(v, ctxs, spaces), Abs(w, ctxs, spaces[i := t]);
    assert b.procs == a.procs[i := a.procs[i].(pages := a.procs[i].pages[l := p])];
  }

  lemma KernelSlot(v: Phys, ctxs: seq<ExecContext>, spaces: map<nat, Space>, c: Config, i: nat)
    requires KernelOk(v, ctxs, spaces, c) && i in spaces
    ensures i < |ctxs| && i < MAX_PROCESSES && Live(v, ctxs[i], spaces[i], c) && PhysOk(v)
    ensures i in Abs(v, ctxs, spaces).procs && Abs(v, ctxs, spaces).procs[i] == Proc(ctxs[i].segs, Leaves(spaces[i]))
    ensures SegsOk(ctxs[i].segs)
  {
    hide Live, PairOk, Leaves;
    assert ProcOk(Abs(v, ctxs, spaces).procs[i], PL.Free(v.user));
  }

  /** A handled fault, on the whole kernel: the abstract step, and the invariant. */
  lemma FaultKernel(v: Phys, w: Phys, t: Space, ctxs: seq<ExecContext>, spaces: map<nat, Space>, c: Config, i: nat,
                    l: Node, p: Pte)
    requires KernelOk(v, ctxs, spaces, c) && i in spaces
    requires l.Leaf? && l !in spaces[i].ents && l.a == 0 && 4 <= l.b && InRange(l) && PagePlace(ctxs[i].segs, l)
    requires Mapped(v, spaces[i], w, t, l, p) && PL.Shape(v.user)
    requires PL.IsFree(v.user, PL.Picked(v.user)) && p.pfn == PL.Picked(v.user) && w.user == PL.Take(v.user)
    requires ReadOnlySide(l) ==> !WriteFlag(p)
    ensures FaultStep(Abs(v, ctxs, spaces), Abs(w, ctxs, spaces[i := t]), i, l, p)
    ensures KernelOk(w, ctxs, spaces[i := t], c)
  {
    hide Live, PairOk, PL.Free, PL.Supply, PL.Picked, PL.Take, PL.Shape, PL.Ledger, Mapped, InRange, PagePlace;
    hide WriteFlag, ReadOnlySide, SysOk, ConfigOk;
    KernelSlot(v, ctxs, spaces, c, i);
    var s := spaces[i];
    UserListTake(v);
    MappedFacts(v, s, w, t, l, p);
    AbsMapped(v, s, w, t, ctxs, spaces, i, l, p);
    NotALeaf(s, l);
    FaultKeeps(Abs(v, ctxs, spaces), Abs(w, ctxs, spaces[i := t]), i, l, p);
    MappedSlot(v, s, w, t, ctxs[i], l, p, c);
    GrownKernel(v, w, t, ctxs, spaces, c, i);
  }

  lemma UserListTake(v: Phys)
    requires PhysOk(v) && PL.Shape(v.user) && PL.IsFree(v.user, PL.Picked(v.user))
    ensures var u := PL.Take(v.user);
      && PL.Picked(v.user) in PL.Free(v.user) && PL.Free(u) == PL.Free(v.user) - {PL.Picked(v.user)}
      && u.start == v.user.start && u.size == v.user.size
      && v.user.start < PL.Picked(v.user) < v.user.start + v.user.size
  {
    PL.TakeCounts(v.user);
    PL.PickedPlace(v.user);
  }

  /** A fault keeps the invariant if and only if the frame it was given was free. */
  lemma FaultKeepsIff(v: Phys, w: Phys, t: Space, ctxs: seq<ExecContext>, spaces: map<nat, Space>, c: Config, i: nat,
                      l: Node, p: Pte)
    requires KernelOk(v, ctxs, spaces, c) && i in spaces && PL.Shape(v.user) && v.user.freePages != 0
    requires l.Leaf? && l !in spaces[i].ents && l.a == 0 && 4 <= l.b && InRange(l)
    requires i < |ctxs| && PagePlace(ctxs[i].segs, l) && (ReadOnlySide(l) ==> !WriteFlag(p))
    requires Mapped(v, spaces[i], w.(user := v.user), t, l, p)
    requires p.pfn == PL.Picked(v.user) && w.user == PL.Take(v.user)
    ensures KernelOk(w, ctxs, spaces[i := t], c) <==> PL.IsFree(v.user, PL.Picked(v.user))
  {
    hide Live, PairOk, PL.Free, PL.Supply, PL.Picked, PL.Take, PL.Shape, PL.Ledger, Mapped, InRange, PagePlace;
    hide WriteFlag, ReadOnlySide, SysOk, ConfigOk, PL.IsFree, LiveSlots, Abs, PhysOk;
    TakenUser(v);
    MappedFacts(v, spaces[i], w.(user := v.user), t, l, p);
    SamePlaces(v, w.(user := v.user), w);
    if PL.IsFree(v.user, PL.Picked(v.user)) {
      MappedUser(v, spaces[i], w.(user := v.user), w.user, t, l, p);
      assert w.(user := v.user).(user := w.user) == w;
      FaultKernel(v, w, t, ctxs, spaces, c, i, l, p);
    }
  }

  /** When a live process maps the frame already, a writable page on it ends the isolation
      of the address spaces. */
  lemma HeldFrameShared(v: Phys, w: Phys, t: Space, ctxs: seq<ExecContext>, spaces: map<nat, Space>, c: Config, i: nat,
                        l: Node, p: Pte, j: nat, k: Node)
    requires KernelOk(v, ctxs, spaces, c) && i in spaces && j in spaces
    requires l.Leaf? && l !in spaces[i].ents && k.Leaf? && k in spaces[j].ents && spaces[j].ents[k].pfn == p.pfn
    requires Leaves(t) == Leaves(spaces[i])[l := p] && WriteFlag(p)
    ensures !Isolated(Abs(w, ctxs, spaces[i := t]))
  {
    hide PL.Free, WriteFlag, Abs, Leaves, Live;
    KernelSlot(v, ctxs, spaces, c, i);
    KernelSlot(v, ctxs, spaces, c, j);
    hide KernelOk;
    LeafKept(spaces[i], t, l, p, k);
    LeafKept(spaces[i], t, l, p, l);
    AbsPage(w, ctxs, spaces[i := t], i, l);
    AbsPage(w, ctxs, spaces[i := t], j, k);
  }

  lemma AbsPage(w: Phys, ctxs: seq<ExecContext>, spaces: map<nat, Space>, i: nat, l: Node)
    requires i in spaces && i < |ctxs| && l in spaces[i].ents && l.Leaf?
    ensures var a := Abs(w, ctxs, spaces);
      i in a.procs && l in a.procs[i].pages && a.procs[i].pages[l] == spaces[i].ents[l]
  {
    hide PL.Free;
  }

  /** Whether the lists are in order does not depend on what memory holds. */
  lemma SamePlaces(v: Phys, x: Phys, w: Phys)
    requires PhysOk(v) && PhysOk(x) && x.user == v.user && w == x.(user := w.user) && |x.mem| == |v.mem|
    requires w.user == PL.Take(v.user) && PL.Shape(v.user)
    ensures PhysOk(w) <==> PhysOk(v.(user := w.user))
  {
    hide PL.Ledger, PL.Picked;
  }

  lemma MappedFacts(v: Phys, s: Space, w: Phys, t: Space, l: Node, p: Pte)
    requires l.Leaf? && Mapped(v, s, w, t, l, p)
    ensures Holds(w, t) && Grown(v, s, w, t) && Leaves(t) == Leaves(s)[l := p] && PhysOk(w) && |w.mem| == |v.mem|
  {
  }

  lemma NotALeaf(s: Space, l: Node)
    requires l !in s.ents
    ensures l !in Leaves(s)
  {
  }

  /** One process's tree has grown or shrunk: all the others are as they were. */
  lemma GrownKernel(v: Phys, w: Phys, t: Space, ctxs: seq<ExecContext>, spaces: map<nat, Space>, c: Config, i: nat)
    requires KernelOk(v, ctxs, spaces, c) && i in spaces && i < |ctxs|
    requires Holds(w, t) && Grown(v, spaces[i], w, t) && w.user.start == v.user.start && w.user.size == v.user.size
    requires Live(w, ctxs[i], t, c) && SysOk(Abs(w, ctxs, spaces[i := t]))
    ensures KernelOk(w, ctxs, spaces[i := t], c)
  {
    hide Live, PairOk, SysOk, Holds, ConfigOk, PhysOk, Grown, Abs;
    KernelSlotHeld(v, ctxs, spaces, c, i);
    HeldPhys(w, t);
    GrownApic(v, w, spaces[i], t, c);
    forall j | j in spaces && j != i
      ensures Live(w, ctxs[j], spaces[j], c) && PairOk(ctxs[i], t, ctxs[j], spaces[j])
      ensures PairOk(ctxs[j], spaces[j], ctxs[i], t)
    {
      OtherSlot(v, spaces[i], w, t, ctxs[i], ctxs[j], spaces[j], c);
      PairSymmetric(ctxs[i], t, ctxs[j], spaces[j]);
    }
  }

  lemma PairSymmetric(x: ExecContext, s: Space, y: ExecContext, t: Space)
    requires PairOk(x, s, y, t)
    ensures PairOk(y, t, x, s)
  {
  }

  lemma HeldPhys(w: Phys, t: Space)
    requires Holds(w, t)
    ensures PhysOk(w)
  {
  }

  lemma GrownApic(v: Phys, w: Phys, s: Space, t: Space, c: Config)
    requires ApicOutside(v, c) && Grown(v, s, w, t) && w.user.start == v.user.start && w.user.size == v.user.size
    ensures ApicOutside(w, c)
  {
  }

  lemma KernelSlotHeld(v: Phys, ctxs: seq<ExecContext>, spaces: map<nat, Space>, c: Config, i: nat)
    requires KernelOk(v, ctxs, spaces, c) && i in spaces && i < |ctxs|
    ensures Holds(v, spaces[i]) && Taken(v.pt, ctxs[i].osStackPfn)
  {
    assert Live(v, ctxs[i], spaces[i], c);
  }
}
