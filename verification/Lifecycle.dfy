/** The whole life of an address space: built by set-up, faults and unmaps, then torn
    down. What it took from the two allocators is what it gives back. */
module Lifecycle {
  import opened PageTable
  import opened Integers
  import opened Physical
  import opened Install
  import opened InstallMulti
  import opened KernelMap
  import opened Fork
  import opened CopyWhole
  import opened Teardown
  import PL = PageList

  function PageFrames(pages: map<Node, Pte>): set<nat> {
    set l | l in pages :: pages[l].pfn
  }

  predicate Distinct(pages: map<Node, Pte>) {
    forall l, k | l in pages && k in pages && l != k :: pages[l].pfn != pages[k].pfn
  }

  /** The pages are on distinct frames, and these are what `now` lacks of `before`. */
  predicate PagesFrom(before: set<nat>, now: set<nat>, pages: map<Node, Pte>) {
    && Distinct(pages) && PageFrames(pages) <= before && now == before - PageFrames(pages)
  }

  lemma AddPage(before: set<nat>, now: set<nat>, pages: map<Node, Pte>, l: Node, p: Pte)
    requires PagesFrom(before, now, pages) && l !in pages && p.pfn in now
    ensures PagesFrom(before, now - {p.pfn}, pages[l := p])
  {
    var more := pages[l := p];
    assert forall k | k in pages :: pages[k].pfn in PageFrames(pages);
    assert PageFrames(more) == PageFrames(pages) + {p.pfn} by {
      assert forall k | k in pages :: k in more && more[k] == pages[k];
      assert l in more && more[l] == p;
    }
  }

  lemma DropPage(before: set<nat>, now: set<nat>, pages: map<Node, Pte>, l: Node)
    requires PagesFrom(before, now, pages) && l in pages
    ensures PagesFrom(before, now + {pages[l].pfn}, pages - {l})
  {
    var fewer := pages - {l};
    assert forall k | k in pages :: pages[k].pfn in PageFrames(pages);
    assert PageFrames(fewer) == PageFrames(pages) - {pages[l].pfn} by {
      assert forall k | k in fewer :: k in pages && k != l && fewer[k] == pages[k];
      assert forall k | k in pages && k != l :: k in fewer;
    }
  }

  /** Between v, before the root was allocated, and w the tree t has been built: its
      tables and its pages are exactly the frames that have left the free sets. */
  ghost predicate Built(v: Phys, w: Phys, t: Space) {
    && Holds(w, t) && UserTree(t) && SameRegions(v, w)
    && t.owner.Keys <= PL.Free(v.pt) && PL.Free(w.pt) == PL.Free(v.pt) - t.owner.Keys
    && PagesFrom(PL.Free(v.user), PL.Free(w.user), Leaves(t))
  }

  lemma BuiltStart(v: Phys)
    requires PhysOk(v) && PL.Supply(v.pt) != {}
    ensures Built(v, TakeTable(v), RootSpace(PL.Picked(v.pt)))
  {
    hide PL.Supply, PL.Free, PL.Picked, PL.Take, PL.Shape, PL.Ledger, Wf;
    var f, w := PL.Picked(v.pt), TakeTable(v);
    var s := RootSpace(f);
    TakeTableOk(v);
    TakeTableFrame(v);
    PL.SupplyIsFree(v.pt);
    RootShaped(w.mem, f);
    assert Leaves(s) == map[];
    assert w.user == v.user;
    assert PageFrames(map[]) == {};
  }

  lemma TakeTableFrame(v: Phys)
    requires PhysOk(v) && PL.Supply(v.pt) != {}
    ensures PL.Picked(v.pt) < |v.mem| && TakeTable(v).mem == v.mem[PL.Picked(v.pt) := ZeroFrame()]
  {
    PL.TakeEffect(v.pt);
  }

  lemma TablesGrow(v: Phys, w: Phys, t: Space, x: Phys, u: Space)
    requires Grown(w, t, x, u) && t.owner.Keys <= PL.Free(v.pt) && PL.Free(w.pt) == PL.Free(v.pt) - t.owner.Keys
    ensures u.owner.Keys <= PL.Free(v.pt) && PL.Free(x.pt) == PL.Free(v.pt) - u.owner.Keys
    ensures x.pt.start == w.pt.start && x.pt.size == w.pt.size
  {
    PL.SupplyIsFree(w.pt);
    hide PL.Supply, PL.Free;
  }

  /** One way a tree changes between set-up and teardown. */
  datatype Change = MapPage(l: Node, p: Pte) | MapRun(l: Node, k: nat, flags: nat) | UnmapPage(l: Node) | MapKernel

  ghost predicate ChangeStep(w: Phys, t: Space, x: Phys, u: Space, ch: Change) {
    && PhysOk(w)
    && match ch
       case MapPage(l, p) =>
         // install_ptable, install_page_table: the page was not mapped, the frame is the one taken
         l.Leaf? && l !in t.ents && Mapped(w, t, x, u, l, p)
         && PL.Supply(w.user) != {} && p.pfn == PL.Picked(w.user) && x.user == PL.Take(w.user)
       case MapRun(l, k, flags) =>
         // install_ptable_multi
         l.Leaf? && (forall n | n in t.ents :: !InRun(l, k, n)) && MultiMapped(w, t, x, u, l, k, flags)
         && |PL.Supply(w.user)| >= k && x.user == PL.TakeN(w.user, k)
       case UnmapPage(l) =>
         // do_unmap_user
         l.Leaf? && l in t.ents && Taken(w.user, t.ents[l].pfn) && Unmapped(w, t, x, u, l)
       case MapKernel =>
         // install_os_pts on a tree with a user page
         Pud(0) in t.ents && KernelGrown(w, t, x, u)
  }

  lemma BuiltMapPage(v: Phys, w: Phys, t: Space, x: Phys, u: Space, l: Node, p: Pte)
    requires Built(v, w, t) && ChangeStep(w, t, x, u, MapPage(l, p))
    ensures Built(v, x, u)
  {
    hide Holds, Grown, UserTree, Missing, PathTables, PL.Free, PL.Supply, PL.Take, PL.Picked, PL.Shape;
    hide PL.Ledger, PagesFrom, Leaves, Huges;
    TablesGrow(v, w, t, x, u);
    TakeFrame(w.user);
    NotLeaf(t, l);
    AddPage(PL.Free(v.user), PL.Free(w.user), Leaves(t), l, p);
  }

  lemma NotLeaf(t: Space, l: Node)
    ensures l !in t.ents ==> l !in Leaves(t)
    ensures l in t.ents && l.Leaf? ==> l in Leaves(t) && Leaves(t)[l] == t.ents[l]
  {
  }

  /** A run of pages takes its frames one by one. */
  lemma {:induction false} RunPages(before: set<nat>, user: PL.State, pages: map<Node, Pte>, l: Node, k: nat,
                                    flags: nat)
    requires PL.Shape(user) && PagesFrom(before, PL.Free(user), pages) && l.Leaf? && |PL.Supply(user)| >= k
    requires forall n | n in pages :: !InRun(l, k, n)
    ensures PagesFrom(before, PL.Free(PL.TakeN(user, k)), MultiLeaves(pages, l, user, k, flags))
    ensures forall n | n in MultiLeaves(pages, l, user, k, flags) :: n in pages || InRun(l, k, n)
  {
    hide PL.Shape, PL.Free, PL.Supply, PL.Take, PL.Picked, PagesFrom;
    if k > 0 {
      assert forall n | InRun(l, k - 1, n) :: InRun(l, k, n);
      RunPages(before, user, pages, l, k - 1, flags);
      NextOfRun(user, k);
      var part, p := MultiLeaves(pages, l, user, k - 1, flags), PL.TakeN(user, k - 1);
      assert InRun(l, k, PageAt(l, k - 1));
      AddPage(before, PL.Free(p), part, PageAt(l, k - 1), Pte(PL.Picked(p), flags));
    }
  }

  lemma NextOfRun(user: PL.State, k: nat)
    requires PL.Shape(user) && 0 < k <= |PL.Supply(user)|
    ensures var p := PL.TakeN(user, k - 1);
      PL.Picked(p) in PL.Free(p) && PL.Free(PL.TakeN(user, k)) == PL.Free(p) - {PL.Picked(p)}
  {
    TakeNEffect(user, k - 1);
    PL.TakeEffect(PL.TakeN(user, k - 1));
  }

  lemma BuiltMapRun(v: Phys, w: Phys, t: Space, x: Phys, u: Space, l: Node, k: nat, flags: nat)
    requires Built(v, w, t) && ChangeStep(w, t, x, u, MapRun(l, k, flags))
    ensures Built(v, x, u)
  {
    hide Holds, Grown, UserTree, Missing, PathTables, PL.Free, PL.Supply, PL.TakeN, PL.Shape, PL.Ledger;
    hide PagesFrom, Leaves, Huges, MultiLeaves, InRun;
    TablesGrow(v, w, t, x, u);
    UserShape(w);
    TakeNEffect(w.user, k);
    LeavesIn(t);
    RunPages(PL.Free(v.user), w.user, Leaves(t), l, k, flags);
  }

  lemma UserShape(w: Phys)
    requires PhysOk(w)
    ensures PL.Shape(w.user) && PL.Shape(w.pt)
  {
  }

  lemma LeavesIn(t: Space)
    ensures forall l | l in Leaves(t) :: l in t.ents
  {
  }

  lemma BuiltUnmapPage(v: Phys, w: Phys, t: Space, x: Phys, u: Space, l: Node)
    requires Built(v, w, t) && ChangeStep(w, t, x, u, UnmapPage(l))
    ensures Built(v, x, u)
  {
    hide Holds, Grown, UserTree, PL.Free, PL.Supply, PL.Give, PL.Shape, PL.Ledger, PagesFrom, Leaves, Huges, Taken;
    TablesGrow(v, w, t, x, u);
    GiveFrame(w.user, t.ents[l].pfn);
    NotLeaf(t, l);
    DropPage(PL.Free(v.user), PL.Free(w.user), Leaves(t), l);
  }

  lemma BuiltMapKernel(v: Phys, w: Phys, t: Space, x: Phys, u: Space)
    requires Built(v, w, t) && ChangeStep(w, t, x, u, MapKernel)
    ensures Built(v, x, u)
  {
    hide Holds, Grown, UserTree, PL.Free, PL.Supply, PagesFrom, Leaves, Huges;
    TablesGrow(v, w, t, x, u);
    KernelRegions(w, t, x, u);
  }

  lemma KernelRegions(w: Phys, t: Space, x: Phys, u: Space)
    requires KernelGrown(w, t, x, u)
    ensures SameRegions(w, x)
  {
  }

  lemma BuiltStep(v: Phys, w: Phys, t: Space, x: Phys, u: Space, ch: Change)
    requires Built(v, w, t) && ChangeStep(w, t, x, u, ch)
    ensures Built(v, x, u)
  {
    hide Built, ChangeStep;
    match ch
    case MapPage(l, p) => BuiltMapPage(v, w, t, x, u, l, p);
    case MapRun(l, k, flags) => BuiltMapRun(v, w, t, x, u, l, k, flags);
    case UnmapPage(l) => BuiltUnmapPage(v, w, t, x, u, l);
    case MapKernel => BuiltMapKernel(v, w, t, x, u);
  }

  /** A life: the fresh root, then any changes in any order. */
  ghost predicate IsLife(v: Phys, states: seq<Phys>, trees: seq<Space>, changes: seq<Change>) {
    && PhysOk(v) && PL.Supply(v.pt) != {}
    && |states| == |trees| == |changes| + 1
    && states[0] == TakeTable(v) && trees[0] == RootSpace(PL.Picked(v.pt))
    && forall n: nat | n < |changes| :: ChangeStep(states[n], trees[n], states[n + 1], trees[n + 1], changes[n])
  }

  lemma {:induction false} LifeBuilt(v: Phys, states: seq<Phys>, trees: seq<Space>, changes: seq<Change>, n: nat)
    requires IsLife(v, states, trees, changes) && n < |states|
    ensures Built(v, states[n], trees[n])
  {
    hide Built, PhysOk, PL.Supply, PL.Picked, ChangeStep;
    if n == 0 {
      BuiltStart(v);
    } else {
      LifeBuilt(v, states, trees, changes, n - 1);
      assert ChangeStep(states[n - 1], trees[n - 1], states[n - 1 + 1], trees[n - 1 + 1], changes[n - 1]);
      BuiltStep(v, states[n - 1], trees[n - 1], states[n], trees[n], changes[n - 1]);
    }
  }

  // ---- Teardown ---------------------------------------------------------

  /** The page behind each frame, read off the page map. */
  function HomeOf(s: Space): map<nat, Node>
    requires Distinct(Leaves(s))
  {
    map f | f in PageFrames(Leaves(s)) :: var l :| l in Leaves(s) && Leaves(s)[l].pfn == f; l
  }

  lemma HomeFits(s: Space)
    requires Distinct(Leaves(s))
    ensures HomeOk(s, HomeOf(s)) && HomeOf(s).Keys == PageFrames(Leaves(s))
  {
    var home := HomeOf(s);
    assert forall l :: l in Leaves(s) <==> l in s.ents && l.Leaf?;
    assert forall l | l in Leaves(s) :: Leaves(s)[l] == s.ents[l];
    forall l | l in s.ents && l.Leaf?
      ensures s.ents[l].pfn in home && home[s.ents[l].pfn] == l
    {
      assert l in Leaves(s);
    }
  }

  /** What the region lists show once a built tree has been released. */
  predicate Restored(before: PL.State, after: PL.State) {
    && after.start == before.start && after.size == before.size
    && after.bits == before.bits && after.freePages == before.freePages
  }

  lemma FreeRestores(before: PL.State, after: PL.State)
    requires ListOk(before) && ListOk(after) && after.start == before.start && after.size == before.size
    requires PL.Free(after) == PL.Free(before)
    ensures Restored(before, after)
  {
    PL.FreeDeterminesBits(before, after);
    hide PL.Free;
  }

  lemma BuiltFrames(v: Phys, w: Phys, t: Space)
    requires Built(v, w, t) && PhysOk(v)
    ensures Distinct(Leaves(t))
    ensures HomeOk(t, HomeOf(t)) && forall f | f in HomeOf(t) :: Taken(w.user, f)
    ensures PL.Free(w.user) + HomeOf(t).Keys == PL.Free(v.user)
  {
    hide Holds, UserTree, Leaves, HomeOk, HomeOf, Distinct;
    HomeFits(t);
    forall f | f in HomeOf(t)
      ensures Taken(w.user, f)
    {
      assert f in PL.Free(v.user) && f !in PL.Free(w.user);
      FreedRange(v, f);
      PL.FreeMembership(w.user, f);
    }
  }

  lemma FreedRange(v: Phys, f: nat)
    requires PhysOk(v) && f in PL.Free(v.user)
    ensures v.user.start < f < v.user.start + v.user.size
  {
  }

  /** The end of the last process's exit on a built tree (`remove_apic_mapping`,
      `pt_cleanup`, and the release of `os_pmd_pfn`): both bitmaps and both free
      counts are again what they were before the root was allocated. */
  method TearDown(m: Machine, c: Config, pgd: nat, osPmd: nat, ghost v: Phys, ghost s: Space)
    requires m.Valid() && PhysOk(v) && Built(v, m.Value(), s) && s.root == pgd
    requires ApicOutside(m.Value(), c) && ConfigOk(c) && ProcessTree(s, c) && osPmd == s.ents[Pmd(0, 0)].pfn
    modifies m.Objs()
    ensures m.Valid() && Restored(v.pt, m.pt.Value()) && Restored(v.user, m.user.Value())
    ensures |m.mem| == |old(m.mem)| && forall f: nat | f < |m.mem| && f !in s.owner :: m.mem[f] == old(m.mem)[f]
  {
    hide PL.Shape, PL.Ledger, PL.PageList.Value, PL.Free, Holds, Leaves, ConfigOk, HomeOk, HomeOf, UserTree;
    hide Taken, PhysOk, Restored, PagesFrom, Distinct;
    ghost var w := m.Value();
    BuiltFrames(v, w, s);
    OsPmdHeld(w, s, c);
    ReleaseTree(m, c, pgd, osPmd, s, HomeOf(s));
    ghost var x := m.Value();
    ListsOk(v);
    ListsOk(x);
    assert PL.Free(x.pt) == PL.Free(v.pt);
    FreeRestores(v.pt, x.pt);
    FreeRestores(v.user, x.user);
  }

  lemma ListsOk(v: Phys)
    requires PhysOk(v)
    ensures ListOk(v.pt) && ListOk(v.user)
  {
  }

  lemma OsPmdHeld(w: Phys, s: Space, c: Config)
    requires Holds(w, s) && ProcessTree(s, c)
    ensures Pmd(0, 0) in s.ents && Taken(w.pt, s.ents[Pmd(0, 0)].pfn)
    ensures s.ents[Pmd(0, 0)].pfn in s.owner && s.owner[s.ents[Pmd(0, 0)].pfn] == Pmd(0, 0)
  {
    assert TableOwned(s, Pmd(0, 0));
  }

  /** `do_exit` and then `do_cleanup` release the last process's OS stack frame, so
      over the whole exit the bits are right but the free count is one too high:
      the ledger, kept by the first release, is broken by the second. */
  lemma StackReleasedTwice(l: PL.State, stack: nat)
    requires ListOk(l) && Taken(l, stack)
    ensures var once, twice := PL.Give(l, stack), PL.Give(PL.Give(l, stack), stack);
      && PL.Ledger(once) && !PL.Ledger(twice)
      && twice.bits == once.bits && twice.freePages == (once.freePages + 1) % U32
  {
    PL.GiveEffect(l, stack);
    PL.GiveEffect(PL.Give(l, stack), stack);
    PL.FreeMembership(l, stack);
    hide PL.Free, PL.Ledger;
    assert PL.Give(PL.Give(l, stack), stack).bits == PL.Give(l, stack).bits;
  }
}
