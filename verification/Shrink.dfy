/** The unmapping loop of `do_shrink` (entry.c) on one tree. */
module Shrink {
  import opened PageTable
  import opened Physical
  import opened Install
  import opened Segments
  import opened CopyLoops
  import PL = PageList

  function FramesOf(s: Space, ls: set<Node>): set<nat> {
    set l | l in ls && l in s.ents :: s.ents[l].pfn
  }

  /** The tree without the pages of [lo, hi). */
  function Cut(s: Space, lo: nat, hi: nat): Space {
    s.(ents := s.ents - PagesIn(s, lo, hi))
  }

  /** The pages of [lo, hi) are gone and their frames free; nothing else changed. */
  ghost predicate Removed(v: Phys, s: Space, w: Phys, t: Space, lo: nat, hi: nat) {
    && Holds(w, t) && Grown(v, s, w, t) && UserTree(t)
    && t == Cut(s, lo, hi)
    && w.pt == v.pt
    && PL.Free(w.user) == PL.Free(v.user) + FramesOf(s, PagesIn(s, lo, hi))
    && w.user.start == v.user.start && w.user.size == v.user.size
  }

  /** Every page of the tree is on an allocated frame, no two on the same. */
  ghost predicate OwnFrames(v: Phys, s: Space) {
    && (forall l | l in s.ents && l.Leaf? :: Taken(v.user, s.ents[l].pfn))
    && (forall l, k | l in s.ents && k in s.ents && l.Leaf? && k.Leaf? && l != k :: s.ents[l].pfn != s.ents[k].pfn)
  }

  lemma NothingRemoved(v: Phys, s: Space, lo: nat)
    requires Holds(v, s) && UserTree(s)
    ensures Removed(v, s, v, s, lo, lo)
  {
    hide Holds, Grown, UserTree, PL.Free;
    GrownReflexive(v, s);
    NoPages(s, lo);
    hide PagesIn;
    assert s.ents - {} == s.ents;
    assert FramesOf(s, {}) == {};
  }

  lemma StillThere(s: Space, lo: nat, va: nat)
    requires Shaped(s) && Aligned(va) && lo <= va < STACK_START
    ensures LeafOf(va) in Cut(s, lo, va).ents <==> LeafOf(va) in s.ents
    ensures LeafOf(va) in s.ents ==> Cut(s, lo, va).ents[LeafOf(va)] == s.ents[LeafOf(va)]
  {
    PagesStep(s, lo, va);
    hide PagesIn, LeafOf;
  }

  lemma NextFrameTaken(v: Phys, s: Space, w: Phys, t: Space, lo: nat, va: nat)
    requires OwnFrames(v, s) && Removed(v, s, w, t, lo, va) && Shaped(s) && Aligned(va) && lo <= va < STACK_START
    ensures LeafOf(va) in t.ents ==> LeafOf(va) in s.ents && t.ents[LeafOf(va)] == s.ents[LeafOf(va)]
    ensures LeafOf(va) in t.ents ==> Taken(w.user, t.ents[LeafOf(va)].pfn)
  {
    hide Holds, Grown, UserTree, PL.Free;
    var l := LeafOf(va);
    LeafOfIsLeaf(va);
    StillThere(s, lo, va);
    PagesStep(s, lo, va);
    hide LeafOf, Shaped, PagesIn;
    if l in t.ents {
      TakenAfter(v, s, w, lo, va, l);
    }
  }

  lemma TakenAfter(v: Phys, s: Space, w: Phys, lo: nat, va: nat, l: Node)
    requires OwnFrames(v, s) && l in s.ents && l.Leaf? && l !in PagesIn(s, lo, va)
    requires PL.Free(w.user) == PL.Free(v.user) + FramesOf(s, PagesIn(s, lo, va))
    requires w.user.start == v.user.start && w.user.size == v.user.size
    ensures Taken(w.user, s.ents[l].pfn)
  {
    PL.FreeMembership(v.user, s.ents[l].pfn);
    PL.FreeMembership(w.user, s.ents[l].pfn);
    hide PL.Free, PL.IsFree;
    assert s.ents[l].pfn !in FramesOf(s, PagesIn(s, lo, va));
  }

  /** One page further, mapped. */
  lemma RemoveStep(v: Phys, s: Space, w: Phys, t: Space, x: Phys, u: Space, lo: nat, va: nat)
    requires Removed(v, s, w, t, lo, va) && Shaped(s) && Aligned(va) && lo <= va < STACK_START
    requires LeafOf(va).Leaf? && LeafOf(va) in t.ents && LeafOf(va) in s.ents
    requires t.ents[LeafOf(va)] == s.ents[LeafOf(va)]
    requires Taken(w.user, s.ents[LeafOf(va)].pfn) && PL.Shape(w.user)
    requires Unmapped(w, t, x, u, LeafOf(va))
    ensures Removed(v, s, x, u, lo, va + PAGE_SIZE)
  {
    hide Holds, UserTree, PL.Free, PL.Shape, Taken, Shaped, LeafOf, PagesIn, Leaves, Huges, Grown, PL.Give;
    var l := LeafOf(va);
    PagesStep(s, lo, va);
    GrownTransitive(v, s, w, t, x, u);
    GiveFrame(w.user, s.ents[l].pfn);
    CutStep(s, lo, va, l);
  }

  lemma CutStep(s: Space, lo: nat, va: nat, l: Node)
    requires PagesIn(s, lo, va + PAGE_SIZE) == PagesIn(s, lo, va) + {l} && l in s.ents
    ensures WithoutEntry(Cut(s, lo, va), l) == Cut(s, lo, va + PAGE_SIZE)
    ensures FramesOf(s, PagesIn(s, lo, va + PAGE_SIZE)) == FramesOf(s, PagesIn(s, lo, va)) + {s.ents[l].pfn}
  {
    hide PagesIn;
    assert WithoutEntry(Cut(s, lo, va), l).ents == Cut(s, lo, va + PAGE_SIZE).ents;
  }

  lemma SkipStep(v: Phys, s: Space, w: Phys, t: Space, lo: nat, va: nat)
    requires Removed(v, s, w, t, lo, va) && Shaped(s) && Aligned(va) && lo <= va < STACK_START && LeafOf(va) !in s.ents
    ensures Removed(v, s, w, t, lo, va + PAGE_SIZE)
  {
    hide Holds, UserTree, PL.Free, Shaped, LeafOf, PagesIn, Grown, Aligned, FramesOf, Cut;
    PagesStep(s, lo, va);
    assert PagesIn(s, lo, va + PAGE_SIZE) == PagesIn(s, lo, va);
    SameCut(s, lo, va, va + PAGE_SIZE);
  }

  lemma SameCut(s: Space, lo: nat, a: nat, b: nat)
    requires PagesIn(s, lo, a) == PagesIn(s, lo, b)
    ensures Cut(s, lo, a) == Cut(s, lo, b)
  {
  }

  lemma HeldUserShape(w: Phys, t: Space)
    requires Holds(w, t)
    ensures PL.Shape(w.user) && Shaped(t)
  {
  }

  /** The loop of `do_shrink` over [lo, hi). */
  method UnmapRange(m: Machine, pgd: nat, lo: nat, hi: nat, ghost s: Space) returns (ghost t: Space)
    requires m.Valid() && Holds(m.Value(), s) && s.root == pgd && UserTree(s) && OwnFrames(m.Value(), s)
    requires Aligned(lo) && Aligned(hi) && lo <= hi <= STACK_START
    modifies m.Objs()
    ensures m.Valid() && Removed(old(m.Value()), s, m.Value(), t, lo, hi)
  {
    hide Holds, UserTree, PL.Shape, Taken, Shaped, LeafOf, PagesIn, OwnFrames, PhysOk, Unmapped;
    hide PL.PageList.Value, Aligned;
    ghost var v := m.Value();
    HeldUserShape(v, s);
    NothingRemoved(v, s, lo);
    t := s;
    var address := lo;
    while address < hi
      invariant lo <= address <= hi && Aligned(address)
      invariant m.Valid() && Removed(v, s, m.Value(), t, lo, address)
    {
      ghost var w := m.Value();
      HeldUserShape(w, t);
      LeafOfIsLeaf(address);
      NextFrameTaken(v, s, w, t, lo, address);
      StillThere(s, lo, address);
      ghost var u;
      var r;
      r, u := DoUnmapUser(m, pgd, address, t);
      if r == 0 {
        RemoveStep(v, s, w, t, m.Value(), u, lo, address);
      } else {
        SkipStep(v, s, w, t, lo, address);
      }
      t := u;
      NextAligned(address, hi);
      address := address + PAGE_SIZE;
    }
  }
}
