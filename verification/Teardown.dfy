/** Tearing a tree down when the last process exits: `pt_cleanup` and the
    page-table part of `do_cleanup` (context.c). */
module Teardown {
  import opened PageTable
  import opened Physical
  import opened KernelMap
  import PL = PageList

  // ---- Subtrees ---------------------------------------------------------

  /** x lies in the subtree of n. */
  predicate Under(n: Node, x: Node) {
    match n
    case Pgd => true
    case Pud(a) => !x.Pgd? && x.a == a
    case Pmd(a, b) => !x.Pgd? && !x.Pud? && x.a == a && x.b == b
    case Pt(a, b, c) => (x.Pt? || x.Leaf?) && x.a == a && x.b == b && x.c == c
    case Leaf(_, _, _, _) => x == n
  }

  /** Which entry of n leads to x. */
  function IndexBelow(n: Node, x: Node): nat
    requires Under(n, x) && x != n
  {
    match n
    case Pgd => x.a
    case Pud(_) => x.b
    case Pmd(_, _) => x.c
    case Pt(_, _, _) => x.d
    case Leaf(_, _, _, _) => 0
  }

  /** `pt_cleanup` starts at entry 1 in a PUD: what hangs under entry 0 is left. */
  predicate Skipped(x: Node) {
    !x.Pgd? && !x.Pud? && x.b == 0
  }

  predicate Doomed(n: Node, x: Node) {
    Under(n, x) && !Skipped(x)
  }

  lemma BelowChild(n: Node, i: nat, x: Node)
    requires !n.Leaf?
    ensures Under(Child(n, i), x) <==> Under(n, x) && x != n && IndexBelow(n, x) == i
  {
  }

  lemma NoneBelowAbsent(s: Space, c: Node, x: Node)
    requires Shaped(s) && !c.Pgd? && c !in s.ents && x in s.ents
    ensures !Under(c, x)
  {
    assert NodeOk(s, x);
    if !x.Pud? {
      assert NodeOk(s, Parent(x));
      if !x.Pmd? {
        assert NodeOk(s, Parent(Parent(x)));
      }
    }
  }

  // ---- What is freed ----------------------------------------------------

  /** The inverse of a tree's page map: which page each user frame serves. */
  ghost predicate HomeOk(s: Space, home: map<nat, Node>) {
    && (forall l | l in s.ents && l.Leaf? :: s.ents[l].pfn in home && home[s.ents[l].pfn] == l)
    && (forall f | f in home :: home[f].Leaf? && home[f] in s.ents && s.ents[home[f]].pfn == f)
  }

  function DoomedFrames(o: map<nat, Node>, n: Node): set<nat> {
    set f | f in o && Doomed(n, o[f])
  }

  /** The part of n's doomed subtree below its first i entries. */
  function Swept(o: map<nat, Node>, n: Node, i: nat): set<nat> {
    set f | f in o && Doomed(n, o[f]) && o[f] != n && IndexBelow(n, o[f]) < i
  }

  lemma SweptStep(o: map<nat, Node>, n: Node, i: nat)
    requires !n.Leaf? && !Skipped(n)
    ensures Swept(o, n, i + 1) == Swept(o, n, i) + DoomedFrames(o, Child(n, i))
  {
    forall f | f in o
      ensures f in Swept(o, n, i + 1) <==> f in Swept(o, n, i) || f in DoomedFrames(o, Child(n, i))
    {
      BelowChild(n, i, o[f]);
    }
  }

  /** Memory and allocators still agree with the tree below n. */
  ghost predicate Intact(v: Phys, s: Space, home: map<nat, Node>, n: Node)
    requires PhysOk(v)
  {
    && (forall f | f in s.owner && Doomed(n, s.owner[f]) :: Taken(v.pt, f))
    && (forall f | f in home && Doomed(n, home[f]) :: Taken(v.user, f))
    && (forall x, i: nat | IsTable(s, x) && Doomed(n, x) && i < ENTRIES :: SlotOk(v.mem, s, x, i))
  }

  /** The subtree of n is gone: its tables and pages are free, nothing else is, and
      only the frames of its own tables were written. */
  ghost predicate Cleaned(v: Phys, w: Phys, s: Space, home: map<nat, Node>, n: Node)
    requires PhysOk(v) && PhysOk(w)
  {
    && |w.mem| == |v.mem|
    && (forall f: nat | f < |v.mem| && f !in DoomedFrames(s.owner, n) :: w.mem[f] == v.mem[f])
    && PL.Free(w.pt) == PL.Free(v.pt) + DoomedFrames(s.owner, n)
    && PL.Free(w.user) == PL.Free(v.user) + DoomedFrames(home, n)
    && w.pt.start == v.pt.start && w.pt.size == v.pt.size
    && w.user.start == v.user.start && w.user.size == v.user.size
  }

  /** The first i entries of table n have been dealt with. */
  ghost predicate Sweeping(v: Phys, w: Phys, s: Space, home: map<nat, Node>, n: Node, i: nat)
    requires PhysOk(v) && PhysOk(w) && IsTable(s, n)
  {
    && |w.mem| == |v.mem|
    && (forall f: nat | f < |v.mem| && f != FrameOf(s, n) && f !in Swept(s.owner, n, i) :: w.mem[f] == v.mem[f])
    && (FrameOf(s, n) < |v.mem| ==>
      forall j: nat | i <= j < ENTRIES :: w.mem[FrameOf(s, n)][j] == v.mem[FrameOf(s, n)][j])
    && PL.Free(w.pt) == PL.Free(v.pt) + Swept(s.owner, n, i)
    && PL.Free(w.user) == PL.Free(v.user) + Swept(home, n, i)
    && w.pt.start == v.pt.start && w.pt.size == v.pt.size
    && w.user.start == v.user.start && w.user.size == v.user.size
  }

  /** The tree as `pt_cleanup` needs it: no 2MB entry outside the part it skips. */
  ghost predicate Sweepable(s: Space, home: map<nat, Node>) {
    Shaped(s) && HomeOk(s, home) && forall x | x in s.ents && Huge(x) :: Skipped(x)
  }

  lemma SweepStart(v: Phys, s: Space, home: map<nat, Node>, n: Node)
    requires PhysOk(v) && IsTable(s, n) && !n.Leaf? && !Skipped(n)
    ensures Sweeping(v, v, s, home, n, if n.Pud? then 1 else 0)
  {
    var i := if n.Pud? then 1 else 0;
    hide PL.Shape, PL.Ledger, PL.Free;
    assert Swept(s.owner, n, i) == {};
    assert Swept(home, n, i) == {};
  }

  lemma SweepAbsent(v: Phys, w: Phys, s: Space, home: map<nat, Node>, n: Node, i: nat)
    requires PhysOk(v) && PhysOk(w) && IsTable(s, n) && !n.Leaf? && !Skipped(n) && Sweepable(s, home)
    requires Sweeping(v, w, s, home, n, i) && Child(n, i) !in s.ents
    ensures Sweeping(v, w, s, home, n, i + 1)
  {
    hide PhysOk, PL.Free, Swept;
    SweptStep(s.owner, n, i);
    SweptStep(home, n, i);
    forall f | f in s.owner
      ensures !Doomed(Child(n, i), s.owner[f])
    {
      assert OwnerOk(s, f);
      if s.owner[f].Pgd? {
        assert !Under(Child(n, i), Pgd);
      } else {
        NoneBelowAbsent(s, Child(n, i), s.owner[f]);
      }
    }
    forall f | f in home
      ensures !Doomed(Child(n, i), home[f])
    {
      NoneBelowAbsent(s, Child(n, i), home[f]);
    }
    assert DoomedFrames(s.owner, Child(n, i)) == {};
    assert DoomedFrames(home, Child(n, i)) == {};
  }

  lemma SweptNotFrame(s: Space, home: map<nat, Node>, n: Node, i: nat, x: Node)
    requires Sweepable(s, home) && IsTable(s, n) && IsTable(s, x) && !n.Leaf? && !Skipped(n)
    requires x == n || (Doomed(Child(n, i), x) && !x.Pgd?)
    ensures FrameOf(s, x) !in Swept(s.owner, n, i)
    ensures x != n ==> FrameOf(s, x) != FrameOf(s, n)
  {
    assert TableOwned(s, x) && TableOwned(s, n);
    BelowChild(n, i, x);
  }

  lemma ChildSlots(v: Phys, w: Phys, s: Space, home: map<nat, Node>, n: Node, i: nat, x: Node, j: nat)
    requires PhysOk(v) && PhysOk(w) && IsTable(s, n) && !n.Leaf? && !Skipped(n) && Sweepable(s, home)
    requires Intact(v, s, home, n) && Sweeping(v, w, s, home, n, i)
    requires IsTable(s, x) && Doomed(Child(n, i), x) && j < ENTRIES
    ensures SlotOk(w.mem, s, x, j)
  {
    hide PL.Shape, PL.Ledger, PL.Free, Swept, Sweepable;
    BelowChild(n, i, x);
    SweptNotFrame(s, home, n, i, x);
    assert SlotOk(v.mem, s, x, j);
  }

  lemma StillTaken(v: PL.State, w: PL.State, o: map<nat, Node>, n: Node, i: nat, f: nat)
    requires PL.Shape(v) && PL.Shape(w) && w.start == v.start && w.size == v.size
    requires PL.Free(w) == PL.Free(v) + Swept(o, n, i)
    requires !n.Leaf? && f in o && Doomed(Child(n, i), o[f]) && Taken(v, f)
    ensures Taken(w, f)
  {
    BelowChild(n, i, o[f]);
    assert f !in PL.Free(v);
    assert f !in PL.Free(w);
  }

  /** What lies below the next entry is untouched by the sweep so far. */
  lemma ChildIntact(v: Phys, w: Phys, s: Space, home: map<nat, Node>, n: Node, i: nat)
    requires PhysOk(v) && PhysOk(w) && IsTable(s, n) && !n.Leaf? && !Skipped(n) && Sweepable(s, home)
    requires Intact(v, s, home, n) && Sweeping(v, w, s, home, n, i)
    ensures Intact(w, s, home, Child(n, i))
  {
    hide PL.Shape, PL.Ledger, PL.Free, Swept, Sweepable, Taken;
    forall x, j: nat | IsTable(s, x) && Doomed(Child(n, i), x) && j < ENTRIES
      ensures SlotOk(w.mem, s, x, j)
    {
      ChildSlots(v, w, s, home, n, i, x, j);
    }
    forall f | f in s.owner && Doomed(Child(n, i), s.owner[f])
      ensures Taken(w.pt, f)
    {
      BelowChild(n, i, s.owner[f]);
      StillTaken(v.pt, w.pt, s.owner, n, i, f);
    }
    forall f | f in home && Doomed(Child(n, i), home[f])
      ensures Taken(w.user, f)
    {
      BelowChild(n, i, home[f]);
      StillTaken(v.user, w.user, home, n, i, f);
    }
  }

  /** One present entry: its subtree cleaned, then the entry cleared. */
  lemma SweepChild(v: Phys, w: Phys, x: Phys, s: Space, home: map<nat, Node>, n: Node, i: nat)
    requires PhysOk(v) && PhysOk(w) && PhysOk(x) && IsTable(s, n) && !n.Leaf? && !Skipped(n) && Sweepable(s, home)
    requires i < ENTRIES && FrameOf(s, n) < |v.mem|
    requires Sweeping(v, w, s, home, n, i) && Cleaned(w, x, s, home, Child(n, i))
    ensures Sweeping(v, x.(mem := Store(x.mem, FrameOf(s, n), i, 0)), s, home, n, i + 1)
  {
    hide PL.Shape, PL.Ledger, PL.Free, Swept, Sweepable, DoomedFrames;
    SweptStep(s.owner, n, i);
    SweptStep(home, n, i);
    ChildNotOwn(s, home, n, i);
  }

  lemma ChildNotOwn(s: Space, home: map<nat, Node>, n: Node, i: nat)
    requires Sweepable(s, home) && IsTable(s, n) && !n.Leaf?
    ensures FrameOf(s, n) !in DoomedFrames(s.owner, Child(n, i))
  {
    assert TableOwned(s, n);
    BelowChild(n, i, n);
  }

  lemma IndexBounded(s: Space, n: Node, x: Node)
    requires Shaped(s) && !n.Leaf? && x in s.ents && Under(n, x) && x != n
    ensures IndexBelow(n, x) < ENTRIES
  {
    assert NodeOk(s, x);
    if !x.Pud? {
      assert NodeOk(s, Parent(x));
      if !x.Pmd? {
        assert NodeOk(s, Parent(Parent(x)));
        if !x.Pt? {
          assert NodeOk(s, Parent(Parent(Parent(x))));
        }
      }
    }
  }

  lemma SweptAll(s: Space, home: map<nat, Node>, n: Node)
    requires Sweepable(s, home) && IsTable(s, n) && !n.Leaf? && !Skipped(n)
    ensures DoomedFrames(s.owner, n) == Swept(s.owner, n, ENTRIES) + {FrameOf(s, n)}
    ensures DoomedFrames(home, n) == Swept(home, n, ENTRIES)
    ensures FrameOf(s, n) !in Swept(s.owner, n, ENTRIES)
  {
    assert TableOwned(s, n);
    forall f | f in s.owner
      ensures f in DoomedFrames(s.owner, n) <==> f in Swept(s.owner, n, ENTRIES) || f == FrameOf(s, n)
    {
      assert OwnerOk(s, f);
      if Under(n, s.owner[f]) && s.owner[f] != n {
        if s.owner[f].Pgd? {
          assert false;
        }
        IndexBounded(s, n, s.owner[f]);
      }
    }
    forall f | f in home
      ensures f in DoomedFrames(home, n) <==> f in Swept(home, n, ENTRIES)
    {
      if Under(n, home[f]) && home[f] != n {
        IndexBounded(s, n, home[f]);
      }
    }
  }

  /** After the last entry the table's own frame goes. */
  lemma SweepEnd(v: Phys, w: Phys, s: Space, home: map<nat, Node>, n: Node)
    requires PhysOk(v) && PhysOk(w) && IsTable(s, n) && !n.Leaf? && !Skipped(n) && Sweepable(s, home)
    requires Intact(v, s, home, n) && Sweeping(v, w, s, home, n, ENTRIES)
    ensures Taken(w.pt, FrameOf(s, n))
    ensures var x := w.(pt := PL.Give(w.pt, FrameOf(s, n))); PhysOk(x) ==> Cleaned(v, x, s, home, n)
  {
    hide PL.Shape, PL.Ledger, PL.Free, PL.Give, Swept, DoomedFrames, Taken, SlotOk, Skipped;
    SweptAll(s, home, n);
    assert TableOwned(s, n);
    assert FrameOf(s, n) in s.owner && Doomed(n, s.owner[FrameOf(s, n)]);
    FrameStillTaken(v.pt, w.pt, Swept(s.owner, n, ENTRIES), FrameOf(s, n));
    GiveFrame(w.pt, FrameOf(s, n));
  }

  lemma FrameStillTaken(v: PL.State, w: PL.State, swept: set<nat>, f: nat)
    requires PL.Shape(v) && PL.Shape(w) && w.start == v.start && w.size == v.size
    requires PL.Free(w) == PL.Free(v) + swept && f !in swept && Taken(v, f)
    ensures Taken(w, f)
  {
    assert f !in PL.Free(v);
    assert f !in PL.Free(w);
  }

  // ---- The code ---------------------------------------------------------

  /** `is_apic_base`. */
  predicate IsApicBase(c: Config, pfn: nat) {
    pfn == c.apicBase / 0x1000
  }

  /** The APIC page is not a frame the allocators hand out. */
  predicate ApicOutside(v: Phys, c: Config) {
    v.pt.start + v.pt.size <= c.apicBase / 0x1000 && v.user.start + v.user.size <= c.apicBase / 0x1000
  }

  lemma LeafCleaned(v: Phys, s: Space, home: map<nat, Node>, l: Node)
    requires PhysOk(v) && Sweepable(s, home) && l.Leaf? && l in s.ents && !Skipped(l)
    requires Intact(v, s, home, l)
    ensures Taken(v.user, s.ents[l].pfn)
    ensures var w := v.(user := PL.Give(v.user, s.ents[l].pfn)); PhysOk(w) ==> Cleaned(v, w, s, home, l)
  {
    hide PL.Shape, PL.Ledger, PL.Free, PL.Give, Taken, Shaped;
    var f := s.ents[l].pfn;
    assert f in home && home[f] == l && Doomed(l, home[f]);
    assert DoomedFrames(home, l) == {f};
    NoTableAtLeaf(s, home, l);
    GiveFrame(v.user, f);
  }

  lemma NoTableAtLeaf(s: Space, home: map<nat, Node>, l: Node)
    requires Sweepable(s, home) && l.Leaf?
    ensures DoomedFrames(s.owner, l) == {}
  {
    forall f | f in s.owner
      ensures !Doomed(l, s.owner[f])
    {
      assert OwnerOk(s, f);
    }
  }

  lemma TableRead(v: Phys, s: Space, home: map<nat, Node>, n: Node, i: nat, w: Phys)
    requires PhysOk(v) && PhysOk(w) && Sweepable(s, home) && IsTable(s, n) && !n.Leaf? && !Skipped(n) && i < ENTRIES
    requires Intact(v, s, home, n) && Sweeping(v, w, s, home, n, i)
    ensures FrameOf(s, n) < |w.mem| && |w.mem[FrameOf(s, n)]| == ENTRIES
    ensures var e, c := w.mem[FrameOf(s, n)][i], Child(n, i);
      && (Present(e) <==> c in s.ents)
      && (c in s.ents ==> e / 0x1000 == FrameOf(s, c) && (c.Leaf? || IsTable(s, c)))
  {
    hide PL.Shape, PL.Ledger, PL.Free, Swept, Raw, Present;
    var c := Child(n, i);
    assert Doomed(n, n) by {
      assert Under(n, n);
    }
    assert SlotOk(v.mem, s, n, i);
    ZeroNotPresent();
    if c in s.ents {
      assert NodeOk(s, c);
      RawFields(s.ents[c]);
    }
  }

  lemma OwnFrame(v: Phys, s: Space, home: map<nat, Node>, n: Node)
    requires PhysOk(v) && Sweepable(s, home) && IsTable(s, n) && !n.Leaf? && !Skipped(n) && Intact(v, s, home, n)
    ensures Taken(v.pt, FrameOf(s, n)) && FrameOf(s, n) < |v.mem|
  {
    assert TableOwned(s, n);
    assert Under(n, n);
    assert FrameOf(s, n) in s.owner && Doomed(n, s.owner[FrameOf(s, n)]);
  }

  lemma CleanedBounds(v: Phys, w: Phys, s: Space, home: map<nat, Node>, n: Node, c: Config)
    requires PhysOk(v) && PhysOk(w) && Cleaned(v, w, s, home, n)
    ensures |w.mem| == |v.mem| && (ApicOutside(v, c) ==> ApicOutside(w, c))
  {
    hide PhysOk, PL.Free, DoomedFrames;
  }

  /** `pt_cleanup`. */
  method PtCleanup(m: Machine, c: Config, pfn: nat, level: nat, ghost s: Space, ghost home: map<nat, Node>,
                   ghost n: Node)
    requires m.Valid() && ApicOutside(m.Value(), c) && Sweepable(s, home)
    requires (IsTable(s, n) || (n.Leaf? && n in s.ents)) && !Skipped(n)
    requires FrameOf(s, n) == pfn && Level(n) == level
    requires Intact(m.Value(), s, home, n)
    modifies m.Objs()
    ensures m.Valid() && Cleaned(old(m.Value()), m.Value(), s, home, n)
    decreases level
  {
    hide PL.Shape, PL.Ledger, PL.Give, PL.PageList.Value, Cleaned, Intact, Sweeping, Sweepable, Doomed, Store;
    hide Present, PhysOk;
    ghost var v := m.Value();
    if n.Leaf? {
      LeafCleaned(v, s, home, n);
    } else {
      OwnFrame(v, s, home, n);
    }
    if level < 1 && !IsApicBase(c, pfn) {
      m.FreeUser(pfn);
      return;
    }
    var i := if level == 3 then 1 else 0;
    SweepStart(v, s, home, n);
    while i < ENTRIES
      invariant i <= ENTRIES && m.Valid() && ApicOutside(m.Value(), c) && pfn < |m.mem|
      invariant Sweeping(v, m.Value(), s, home, n, i)
    {
      ghost var w := m.Value();
      TableRead(v, s, home, n, i, w);
      var entry := m.mem[pfn][i];
      if Present(entry) {
        ChildIntact(v, w, s, home, n, i);
        PtCleanup(m, c, entry / 0x1000, level - 1, s, home, Child(n, i));
        CleanedBounds(w, m.Value(), s, home, Child(n, i), c);
        SweepChild(v, w, m.Value(), s, home, n, i);
        m.StoreWord(pfn, i, 0);
      } else {
        SweepAbsent(v, w, s, home, n, i);
      }
      i := i + 1;
    }
    SweepEnd(v, m.Value(), s, home, n);
    if !IsApicBase(c, pfn) {
      m.FreeTable(pfn);
    }
  }

  // ---- The whole tree ---------------------------------------------------

  /** A process tree: it has the kernel's PMD and the APIC entry; apart from that
      PMD nothing but 2MB entries hangs under PUD entry 0. */
  ghost predicate ProcessTree(s: Space, c: Config) {
    && Pmd(0, 0) in s.ents && ApicSlot(c) in s.ents
    && forall x | x in s.ents :: SideOk(x, c)
  }

  predicate SideOk(x: Node, c: Config) {
    if Huge(x) then Skipped(x) || x == ApicSlot(c) else Skipped(x) ==> x == Pmd(0, 0)
  }

  lemma WithoutApicSweepable(s: Space, home: map<nat, Node>, c: Config)
    requires Shaped(s) && HomeOk(s, home) && ProcessTree(s, c) && ConfigOk(c)
    ensures Sweepable(WithoutEntry(s, ApicSlot(c)), home)
  {
    hide ApicSlot, ConfigOk;
    ApicIsKernel(c);
    var t := WithoutEntry(s, ApicSlot(c));
    WithoutShaped(s, ApicSlot(c));
    forall x | x in t.ents && Huge(x)
      ensures Skipped(x)
    {
      assert SideOk(x, c);
    }
    HomeKept(s, t, home);
  }

  lemma HomeKept(s: Space, t: Space, home: map<nat, Node>)
    requires HomeOk(s, home) && forall l: Node | l.Leaf? ::
      (l in t.ents <==> l in s.ents) && (l in t.ents ==> t.ents[l] == s.ents[l])
    ensures HomeOk(t, home)
  {
  }

  lemma HeldIntact(v: Phys, s: Space, home: map<nat, Node>)
    requires Holds(v, s) && forall f | f in home :: Taken(v.user, f)
    ensures Intact(v, s, home, Pgd)
  {
  }

  lemma EverythingDoomed(s: Space, home: map<nat, Node>, c: Config)
    requires Shaped(s) && HomeOk(s, home) && ProcessTree(s, c) && ConfigOk(c)
    ensures DoomedFrames(s.owner, Pgd) == s.owner.Keys - {s.ents[Pmd(0, 0)].pfn}
    ensures DoomedFrames(home, Pgd) == home.Keys
    ensures s.ents[Pmd(0, 0)].pfn in s.owner
  {
    hide ApicSlot, ConfigOk;
    assert TableOwned(s, Pmd(0, 0));
    forall f | f in s.owner
      ensures f in DoomedFrames(s.owner, Pgd) <==> f != s.ents[Pmd(0, 0)].pfn
    {
      assert OwnerOk(s, f);
      assert s.owner[f].Pgd? || SideOk(s.owner[f], c);
    }
    forall f | f in home
      ensures Doomed(Pgd, home[f])
    {
      assert SideOk(home[f], c);
    }
  }

  /** The page-table part of `do_cleanup`. Everything the tree held comes back, each
      frame once, and nothing else, if and only if the global `os_pmd_pfn` still is
      the frame under this tree's PUD entry 0; in general that one frame is replaced
      by whatever the global names. */
  method ReleaseTree(m: Machine, c: Config, pgd: nat, osPmd: nat, ghost s: Space, ghost home: map<nat, Node>)
    requires m.Valid() && Holds(m.Value(), s) && s.root == pgd
    requires ApicOutside(m.Value(), c) && ConfigOk(c) && ProcessTree(s, c) && HomeOk(s, home)
    requires forall f | f in home :: Taken(m.user.Value(), f)
    requires Taken(m.pt.Value(), osPmd) && (osPmd in s.owner ==> s.owner[osPmd] == Pmd(0, 0))
    modifies m.Objs()
    ensures m.Valid() && |m.mem| == |old(m.mem)|
    ensures PL.Free(m.pt.Value()) == PL.Free(old(m.pt.Value())) + (s.owner.Keys - {s.ents[Pmd(0, 0)].pfn}) + {osPmd}
    ensures PL.Free(m.user.Value()) == PL.Free(old(m.user.Value())) + home.Keys
    ensures PL.Free(m.pt.Value()) == PL.Free(old(m.pt.Value())) + s.owner.Keys <==> osPmd == s.ents[Pmd(0, 0)].pfn
    ensures forall f: nat | f < |m.mem| && f !in s.owner :: m.mem[f] == old(m.mem)[f]
    ensures m.pt.Value().start == old(m.pt.Value()).start && m.pt.Value().size == old(m.pt.Value()).size
    ensures m.user.Value().start == old(m.user.Value()).start && m.user.Value().size == old(m.user.Value()).size
  {
    hide PL.Shape, PL.Ledger, PL.Give, PL.PageList.Value, Intact, Sweepable, Cleaned, PL.Free, Holds, Grown;
    hide ProcessTree, HomeOk, ConfigOk;
    hide ApicSlot, Taken, DoomedFrames;
    ghost var v := m.Value();
    ApicThere(s, c);
    ghost var t := RemoveApicMapping(m, c, pgd, s);
    ghost var w := m.Value();
    AfterApic(v, s, w, t, home, c);
    PtCleanup(m, c, pgd, 4, t, home, Pgd);
    AfterCleanup(v, s, w, t, m.Value(), home, c, osPmd);
    m.FreeTable(osPmd);
  }

  /** What the clean-up starts from. */
  lemma AfterApic(v: Phys, s: Space, w: Phys, t: Space, home: map<nat, Node>, c: Config)
    requires Holds(v, s) && ConfigOk(c) && ProcessTree(s, c) && HomeOk(s, home)
    requires forall f | f in home :: Taken(v.user, f)
    requires Holds(w, t) && t == WithoutEntry(s, ApicSlot(c)) && w == v.(mem := w.mem)
    ensures Sweepable(t, home) && Intact(w, t, home, Pgd)
  {
    hide Wf, PhysOk, Sweepable, Intact, ProcessTree, HomeOk, ConfigOk, ApicSlot;
    assert Shaped(s) by {
      HeldShaped(v, s);
    }
    WithoutApicSweepable(s, home, c);
    HeldIntact(w, t, home);
  }

  /** What is left to do: one frame, still allocated. */
  lemma AfterCleanup(v: Phys, s: Space, w: Phys, t: Space, x: Phys, home: map<nat, Node>, c: Config, osPmd: nat)
    requires Holds(v, s) && ConfigOk(c) && ProcessTree(s, c) && HomeOk(s, home)
    requires Holds(w, t) && Grown(v, s, w, t) && t == WithoutEntry(s, ApicSlot(c)) && w == v.(mem := w.mem)
    requires PhysOk(x) && Cleaned(w, x, t, home, Pgd)
    requires Taken(v.pt, osPmd) && (osPmd in s.owner ==> s.owner[osPmd] == Pmd(0, 0))
    ensures Pmd(0, 0) in s.ents && Taken(x.pt, osPmd) && |x.mem| == |v.mem|
    ensures var r := PL.Give(x.pt, osPmd);
      && PL.Free(r) == PL.Free(v.pt) + (s.owner.Keys - {s.ents[Pmd(0, 0)].pfn}) + {osPmd}
      && (PL.Free(r) == PL.Free(v.pt) + s.owner.Keys <==> osPmd == s.ents[Pmd(0, 0)].pfn)
      && r.start == v.pt.start && r.size == v.pt.size
    ensures PL.Free(x.user) == PL.Free(v.user) + home.Keys
    ensures x.user.start == v.user.start && x.user.size == v.user.size
    ensures forall f: nat | f < |v.mem| && f !in s.owner :: x.mem[f] == v.mem[f]
  {
    hide PL.Shape, PL.Ledger, PL.Give, PL.Free, Wf, HomeOk, ConfigOk, ApicSlot, Taken, DoomedFrames, Doomed;
    HeldShaped(v, s);
    PmdStays(v, s, c);
    EverythingDoomed(s, home, c);
    OsPmdTaken(w.pt, x.pt, t, osPmd);
    GiveFrame(x.pt, osPmd);
  }

  lemma ApicThere(s: Space, c: Config)
    requires ProcessTree(s, c)
    ensures ApicSlot(c) in s.ents
  {
  }

  lemma OsPmdTaken(v: PL.State, w: PL.State, t: Space, osPmd: nat)
    requires PL.Shape(v) && PL.Shape(w) && w.start == v.start && w.size == v.size
    requires PL.Free(w) == PL.Free(v) + DoomedFrames(t.owner, Pgd)
    requires Taken(v, osPmd) && (osPmd in t.owner ==> t.owner[osPmd] == Pmd(0, 0))
    ensures Taken(w, osPmd)
  {
    assert osPmd !in DoomedFrames(t.owner, Pgd);
    FrameStillTaken(v, w, DoomedFrames(t.owner, Pgd), osPmd);
  }

  lemma PmdStays(v: Phys, s: Space, c: Config)
    requires Holds(v, s) && ProcessTree(s, c)
    ensures s.ents[Pmd(0, 0)].pfn in s.owner && s.owner[s.ents[Pmd(0, 0)].pfn] == Pmd(0, 0)
    ensures s.owner.Keys !! PL.Free(v.pt)
  {
    HeldNotFree(v, s);
    assert TableOwned(s, Pmd(0, 0));
  }
}
