/** `install_ptable_multi` (context.c): several pages of one last-level table,
    mapped to frames taken one after the other. */
module InstallMulti {
  import opened PageTable
  import opened Physical
  import opened Install
  import PL = PageList

  function PageAt(l: Node, k: nat): Node
    requires l.Leaf?
  {
    Leaf(l.a, l.b, l.c, l.d + k)
  }

  /** The map after mapping the first k pages from l on to the next k frames. */
  function MultiLeaves(leaves: map<Node, Pte>, l: Node, u: PL.State, k: nat, flags: nat): map<Node, Pte>
    requires l.Leaf? && PL.Shape(u)
  {
    if k == 0 then leaves
    else MultiLeaves(leaves, l, u, k - 1, flags)[PageAt(l, k - 1) := Pte(PL.Picked(PL.TakeN(u, k - 1)), flags)]
  }

  /** x is one of the first k pages from l on. */
  predicate InRun(l: Node, k: nat, x: Node)
    requires l.Leaf?
  {
    x.Leaf? && x.a == l.a && x.b == l.b && x.c == l.c && l.d <= x.d < l.d + k
  }

  /** The map after mapping the first k pages from l on to start, start + 1, and so on. */
  function RunLeaves(leaves: map<Node, Pte>, l: Node, start: nat, k: nat, flags: nat): map<Node, Pte>
    requires l.Leaf?
  {
    if k == 0 then leaves
    else RunLeaves(leaves, l, start, k - 1, flags)[PageAt(l, k - 1) := Pte(start + (k - 1), flags)]
  }

  lemma {:induction false} RunLeavesAt(leaves: map<Node, Pte>, l: Node, start: nat, k: nat, flags: nat, x: Node)
    requires l.Leaf?
    ensures var r := RunLeaves(leaves, l, start, k, flags);
      && (x in r <==> InRun(l, k, x) || x in leaves)
      && (x in r ==> r[x] == if InRun(l, k, x) then Pte(start + (x.d - l.d), flags) else leaves[x])
  {
    if k > 0 {
      RunLeavesAt(leaves, l, start, k - 1, flags, x);
      assert InRun(l, k, x) <==> InRun(l, k - 1, x) || x == PageAt(l, k - 1);
    }
  }

  lemma {:induction false} ConsecutiveLeaves(leaves: map<Node, Pte>, l: Node, u: PL.State, n: nat, k: nat, flags: nat)
    requires l.Leaf? && PL.Shape(u) && PL.ClearRun(u, PL.Picked(u), n) && k <= n
    ensures MultiLeaves(leaves, l, u, k, flags) == RunLeaves(leaves, l, PL.Picked(u), k, flags)
  {
    hide PL.Shape, PL.ClearRun, PL.TakeN, PL.Picked;
    if k > 0 {
      ConsecutiveLeaves(leaves, l, u, n, k - 1, flags);
      KthFrame(u, n, k - 1);
    }
  }

  lemma KthFrame(u: PL.State, n: nat, k: nat)
    requires PL.Shape(u) && PL.ClearRun(u, PL.Picked(u), n) && k < n
    ensures PL.Picked(PL.TakeN(u, k)) == PL.Picked(u) + k
  {
    PL.ConsecutiveTakes(u, n, k);
  }

  /** When the next n frames are clear, the page d places after l lands on frame
      start + d, and no page outside the n changes. */
  lemma ContiguousMapping(leaves: map<Node, Pte>, l: Node, u: PL.State, n: nat, flags: nat)
    requires l.Leaf? && PL.Shape(u) && PL.ClearRun(u, PL.Picked(u), n)
    ensures var r := MultiLeaves(leaves, l, u, n, flags);
      forall x ::
        && (x in r <==> InRun(l, n, x) || x in leaves)
        && (x in r ==> r[x] == if InRun(l, n, x) then Pte(PL.Picked(u) + (x.d - l.d), flags) else leaves[x])
  {
    ConsecutiveLeaves(leaves, l, u, n, n, flags);
    forall x {
      RunLeavesAt(leaves, l, PL.Picked(u), n, flags, x);
    }
  }

  lemma {:induction false} TakeNEffect(u: PL.State, k: nat)
    requires PL.Shape(u) && |PL.Supply(u)| >= k
    ensures |PL.Supply(PL.TakeN(u, k))| == |PL.Supply(u)| - k
    ensures PL.Free(PL.TakeN(u, k)) <= PL.Free(u)
    ensures PL.TakeN(u, k).start == u.start && PL.TakeN(u, k).size == u.size
  {
    hide PL.Supply, PL.Free, PL.Take, PL.Picked;
    if k > 0 {
      TakeNEffect(u, k - 1);
      TakeFrame(PL.TakeN(u, k - 1));
    }
  }

  /** k pages have been mapped. */
  ghost predicate MultiMapped(v: Phys, s: Space, w: Phys, t: Space, l: Node, k: nat, flags: nat)
    requires l.Leaf? && PL.Shape(v.user)
  {
    && Holds(w, t) && Grown(v, s, w, t)
    && Leaves(t) == MultiLeaves(Leaves(s), l, v.user, k, flags) && Huges(t) == Huges(s)
    && (forall n: Node | !n.Leaf? :: n in t.ents <==> n in s.ents || n in PathTables(l))
    && |PL.Supply(w.pt)| == |PL.Supply(v.pt)| - Missing(s, l)
    && (UserTree(s) ==> UserTree(t))
  }

  lemma MultiStart(v: Phys, s: Space, w: Phys, t: Space, l: Node, frame: nat, user: PL.State, flags: nat)
    requires l.Leaf? && PL.Shape(v.user)
    requires Reached(v, s, w, t, l, frame) && PhysOk(w.(user := user))
    ensures MultiMapped(v, s, w.(user := user), t, l, 0, flags)
  {
    hide PL.Supply, PL.Shape, PL.Free, Leaves, Huges, Wf, UserTree;
  }

  lemma MultiStep(v: Phys, s: Space, w: Phys, t: Space, l: Node, frame: nat, k: nat, user: PL.State, p: Pte)
    requires l.Leaf? && PL.Shape(v.user)
    requires MultiMapped(v, s, w, t, l, k, p.flags)
    requires IsTable(t, Parent(l)) && FrameOf(t, Parent(l)) == frame && frame < |w.mem|
    requires p.pfn == PL.Picked(PL.TakeN(v.user, k)) && p.pfn < MAX_FRAMES && PteOk(p) && UserFlag(p)
    requires !KernelSide(l) && l.d + k < ENTRIES
    requires PhysOk(w.(user := user))
    ensures var x := w.(user := user, mem := Store(w.mem, frame, l.d + k, Raw(p)));
      MultiMapped(v, s, x, WithEntry(t, PageAt(l, k), p), l, k + 1, p.flags)
  {
    hide PL.Supply, PL.Shape, PL.Ledger, PL.TakeN, PL.Picked, PL.Free, Leaves, Huges, Grown, Wf, UserTree, Raw;
    hide MemOk, Store;
    var y, n := w.(user := user), PageAt(l, k);
    assert Holds(y, t);
    PutHolds(y, t, n, p);
    EntryViews(t, n, p);
    if UserTree(t) {
      EntryUser(t, n, p);
    }
    var x := y.(mem := Store(w.mem, frame, l.d + k, Raw(p)));
    assert x == Hang(y, t, n, p);
    GrownIgnoresUser(w, t, y, t, x, WithEntry(t, n, p));
    GrownTransitive(v, s, w, t, x, WithEntry(t, n, p));
  }

  /** The loop of `install_ptable_multi`: the first frame has been taken already. */
  method FillEntries(m: Machine, frame: nat, index: nat, count: nat, write: bool, startPfn: nat,
                     ghost v: Phys, ghost s: Space, ghost l: Node, ghost t0: Space)
    returns (ghost t: Space)
    requires m.Valid() && PhysOk(v) && l.Leaf? && !KernelSide(l) && l.d == index && index + count <= ENTRIES
    requires 1 <= count <= |PL.Supply(v.user)|
    requires MultiMapped(v, s, m.Value(), t0, l, 0, if write then 7 else 5)
    requires IsTable(t0, Parent(l)) && FrameOf(t0, Parent(l)) == frame && frame < |m.mem|
    requires startPfn == PL.Picked(v.user) && startPfn < |m.mem| && m.user.Value() == PL.TakeN(v.user, 1)
    modifies m.Objs()
    requires NewTables(s, t0, 7)
    ensures m.Valid() && MultiMapped(v, s, m.Value(), t, l, count, if write then 7 else 5)
    ensures m.user.Value() == PL.TakeN(v.user, count) && NewTables(s, t, 7)
  {
    hide Holds, PL.Supply, PL.Shape, PL.Ledger, PL.Take, PL.Picked, MultiMapped, KernelSide, PL.PageList.Value;
    hide Raw, Store, FrameOf, NewTables;
    ghost var flags := if write then 7 else 5;
    t := t0;
    var ctr := 0;
    while ctr < count
      invariant ctr <= count && m.Valid()
      invariant MultiMapped(v, s, m.Value(), t, l, ctr, flags) && NewTables(s, t, 7)
      invariant IsTable(t, Parent(l)) && FrameOf(t, Parent(l)) == frame && frame < |m.mem| && startPfn < |m.mem|
      invariant m.user.Value() == PL.TakeN(v.user, if ctr == 0 then 1 else ctr)
    {
      ghost var w := m.Value();
      var pfn := startPfn;
      if ctr != 0 {
        TakeNEffect(v.user, ctr);
        pfn := m.FreshUser();
      }
      StoredPte(m, frame, index + ctr, pfn, write);
      MultiStep(v, s, w, t, l, frame, ctr, m.user.Value(), Pte(pfn, flags));
      PageKeepsTables(s, t, PageAt(l, ctr), Pte(pfn, flags), 7);
      EntryKeepsTable(t, PageAt(l, ctr), Pte(pfn, flags), Parent(l));
      t := WithEntry(t, PageAt(l, ctr), Pte(pfn, flags));
      ctr := ctr + 1;
    }
  }

  lemma EntryKeepsTable(t: Space, n: Node, p: Pte, x: Node)
    requires IsTable(t, x) && n.Leaf?
    ensures IsTable(WithEntry(t, n, p), x) && FrameOf(WithEntry(t, n, p), x) == FrameOf(t, x)
  {
  }

  /** `install_ptable_multi`; the pages must fit one last-level table, as its comment demands. */
  method InstallPtableMulti(m: Machine, pgd: nat, start: nat, count: nat, write: bool, ghost s: Space)
    returns (startPfn: nat, ghost t: Space)
    requires m.Valid() && Holds(m.Value(), s) && s.root == pgd
    requires !KernelSide(LeafOf(start))
    requires 1 <= count && PteIndex(start) + count <= ENTRIES
    requires |PL.Supply(m.pt.Value())| >= Missing(s, LeafOf(start)) && |PL.Supply(m.user.Value())| >= count
    modifies m.Objs()
    ensures m.Valid() && startPfn == PL.Picked(old(m.user.Value()))
    ensures MultiMapped(old(m.Value()), s, m.Value(), t, LeafOf(start), count, if write then 7 else 5)
    ensures m.user.Value() == PL.TakeN(old(m.user.Value()), count) && NewTables(s, t, 7)
  {
    hide Holds, PL.Supply, PL.Shape, PL.Ledger, PL.Take, PL.Picked, MultiMapped, PgdIndex, PudIndex, PmdIndex, PteIndex;
    hide KernelSide, PL.PageList.Value, Grown, Leaves, Huges, NewTables;
    ghost var l, v, u := LeafOf(start), m.Value(), m.user.Value();
    var frame;
    frame, t := WalkForSetup(m, pgd, start, s);
    ghost var w := m.Value();
    startPfn := m.FreshUser();
    assert m.user.Value() == PL.TakeN(u, 1);
    MultiStart(v, s, w, t, l, frame, m.user.Value(), if write then 7 else 5);
    t := FillEntries(m, frame, PteIndex(start), count, write, startPfn, v, s, l, t);
  }
}
