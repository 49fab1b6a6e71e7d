/** What the child of a fork sees, as the processor translates its addresses. */
module ChildView {
  import opened PageTable
  import opened Physical
  import opened Install
  import opened KernelMap
  import opened Segments
  import opened Fork
  import opened CopyWhole
  import opened Isolation
  import opened KernelSteps
  import W = Walk
  import PL = PageList

  /** The stack but for its topmost page: `copy_mm` starts at `next_free`, and so leaves out
      the pages that the stack has grown by. */
  predicate GrownStack(l: Node) {
    l.Leaf? && 0x7_FF00_0000 <= VaOf(l) < 0x7_FFFF_F000
  }

  /** One page of the child: on the parent's frame and read-only below DATA, from there on
      on a frame of its own, with the parent's contents, to be read and written. */
  predicate SeesPage(v: Phys, w: Phys, ps: Space, ct: Space, l: Node)
    requires l.Leaf? && l in ps.ents
  {
    var r, u := W.Translate(w.mem, ct.root, l, W.UserRead), W.Translate(w.mem, ct.root, l, W.UserWrite);
    if VaOf(l) < 0x1_8000_0000 then r == W.Frame(ps.ents[l].pfn) && u == W.Fault
    else
      && r.Frame? && u == r && PL.IsFree(v.user, r.pfn) && r.pfn < |w.mem| && ps.ents[l].pfn < |v.mem|
      && w.mem[r.pfn] == v.mem[ps.ents[l].pfn]
  }

  predicate SeesNothing(w: Phys, ct: Space, l: Node)
    requires l.Leaf?
  {
    W.Translate(w.mem, ct.root, l, W.UserRead) == W.Translate(w.mem, ct.root, l, W.UserWrite) == W.Fault
  }

  /** The child sees the parent's pages, but for the grown stack, and nothing else. */
  ghost predicate ChildSees(v: Phys, w: Phys, ps: Space, ct: Space) {
    forall l | InRange(l) ::
      if l in ps.ents && !GrownStack(l) then SeesPage(v, w, ps, ct, l) else SeesNothing(w, ct, l)
  }

  /** Which pages are copied, by address. */
  lemma CopiedPlaces(g: Segs, l: Node)
    requires SegsOk(g) && PagePlace(g, l)
    ensures SharedPage(g, l) <==> VaOf(l) < 0x1_8000_0000
    ensures PrivatePage(g, l) <==> VaOf(l) >= 0x1_8000_0000 && !GrownStack(l)
    ensures SharedPage(g, l) ==> CopyFlags(g, l) == 5
    ensures PrivatePage(g, l) ==> CopyFlags(g, l) == 7
  {
    hide VaOf;
  }

  /** Along tables as the set-up code makes them only the page's own entry decides. */
  lemma OpenPath(mem: Mem, s: Space, l: Node)
    requires Wf(mem, s) && UserTree(s) && OpenTables(s) && InRange(l) && l in s.ents
    ensures W.Translate(mem, s.root, l, W.UserWrite) == if WriteFlag(s.ents[l]) then W.Frame(s.ents[l].pfn) else W.Fault
  {
    hide W.Translate, UserTree;
    W.UserWriteTranslation(mem, s, l);
    LeafSide(mem, s, l);
    hide Wf;
    SevenWrites(s.ents[Pud(l.a)]);
    SevenWrites(s.ents[Pmd(l.a, l.b)]);
    SevenWrites(s.ents[Parent(l)]);
  }

  lemma SevenWrites(p: Pte)
    ensures p.flags == 7 ==> WriteFlag(p)
  {
  }

  lemma LeafSide(mem: Mem, s: Space, l: Node)
    requires Wf(mem, s) && l.Leaf? && l in s.ents
    ensures !KernelSide(l)
  {
    assert NodeOk(s, l);
  }

  lemma OnePage(v: Phys, w: Phys, ps: Space, ct: Space, g: Segs, priv: map<nat, Node>, l: Node)
    requires Wf(w.mem, ct) && UserTree(ct) && OpenTables(ct) && ChildPagesExactly(v, ps, w, ct, g, priv) && SegsOk(g)
    requires InRange(l) && (l in ps.ents ==> PagePlace(g, l))
    ensures if l in ps.ents && !GrownStack(l) then SeesPage(v, w, ps, ct, l) else SeesNothing(w, ct, l)
  {
    hide W.Translate, UserTree, Wf, OpenTables, SegsOk, PagePlace, SharedPage, PrivatePage, CopyFlags, VaOf;
    W.UserTranslationIsTheMap(w.mem, ct, l);
    if l in ps.ents {
      CopiedPlaces(g, l);
    }
    if l in ct.ents {
      OpenPath(w.mem, ct, l);
      EntryIs(v, w, ps, ct, g, priv, l);
    } else {
      W.UserWriteTranslation(w.mem, ct, l);
    }
  }

  lemma EntryIs(v: Phys, w: Phys, ps: Space, ct: Space, g: Segs, priv: map<nat, Node>, l: Node)
    requires ChildPagesExactly(v, ps, w, ct, g, priv) && l.Leaf? && l in ct.ents
    ensures l in ps.ents
    ensures SharedPage(g, l) ==> ct.ents[l] == Pte(ps.ents[l].pfn, CopyFlags(g, l))
    ensures PrivatePage(g, l) ==> ct.ents[l].flags == CopyFlags(g, l) && PL.IsFree(v.user, ct.ents[l].pfn)
    ensures PrivatePage(g, l) ==> ct.ents[l].pfn < |w.mem| && ps.ents[l].pfn < |v.mem|
    ensures PrivatePage(g, l) ==> w.mem[ct.ents[l].pfn] == v.mem[ps.ents[l].pfn]
    ensures CopyFlags(g, l) == 5 || CopyFlags(g, l) == 7
  {
    hide VaOf;
    if PrivatePage(g, l) {
      assert CopyOf(v, ps, w, ct, g, ct.ents[l].pfn, l);
      PL.FreeMembership(v.user, ct.ents[l].pfn);
    }
  }

  lemma ForkSeen(v: Phys, w: Phys, ps: Space, ct: Space, g: Segs, stack: nat, priv: map<nat, Node>, c: Config)
    requires ForkMade(v, w, ps, ct, g, stack, priv, c) && SegsOk(g)
    requires forall l | l in ps.ents && l.Leaf? :: PagePlace(g, l)
    ensures ChildSees(v, w, ps, ct)
  {
    HeldHere(w, ct);
    hide PhysOk, Holds, UserTree, Wf, W.Translate, ChildPagesExactly, SegsOk, PagePlace, InRange, SeesPage, GrownStack;
    hide SeesNothing;
    hide OpenTables, KeptHeld, PL.Free;
    forall l | InRange(l)
      ensures if l in ps.ents && !GrownStack(l) then SeesPage(v, w, ps, ct, l) else SeesNothing(w, ct, l)
    {
      OnePage(v, w, ps, ct, g, priv, l);
    }
  }

  lemma HeldHere(w: Phys, ct: Space)
    requires Holds(w, ct)
    ensures Wf(w.mem, ct)
  {
  }
}
