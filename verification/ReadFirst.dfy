/** A page fault gives the tables it makes the rights of the access that faulted. So a
    range of pages that is first touched by a read is never written afterwards. */
module ReadFirst {
  import opened PageTable
  import opened Physical
  import opened Install
  import opened KernelMap
  import opened Segments
  import opened Context
  import opened Fork
  import opened Shrink
  import opened Isolation
  import opened Kernel
  import opened KernelSteps
  import opened Syscalls
  import opened WholeKernel
  import opened Undisturbed
  import S = Scheduler
  import R = SchedulerRuns
  import W = Walk
  import PL = PageList

  /** A table of a tree whose own entry does not grant writing. */
  predicate ReadTable(s: Space, n: Node) {
    n.Pt? && !Huge(n) && n in s.ents && !WriteFlag(s.ents[n])
  }

  /** A read fault in a range without a table makes one that does not grant writing. */
  lemma ReadFault(a: World, b: World, l: Node, p: Pte)
    requires PageFaultStep(a, b, l, p) && p.flags == FaultFlags(0) && Parent(l) !in a.spaces[Current(a)].ents
    ensures ReadTable(b.spaces[Current(a)], Parent(l))
  {
    hide Holds, Grown, UserTree, Leaves, Huges, PL.Supply, Missing, PL.Picked, PL.Take, PL.Shape, InRange, PagePlace;
    hide R.SchedOk;
    assert Parent(l) in PathTables(l);
  }

  /** Under such a table every user write faults. */
  lemma NoWriteBelow(v: Phys, s: Space, k: Node)
    requires Holds(v, s) && UserTree(s) && InRange(k) && ReadTable(s, Parent(k))
    ensures W.Translate(v.mem, s.root, k, W.UserWrite) == W.Fault
  {
    hide W.Translate, UserTree, PhysOk, Wf;
    HeldWf(v, s);
    W.UserWriteTranslation(v.mem, s, k);
  }

  lemma LiveNoWrite(a: World, c: Config, j: nat, k: Node)
    requires WorldOk(a, c) && j in a.spaces && InRange(k) && ReadTable(a.spaces[j], Parent(k))
    ensures j < |a.t.ctxs| && W.Translate(a.v.mem, a.t.ctxs[j].pgd, k, W.UserWrite) == W.Fault
  {
    KernelSlot(a.v, a.t.ctxs, a.spaces, c, j);
    hide KernelOk, R.SchedOk, Abs, Live, W.Translate, InRange;
    LiveHolds(a.v, a.t.ctxs[j], a.spaces[j], c);
    NoWriteBelow(a.v, a.spaces[j], k);
  }

  lemma {:induction false} ReadTableStays(run: seq<World>, acts: seq<Act>, c: Config, j: nat, m: nat, n: nat, t: Node)
    requires WorldRun(run, acts, c) && m <= n < |run| && forall i: nat | m <= i <= n :: j in run[i].spaces
    requires ReadTable(run[m].spaces[j], t)
    ensures ReadTable(run[n].spaces[j], t)
  {
    hide WorldStep;
    if m < n {
      ReadTableStays(run, acts, c, j, m, n - 1, t);
      RunStep(run, acts, c, n - 1);
      TablesStay(run[n - 1], run[n], acts[n - 1], c, j, t);
    }
  }

  /** The running process reads in the range of page k, where nothing is mapped yet. */
  predicate FirstRead(a: World, act: Act, k: Node) {
    && act.PageFault? && act.p.flags == FaultFlags(0) && Current(a) in a.spaces
    && k.Leaf? && act.l.Leaf? && Parent(k) == Parent(act.l) && Parent(k) !in a.spaces[Current(a)].ents
  }

  lemma FirstReadTable(a: World, b: World, act: Act, c: Config, k: Node)
    requires WorldStep(a, b, act, c) && FirstRead(a, act, k)
    ensures Current(a) in b.spaces && ReadTable(b.spaces[Current(a)], Parent(k))
  {
    hide PageFaultStep, ReadTable;
    assert PageFaultStep(a, b, act.l, act.p);
    ReadFault(a, b, act.l, act.p);
    FaultKeepsSpace(a, b, act.l, act.p);
  }

  lemma FaultKeepsSpace(a: World, b: World, l: Node, p: Pte)
    requires PageFaultStep(a, b, l, p)
    ensures Current(a) in b.spaces
  {
    hide Mapped, InRange, PagePlace, NewTables, PL.Shape, PL.Supply, PL.Picked, PL.Take, ReadOnlySide, WriteFlag;
  }

  /** Over every run: once a process has read a page of a 2MB range in which nothing was
      mapped, no page of that range can ever be written by it, whatever its segment and
      the page's own entry grant. */
  lemma NeverWritten(run: seq<World>, acts: seq<Act>, c: Config, j: nat, m: nat, n: nat, k: Node)
    requires |run| == |acts| + 1 && m < n <= |acts| && WorldRun(run, acts, c) && WorldOk(run[0], c)
    requires TablesSpared(run, acts, n) && InRange(k) && FirstRead(run[m], acts[m], k) && Current(run[m]) == j
    requires forall i: nat | m <= i <= n :: j in run[i].spaces
    ensures j < |run[n].t.ctxs| && W.Translate(run[n].v.mem, run[n].t.ctxs[j].pgd, k, W.UserWrite) == W.Fault
  {
    hide WorldOk, W.Translate, WorldStep, WorldRun, TablesSpared, FirstRead, ReadTable, HoldsUpTo;
    RunStep(run, acts, c, m);
    FirstReadTable(run[m], run[m + 1], acts[m], c, k);
    ReadTableStays(run, acts, c, j, m + 1, n, Parent(k));
    RunOkAt(run, acts, c, n);
    LiveNoWrite(run[n], c, j, k);
  }

}
