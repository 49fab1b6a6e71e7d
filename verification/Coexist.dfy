/** The two views of the process table meet: scheduling disturbs nothing that the
    memory side relies on, and `exec_init` leaves a table that the scheduler's invariant
    accepts. WholeKernel joins the two over every run. */
module Coexist {
  import opened PageTable
  import opened Physical
  import opened KernelMap
  import opened Context
  import opened Isolation
  import opened Kernel
  import opened FirstProcess
  import S = Scheduler
  import R = SchedulerRuns

  /** Equal in everything the memory side reads. */
  predicate SameMemory(a: seq<ExecContext>, b: seq<ExecContext>) {
    |a| == |b| && forall i: nat | i < |a| :: SameFields(a[i], b[i])
  }

  predicate SameFields(x: ExecContext, y: ExecContext) {
    y.segs == x.segs && y.pgd == x.pgd && y.osStackPfn == x.osStackPfn && (y.state == Unused <==> x.state == Unused)
  }

  lemma SameAbs(v: Phys, a: seq<ExecContext>, b: seq<ExecContext>, spaces: map<nat, Space>)
    requires SameMemory(a, b)
    ensures Abs(v, b, spaces) == Abs(v, a, spaces)
  {
    hide Leaves;
  }

  lemma SameLive(v: Phys, x: ExecContext, y: ExecContext, s: Space, c: Config)
    requires SameFields(x, y) && Live(v, x, s, c)
    ensures Live(v, y, s, c)
  {
  }

  lemma SamePairs(x: ExecContext, x': ExecContext, s: Space, y: ExecContext, y': ExecContext, t: Space)
    requires SameFields(x, x') && SameFields(y, y') && PairOk(x, s, y, t)
    ensures PairOk(x', s, y', t)
  {
  }

  lemma SameMemoryBack(a: seq<ExecContext>, b: seq<ExecContext>)
    requires SameMemory(a, b)
    ensures SameMemory(b, a)
  {
  }

  /** The memory invariant depends on nothing else. */
  lemma SameKernel(v: Phys, a: seq<ExecContext>, b: seq<ExecContext>, spaces: map<nat, Space>, c: Config)
    requires SameMemory(a, b) && KernelOk(v, a, spaces, c)
    ensures KernelOk(v, b, spaces, c) && Abs(v, b, spaces) == Abs(v, a, spaces)
  {
    hide Live, PairOk, SysOk, PhysOk, ConfigOk, Abs;
    SameAbs(v, a, b, spaces);
    forall i | i in spaces
      ensures i < MAX_PROCESSES && Live(v, b[i], spaces[i], c)
    {
      SameLive(v, a[i], b[i], spaces[i], c);
    }
    forall i, j | i in spaces && j in spaces && i != j
      ensures PairOk(b[i], spaces[i], b[j], spaces[j])
    {
      SamePairs(a[i], b[i], spaces[i], a[j], b[j], spaces[j]);
    }
    assert SameFields(a[0], b[0]);
  }

  // ---- Scheduling events ------------------------------------------------

  /** The table as the memory side sees it after an event: only fork, clone and exit
      make a difference. */
  function MemoryView(t: S.Table, e: R.Event): seq<ExecContext>
    requires R.SchedOk(t) && R.Enabled(t, e)
  {
    match e
    case Exit => t.ctxs[t.current := t.ctxs[t.current].(state := Unused)]
    case Fork(pgd, osStack) =>
      t.ctxs[FirstUnused(t.ctxs) := ForkChild(t.ctxs[t.current], FirstUnused(t.ctxs), pgd, osStack)]
    case Clone(entry, stack, osStack) =>
      var slot := FirstUnused(t.ctxs);
      t.ctxs[slot := S.CloneChild(t.ctxs[slot], S.Saved(t), slot, entry, stack, osStack)]
    case _ => t.ctxs
  }

  lemma TickSame(t: S.Table)
    requires R.SchedOk(t)
    ensures SameMemory(t.ctxs, S.Tick(t).ctxs)
  {
    hide S.Pick, S.TickFrame;
    R.CurrentPid(t);
    var b := S.TickTable(t);
    S.PickSmall(b, t.current);
    S.PickCharacterised(b, t.current);
    forall i: nat | i < MAX_PROCESSES
      ensures SameFields(t.ctxs[i], b[i])
    {
      R.TickSlot(t, i);
      TickFields(t, i);
    }
    R.TickSlot(t, 0);
    R.TickKeeps(t);
    hide S.TickTable;
    NotUnusedPick(t, b);
  }

  lemma TickFields(t: S.Table, i: nat)
    requires R.SchedOk(t) && i < MAX_PROCESSES
    ensures SameFields(t.ctxs[i], S.TickTable(t)[i])
  {
  }

  /** What is picked is in use: a READY slot, or the swapper's. */
  lemma NotUnusedPick(t: S.Table, b: seq<ExecContext>)
    requires R.SchedOk(t) && |b| == MAX_PROCESSES && b[0].state != Unused
    ensures S.Pick(b, t.current) < MAX_PROCESSES && b[S.Pick(b, t.current)].state != Unused
  {
    S.PickCharacterised(b, t.current);
  }

  lemma LeaveSame(t: S.Table, x: ExecContext)
    requires R.SchedOk(t) && x.pid == t.current && t.current != 0
    ensures SameMemory(t.ctxs[t.current := x], S.Leave(t, x).ctxs)
  {
    hide S.Pick;
    NotUnusedPick(t, t.ctxs[t.current := x]);
  }

  /** After any event the memory side finds the table it expects. */
  lemma EventMemory(t: S.Table, e: R.Event)
    requires R.SchedOk(t) && R.Enabled(t, e)
    ensures SameMemory(MemoryView(t, e), R.Step(t, e).ctxs)
  {
    hide S.Tick, S.Leave, R.SlotOk;
    R.CurrentPid(t);
    match e
    case TimerTick => TickSame(t);
    case Sleep(ticks) => LeaveSame(t, S.Sleeper(t, ticks));
    case Exit => LeaveSame(t, S.Saved(t).(state := Unused));
    case Fork(_, _) => R.NewSlot(t);
    case Clone(_, _, _) => R.NewSlot(t);
    case _ =>
  }

  /** Scheduling is invisible to the memory side: ticks, sleeps, alarms and signals
      keep its invariant and its abstract state, and an exit or a fork ends with the
      same memory view whether or not another context is switched to. */
  lemma SchedulingKeepsMemory(v: Phys, t: S.Table, e: R.Event, spaces: map<nat, Space>, c: Config)
    requires R.SchedOk(t) && R.Enabled(t, e) && !e.Clone? && KernelOk(v, MemoryView(t, e), spaces, c)
    ensures KernelOk(v, R.Step(t, e).ctxs, spaces, c)
    ensures Abs(v, R.Step(t, e).ctxs, spaces) == Abs(v, MemoryView(t, e), spaces)
  {
    hide KernelOk, SameMemory, R.SchedOk, R.Enabled, R.Step, MemoryView, Abs;
    EventMemory(t, e);
    SameKernel(v, MemoryView(t, e), R.Step(t, e).ctxs, spaces, c);
  }

  /** A live process is never the swapper, and the current slot, when it is not the
      swapper's, is a live process. */
  lemma CurrentIsLive(v: Phys, t: S.Table, spaces: map<nat, Space>, c: Config)
    requires R.SchedOk(t) && KernelOk(v, t.ctxs, spaces, c)
    ensures 0 !in spaces && (t.current in spaces <==> t.current != 0)
  {
    hide Live, PairOk, SysOk, PhysOk, ConfigOk, Abs;
  }

  /** `exec_init` starts the scheduler in its invariant. */
  lemma InitScheduled(ctxs: seq<ExecContext>, slot: nat, pgd: nat, frame: Regs)
    requires OnlySlot(ctxs, slot) && ctxs[slot].pid == slot && ctxs[0].pid == 0 && ctxs[0].state == Ready
    requires |frame.general| == 15 && ctxs[0].ticksToAlarm == 0
    requires forall i: nat | i < MAX_PROCESSES :: |ctxs[i].handlers| == MAX_SIGNALS && |ctxs[i].regs.general| == 15
    ensures R.SchedOk(S.Table(ctxs[slot := InitContext(ctxs[slot], pgd)], slot, frame))
  {
    hide InitSegs;
    var t := S.Table(ctxs[slot := InitContext(ctxs[slot], pgd)], slot, frame);
    forall i: nat | i < MAX_PROCESSES
      ensures R.SlotOk(t.ctxs[i], i, slot)
    {
      assert i != slot ==> t.ctxs[i].state == Unused || i == 0;
    }
  }
}
