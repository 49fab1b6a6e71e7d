/** Properties of the scheduler over whole runs of ticks and system calls. */
module SchedulerRuns {
  import opened Context
  import opened Integers
  import opened Scheduler

  /** What can happen next. `Compute` is any change of the running context's own
      registers, the entry of a SIGSEGV or SIGFPE handler included; without a handler
      these signals are an `Exit`. */
  datatype Event = TimerTick | Sleep(ticks: nat) | Exit | Fork(pgd: nat, osStack: nat)
                 | Clone(entry: nat, userStack: nat, osStack: nat) | Alarm(ticks: nat)
                 | Signal(signo: int, handler: nat) | Compute(frame: Regs)

  /** The invariant between events, from the end of `exec_init` on. The swapper has no
      alarm. */
  predicate SchedOk(t: Table) {
    && Sized(t) && t.ctxs[0].ticksToAlarm == 0
    && (forall i: nat | i < MAX_PROCESSES :: SlotOk(t.ctxs[i], i, t.current))
    && t.ctxs[0].state in {Ready, Running} && t.ctxs[t.current].state in {Ready, Running}
  }

  /** A used slot holds its own number as pid; only the current context is RUNNING. */
  predicate SlotOk(x: ExecContext, i: nat, current: nat) {
    && x.state in {Unused, Ready, Running, Waiting}
    && (x.state != Unused ==> x.pid == i)
    && (x.state == Running ==> i == current)
  }

  predicate OthersLeft(t: Table) {
    exists i: nat :: 1 <= i < |t.ctxs| && i != t.current && t.ctxs[i].state != Unused
  }

  /** The swapper makes no system calls; the last exit ends the run; fork and clone
      need a free slot. */
  predicate Enabled(t: Table, e: Event) {
    match e
    case TimerTick => true
    case Compute(frame) => |frame.general| == 15
    case Exit => t.current != 0 && OthersLeft(t)
    case Fork(_, _) => t.current != 0 && FirstUnused(t.ctxs) < MAX_PROCESSES
    case Clone(_, _, _) => t.current != 0 && FirstUnused(t.ctxs) < MAX_PROCESSES
    case _ => t.current != 0
  }

  /** The effect of an event: what the methods of `Processor` compute. */
  function Step(t: Table, e: Event): Table
    requires SchedOk(t) && Enabled(t, e)
  {
    match e
    case TimerTick => Tick(t)
    case Sleep(ticks) => Leave(t, Sleeper(t, ticks))
    case Exit => Leave(t, Saved(t).(state := Unused))
    case Fork(pgd, osStack) =>
      var slot := FirstUnused(t.ctxs);
      t.(ctxs := t.ctxs[t.current := Saved(t)][slot := ForkChild(Saved(t), slot, pgd, osStack)])
    case Clone(entry, userStack, osStack) =>
      var slot := FirstUnused(t.ctxs);
      t.(ctxs := t.ctxs[t.current := Saved(t)][slot :=
        CloneChild(t.ctxs[slot], Saved(t), slot, entry, userStack, osStack)])
    case Alarm(ticks) => t.(ctxs := t.ctxs[t.current := Armed(Saved(t), ticks)])
    case Signal(signo, handler) => t.(ctxs := t.ctxs[t.current := Handling(Saved(t), signo, handler)])
    case Compute(frame) => t.(frame := frame)
  }

  // ---- The invariant ----------------------------------------------------

  lemma WokenKeeps(x: ExecContext, i: nat, current: nat)
    requires SlotOk(x, i, current)
    ensures SlotOk(Woken(x), i, current)
    ensures Woken(x).regs == x.regs && Woken(x).handlers == x.handlers && Woken(x).pid == x.pid
    ensures Woken(x).state == x.state || (x.state == Waiting && Woken(x).state == Ready)
  {
  }

  /** Each slot in the table that a tick picks from. */
  lemma TickSlot(t: Table, i: nat)
    requires SchedOk(t) && i < MAX_PROCESSES
    ensures var x := TickTable(t)[i];
      && x.pid == t.ctxs[i].pid && x.handlers == t.ctxs[i].handlers && x.regs == t.ctxs[i].regs
      && (if i == t.current then x.state == Ready else x == Woken(t.ctxs[i]))
      && (i == 0 ==> x.ticksToAlarm == 0)
  {
    WokenKeeps(t.ctxs[i], i, t.current);
  }

  lemma CurrentPid(t: Table)
    requires SchedOk(t)
    ensures t.ctxs[t.current].pid == t.current
  {
    assert SlotOk(t.ctxs[t.current], t.current, t.current);
  }

  /** Switching keeps the invariant when nobody in the table is RUNNING and the
      choice is the scan's. */
  lemma SwitchKeeps(b: seq<ExecContext>, p: nat)
    requires |b| == MAX_PROCESSES && p < MAX_PROCESSES
    requires forall i: nat | i < MAX_PROCESSES :: |b[i].handlers| == MAX_SIGNALS && |b[i].regs.general| == 15
    requires forall i: nat | i < MAX_PROCESSES :: SlotOk(b[i], i, MAX_PROCESSES)
    requires b[0].state in {Ready, Running} && b[0].ticksToAlarm == 0
    ensures Pick(b, p) < MAX_PROCESSES && SchedOk(SwitchTo(b, Pick(b, p)))
  {
    PickCharacterised(b, p);
    hide Pick;
    var r := Pick(b, p);
    var t := SwitchTo(b, r);
    assert SlotOk(b[r], r, MAX_PROCESSES);
    forall i: nat | i < MAX_PROCESSES
      ensures SlotOk(t.ctxs[i], i, r)
    {
      assert SlotOk(b[i], i, MAX_PROCESSES);
    }
  }

  lemma TickKeeps(t: Table)
    requires SchedOk(t)
    ensures SchedOk(Tick(t))
  {
    hide Pick, Dist;
    CurrentPid(t);
    var b := TickTable(t);
    forall i: nat | i < MAX_PROCESSES
      ensures SlotOk(b[i], i, MAX_PROCESSES) && |b[i].handlers| == MAX_SIGNALS && |b[i].regs.general| == 15
    {
      TickSlot(t, i);
      assert SlotOk(t.ctxs[i], i, t.current);
      WokenKeeps(t.ctxs[i], i, t.current);
    }
    hide TickTable, Woken;
    FrameShape(t);
    hide TickFrame;
    PickedSame(b, t.current, TickFrame(t));
    if Pick(b, t.current) == t.current {
      assert forall i: nat | i < MAX_PROCESSES :: SlotOk(b[i], i, MAX_PROCESSES) ==> SlotOk(b[i], i, t.current);
      TickSlot(t, t.current);
      TickSlot(t, 0);
      assert SlotOk(b[0], 0, MAX_PROCESSES);
    } else {
      TickSlot(t, 0);
      SwitchKeeps(b[t.current := b[t.current].(regs := TickFrame(t))], t.current);
    }
  }

  /** After a tick the current context is RUNNING exactly when another one was picked:
      an interrupted context that is picked again stays READY. */
  lemma RunningAfterTick(t: Table)
    requires SchedOk(t)
    ensures Tick(t).current == Pick(TickTable(t), t.current) && Tick(t).current < |Tick(t).ctxs|
    ensures Tick(t).ctxs[Tick(t).current].state == Running <==> Pick(TickTable(t), t.current) != t.current
  {
    hide Pick, TickFrame;
    CurrentPid(t);
    TickSlot(t, t.current);
    PickSmall(TickTable(t), t.current);
  }

  lemma FrameShape(t: Table)
    requires SchedOk(t)
    ensures |TickFrame(t).general| == 15
  {
  }

  /** Saving registers does not change what the scan finds. */
  lemma {:induction false} PickedSame(b: seq<ExecContext>, p: nat, regs: Regs)
    requires p < |b|
    ensures Pick(b[p := b[p].(regs := regs)], p) == Pick(b, p)
  {
    SameStates(b, b[p := b[p].(regs := regs)], p, 1);
  }

  lemma {:induction false} SameStates(b: seq<ExecContext>, d: seq<ExecContext>, p: nat, k: nat)
    requires |b| == |d| && forall i: nat | i < |b| :: b[i].state == d[i].state
    requires 1 <= k <= 16
    ensures FirstReady(b, p, k) == FirstReady(d, p, k)
    decreases 16 - k
  {
    hide Cand;
    if k < 16 {
      SameStates(b, d, p, k + 1);
    }
  }

  lemma LeaveKeeps(t: Table, x: ExecContext)
    requires SchedOk(t) && t.current != 0 && x.pid == t.current && x.state in {Unused, Waiting}
    requires |x.handlers| == MAX_SIGNALS && |x.regs.general| == 15
    ensures SchedOk(Leave(t, x))
  {
    hide Pick;
    var b := t.ctxs[t.current := x];
    forall i: nat | i < MAX_PROCESSES
      ensures SlotOk(b[i], i, MAX_PROCESSES)
    {
      assert SlotOk(t.ctxs[i], i, t.current);
    }
    SwitchKeeps(b, t.current);
  }

  lemma NewSlot(t: Table)
    requires SchedOk(t) && FirstUnused(t.ctxs) < MAX_PROCESSES
    ensures var slot := FirstUnused(t.ctxs); slot != t.current && 1 <= slot && t.ctxs[slot].state == Unused
  {
  }

  lemma SpawnKeeps(t: Table, slot: nat, y: ExecContext)
    requires SchedOk(t) && slot < MAX_PROCESSES && slot != t.current && 1 <= slot
    requires y.pid == slot && y.state == Ready && |y.handlers| == MAX_SIGNALS && |y.regs.general| == 15
    ensures SchedOk(t.(ctxs := t.ctxs[t.current := Saved(t)][slot := y]))
  {
    var d := t.ctxs[t.current := Saved(t)][slot := y];
    forall i: nat | i < MAX_PROCESSES
      ensures SlotOk(d[i], i, t.current)
    {
      assert SlotOk(t.ctxs[i], i, t.current);
    }
  }

  lemma OwnKeeps(t: Table, x: ExecContext)
    requires SchedOk(t) && x.state == t.ctxs[t.current].state && x.pid == t.ctxs[t.current].pid
    requires |x.handlers| == MAX_SIGNALS && |x.regs.general| == 15 && (t.current == 0 ==> x.ticksToAlarm == 0)
    ensures SchedOk(t.(ctxs := t.ctxs[t.current := x]))
  {
    var d := t.ctxs[t.current := x];
    forall i: nat | i < MAX_PROCESSES
      ensures SlotOk(d[i], i, t.current)
    {
      assert SlotOk(t.ctxs[i], i, t.current);
    }
  }

  /** Every event keeps the invariant. */
  lemma StepKeeps(t: Table, e: Event)
    requires SchedOk(t) && Enabled(t, e)
    ensures SchedOk(Step(t, e))
  {
    hide Tick, Leave, Pick, SlotOk, FirstUnused, OthersLeft;
    CurrentPid(t);
    match e
    case TimerTick => TickKeeps(t);
    case Sleep(ticks) => LeaveKeeps(t, Sleeper(t, ticks));
    case Exit => LeaveKeeps(t, Saved(t).(state := Unused));
    case Fork(pgd, osStack) =>
      NewSlot(t);
      SpawnKeeps(t, FirstUnused(t.ctxs), ForkChild(Saved(t), FirstUnused(t.ctxs), pgd, osStack));
    case Clone(entry, userStack, osStack) =>
      NewSlot(t);
      var slot := FirstUnused(t.ctxs);
      SpawnKeeps(t, slot, CloneChild(t.ctxs[slot], Saved(t), slot, entry, userStack, osStack));
    case Alarm(ticks) => OwnKeeps(t, Armed(Saved(t), ticks));
    case Signal(signo, handler) => OwnKeeps(t, Handling(Saved(t), signo, handler));
    case Compute(frame) =>
  }

  // ---- Registers --------------------------------------------------------

  /** A context's registers: on the interrupt frame while it is current, else saved. */
  function Logical(t: Table, p: nat): Regs
    requires p < |t.ctxs|
  {
    if p == t.current then t.frame else t.ctxs[p].regs
  }

  lemma TickRegs(t: Table, p: nat)
    requires SchedOk(t) && p < MAX_PROCESSES
    ensures |Tick(t).ctxs| == |t.ctxs|
    ensures Logical(Tick(t), p) == if p == t.current then TickFrame(t) else Logical(t, p)
  {
    hide Pick, TickFrame;
    CurrentPid(t);
    TickSlot(t, p);
    PickSmall(TickTable(t), t.current);
  }

  /** A tick changes a register only by delivering an alarm to the interrupted context,
      and then only rip and rsp. */
  lemma TickFrameEffect(t: Table)
    requires SchedOk(t)
    ensures var x, f := t.ctxs[t.current], TickFrame(t);
      && f == t.frame.(rip := f.rip, rsp := f.rsp)
      && (f != t.frame ==> x.ticksToAlarm == 1 && x.handlers[SIGALRM] != 0)
      && (x.ticksToAlarm == 1 && x.handlers[SIGALRM] != 0 ==>
        f.rip == x.handlers[SIGALRM] && (f.rsp + 8) % U64 == t.frame.rsp % U64)
  {
    assert Woken(t.ctxs[t.current]) == t.ctxs[t.current];
  }

  lemma LeaveRegs(t: Table, x: ExecContext, p: nat)
    requires SchedOk(t) && x.pid == t.current && x.regs == t.frame && p < MAX_PROCESSES
    ensures |Leave(t, x).ctxs| == |t.ctxs| && Logical(Leave(t, x), p) == Logical(t, p)
  {
    hide Pick;
    PickSmall(t.ctxs[t.current := x], t.current);
  }

  /** No event but the context's own computing changes its registers, except that a
      tick may deliver its alarm; a forked child starts with its parent's. */
  lemma RegistersKept(t: Table, e: Event, p: nat)
    requires SchedOk(t) && Enabled(t, e) && !e.Compute? && p < MAX_PROCESSES && t.ctxs[p].state != Unused
    ensures |Step(t, e).ctxs| == |t.ctxs|
    ensures Logical(Step(t, e), p) == if e.TimerTick? && p == t.current then TickFrame(t) else Logical(t, p)
    ensures e.Fork? ==>
      FirstUnused(t.ctxs) < MAX_PROCESSES && Logical(Step(t, e), FirstUnused(t.ctxs)) == Logical(t, t.current)
  {
    hide Tick, Leave, TickFrame, SlotOk;
    CurrentPid(t);
    match e
    case TimerTick => TickRegs(t, p);
    case Sleep(ticks) => LeaveRegs(t, Sleeper(t, ticks), p);
    case Exit => LeaveRegs(t, Saved(t).(state := Unused), p);
    case Fork(_, _) => NewSlot(t);
    case Clone(_, _, _) => NewSlot(t);
    case _ =>
  }
}
