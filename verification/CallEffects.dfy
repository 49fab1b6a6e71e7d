/** What each event of the scheduler does to the process table, field by field. */
module CallEffects {
  import opened Integers
  import opened Context
  import opened Scheduler
  import opened SchedulerRuns

  // ---- What stays -------------------------------------------------------

  /** Who a context is and where it lives does not change while its slot is used, and its
      handlers and alarm change only by its own calls and ticks. */
  lemma OthersKept(t: Table, e: Event, i: nat)
    requires SchedOk(t) && Enabled(t, e) && i < MAX_PROCESSES && t.ctxs[i].state != Unused
    ensures |Step(t, e).ctxs| == MAX_PROCESSES
    ensures var x, y := t.ctxs[i], Step(t, e).ctxs[i];
      && y.pid == x.pid && y.ppid == x.ppid && y.pgd == x.pgd && y.osStackPfn == x.osStackPfn && y.segs == x.segs
      && (!(e.Signal? && i == t.current) ==> y.handlers == x.handlers)
      && (!(e.Alarm? && i == t.current) ==> y.alarmConfigTime == x.alarmConfigTime)
      && (!((e.Alarm? || e.TimerTick?) && i == t.current) ==> y.ticksToAlarm == x.ticksToAlarm)
      && (!(e.TimerTick? || (e.Sleep? && i == t.current)) ==> y.ticksToSleep == x.ticksToSleep)
  {
    hide Pick, SlotOk, OthersLeft;
    CurrentPid(t);
    match e
    case TimerTick => TickKept(t, i);
    case Sleep(ticks) => LeaveKept(t, Sleeper(t, ticks), i);
    case Exit => LeaveKept(t, Saved(t).(state := Unused), i);
    case Fork(_, _) => NewSlot(t);
    case Clone(_, _, _) => NewSlot(t);
    case _ =>
  }

  lemma TickKept(t: Table, i: nat)
    requires SchedOk(t) && i < MAX_PROCESSES
    ensures |Tick(t).ctxs| == MAX_PROCESSES
    ensures var x, y := t.ctxs[i], Tick(t).ctxs[i];
      && y.pid == x.pid && y.ppid == x.ppid && y.pgd == x.pgd && y.osStackPfn == x.osStackPfn && y.segs == x.segs
      && y.handlers == x.handlers && y.alarmConfigTime == x.alarmConfigTime
      && (i != t.current ==> y.ticksToAlarm == x.ticksToAlarm)
  {
    hide Pick, SlotOk;
    CurrentPid(t);
    PickSmall(TickTable(t), t.current);
  }

  lemma LeaveKept(t: Table, x: ExecContext, i: nat)
    requires SchedOk(t) && x.pid == t.current && i < MAX_PROCESSES
    ensures |Leave(t, x).ctxs| == MAX_PROCESSES
    ensures var y, z := Leave(t, x).ctxs[i], if i == t.current then x else t.ctxs[i];
      y == z.(state := y.state)
  {
    hide Pick, SlotOk;
    PickSmall(t.ctxs[t.current := x], t.current);
  }

  /** Of the slots not in use an event touches only the one it fills. */
  lemma UnusedKept(t: Table, e: Event, i: nat)
    requires SchedOk(t) && Enabled(t, e) && i < MAX_PROCESSES && t.ctxs[i].state == Unused
    requires e.Fork? || e.Clone? ==> i != FirstUnused(t.ctxs)
    ensures |Step(t, e).ctxs| == MAX_PROCESSES && Step(t, e).ctxs[i] == t.ctxs[i]
  {
    hide SlotOk, OthersLeft;
    CurrentPid(t);
    match e
    case TimerTick => UnusedTick(t, i);
    case Sleep(ticks) => NotPicked(t, t.ctxs[t.current := Sleeper(t, ticks)], i);
    case Exit => NotPicked(t, t.ctxs[t.current := Saved(t).(state := Unused)], i);
    case Fork(_, _) => NewSlot(t);
    case Clone(_, _, _) => NewSlot(t);
    case _ =>
  }

  lemma UnusedTick(t: Table, i: nat)
    requires SchedOk(t) && i < MAX_PROCESSES && t.ctxs[i].state == Unused
    ensures |Tick(t).ctxs| == MAX_PROCESSES && Tick(t).ctxs[i] == t.ctxs[i]
  {
    hide SlotOk;
    CurrentPid(t);
    PickCharacterised(TickTable(t), t.current);
    hide Pick;
    PickSmall(TickTable(t), t.current);
  }

  lemma NotPicked(t: Table, b: seq<ExecContext>, i: nat)
    requires SchedOk(t) && |b| == MAX_PROCESSES && i < MAX_PROCESSES && b[i].state == Unused
    requires i != t.current && b[0].state == t.ctxs[0].state
    ensures Pick(b, t.current) != i && Pick(b, t.current) < MAX_PROCESSES
  {
    PickCharacterised(b, t.current);
  }

  // ---- New contexts -----------------------------------------------------

  /** The child of a fork is the caller in everything but its number, its parent, its
      address space, its OS stack and its state; nobody else changes. */
  lemma ForkEffect(t: Table, pgd: nat, osStack: nat)
    requires SchedOk(t) && Enabled(t, Fork(pgd, osStack))
    ensures var u, j, x := Step(t, Fork(pgd, osStack)), FirstUnused(t.ctxs), t.ctxs[t.current];
      && |u.ctxs| == MAX_PROCESSES && j < MAX_PROCESSES && j != t.current
      && u.current == t.current && u.frame == t.frame
      && var y := u.ctxs[j];
      && y.pid == j && y.ppid == t.current && y.state == Ready && y.pgd == pgd && y.osStackPfn == osStack
      && y.segs == x.segs && y.regs == t.frame && y.handlers == x.handlers
      && y.ticksToSleep == x.ticksToSleep && y.alarmConfigTime == x.alarmConfigTime && y.ticksToAlarm == x.ticksToAlarm
      && u.ctxs[t.current] == x.(regs := t.frame)
      && forall i: nat | i < MAX_PROCESSES && i != j && i != t.current :: u.ctxs[i] == t.ctxs[i]
  {
    hide SlotOk;
    CurrentPid(t);
    NewSlot(t);
  }

  /** A signal raised in the child, when it first runs, is delivered exactly as it would
      have been in the parent at the fork: into the same handler, with the same frame and
      the same word pushed. */
  lemma ChildSignal(t: Table, pgd: nat, osStack: nat, signo: nat)
    requires SchedOk(t) && Enabled(t, Fork(pgd, osStack)) && signo < MAX_SIGNALS
    ensures var u, j := Step(t, Fork(pgd, osStack)), FirstUnused(t.ctxs);
      && j < |u.ctxs|
      && var there, here := SwitchTo(u.ctxs, j), t.ctxs[t.current];
      && signo < |there.ctxs[j].handlers| && there.current == j
      && Delivered(there.frame, there.ctxs[j].handlers[signo]) == Delivered(t.frame, here.handlers[signo])
      && ReturnPush(there.frame, there.ctxs[j].handlers[signo]) == ReturnPush(t.frame, here.handlers[signo])
  {
    hide SlotOk, Delivered, ReturnPush;
    ForkEffect(t, pgd, osStack);
  }

  /** A clone enters the thread function on its own stack, in the caller's address space,
      and is the caller in everything else; its parent field stays as the slot had it. */
  lemma CloneEffect(t: Table, entry: nat, userStack: nat, osStack: nat)
    requires SchedOk(t) && Enabled(t, Clone(entry, userStack, osStack))
    ensures var u, j, x := Step(t, Clone(entry, userStack, osStack)), FirstUnused(t.ctxs), t.ctxs[t.current];
      && |u.ctxs| == MAX_PROCESSES && j < MAX_PROCESSES && j != t.current
      && u.current == t.current && u.frame == t.frame
      && var y := u.ctxs[j];
      && y.pid == j && y.ppid == t.ctxs[j].ppid && y.state == Ready && y.pgd == x.pgd && y.osStackPfn == osStack
      && y.segs == x.segs && y.handlers == x.handlers
      && y.ticksToSleep == x.ticksToSleep && y.alarmConfigTime == x.alarmConfigTime && y.ticksToAlarm == x.ticksToAlarm
      && y.regs.rip == entry && y.regs.rsp == userStack && |y.regs.general| == 15
      && (forall k: nat | k < 15 :: y.regs.general[k] == if k == 8 then userStack else t.frame.general[k])
      && y.regs.cs == t.frame.cs && y.regs.rflags == t.frame.rflags && y.regs.ss == t.frame.ss
      && u.ctxs[t.current] == x.(regs := t.frame)
      && forall i: nat | i < MAX_PROCESSES && i != j && i != t.current :: u.ctxs[i] == t.ctxs[i]
  {
    hide SlotOk;
    NewSlot(t);
  }

  // ---- Signals and alarms -----------------------------------------------

  /** A tick pushes a word if and only if the interrupted context's alarm is due and it has
      a handler; then that context goes on in the handler, its stack pointer at the word,
      and the word is where it was interrupted. */
  lemma TickPushIs(t: Table)
    requires SchedOk(t)
    ensures var x, p := t.ctxs[t.current], TickPush(t);
      && (p.Push? <==> x.ticksToAlarm == 1 && x.handlers[SIGALRM] != 0)
      && |Tick(t).ctxs| == MAX_PROCESSES
      && var r := Logical(Tick(t), t.current);
      && (p.Push? ==> p.value == t.frame.rip % U64 && p.address == (t.frame.rsp + U64 - 8) % U64)
      && (p.Push? ==> r.rsp == p.address && r.rip == x.handlers[SIGALRM])
      && (p.NoPush? ==> r == t.frame)
      && r == t.frame.(rip := r.rip, rsp := r.rsp)
  {
    hide SlotOk;
    CurrentPid(t);
    TickRegs(t, t.current);
    hide Tick;
    assert Woken(t.ctxs[t.current]) == t.ctxs[t.current];
  }

  /** The countdown of the interrupted context, and of nobody else. */
  lemma TickAlarm(t: Table)
    requires SchedOk(t)
    ensures |Tick(t).ctxs| == MAX_PROCESSES
    ensures var x, y := t.ctxs[t.current], Tick(t).ctxs[t.current];
      y.ticksToAlarm == if x.ticksToAlarm == 0 then 0
                        else if x.ticksToAlarm == 1 then x.alarmConfigTime else x.ticksToAlarm - 1
  {
    hide Pick, SlotOk;
    CurrentPid(t);
    PickSmall(TickTable(t), t.current);
  }

  /** `signal` stores the handler in its own place, and only there. */
  lemma SignalEffect(t: Table, signo: int, handler: nat, k: nat)
    requires SchedOk(t) && Enabled(t, Signal(signo, handler)) && k < MAX_SIGNALS
    ensures var u := Step(t, Signal(signo, handler));
      && |u.ctxs| == MAX_PROCESSES && k < |u.ctxs[t.current].handlers|
      && u.ctxs[t.current].handlers[k] == if k == signo then handler else t.ctxs[t.current].handlers[k]
  {
    hide SlotOk;
  }

  /** `alarm(0)` changes nothing but the saved registers; a running alarm goes on. */
  lemma AlarmZero(t: Table, ticks: nat)
    requires SchedOk(t) && Enabled(t, Alarm(ticks)) && ticks % U32 == 0
    ensures var u := Step(t, Alarm(ticks));
      |u.ctxs| == MAX_PROCESSES && u.ctxs[t.current] == t.ctxs[t.current].(regs := t.frame)
  {
    hide SlotOk;
  }
}
