/** The round-robin scheduler (schedule.c) and the system calls that end in it
    (entry.c): sixteen slots, slot 0 the swapper. */
module Scheduler {
  import opened Context
  import opened Integers

  /** The process table, the running slot, and the user registers as the interrupt
      or system call entry has saved them (`*regs`). */
  datatype Table = Table(ctxs: seq<ExecContext>, current: nat, frame: Regs)

  predicate Sized(t: Table) {
    && |t.ctxs| == MAX_PROCESSES && t.current < MAX_PROCESSES && t.ctxs[t.current].pid < MAX_PROCESSES
    && |t.frame.general| == 15
    && forall i: nat | i < MAX_PROCESSES :: |t.ctxs[i].handlers| == MAX_SIGNALS && |t.ctxs[i].regs.general| == 15
  }

  // ---- The scan ---------------------------------------------------------

  /** The k-th slot that a scan starting from p looks at: p + 1, p + 2, ..., going
      round over 1 to 15, p itself last. */
  function Cand(p: nat, k: nat): (r: nat)
    requires k >= 1
    ensures 1 <= r < MAX_PROCESSES
  {
    (p + k - 1) % 15 + 1
  }

  /** How far q is ahead of p in that order: 1 to 15. */
  function Dist(p: nat, q: nat): (r: nat)
    ensures 1 <= r <= 15
  {
    (q - p - 1) % 15 + 1
  }

  /** One step of the scan: up by one, and from 15 round to 1. */
  lemma CandStep(p: nat, k: nat)
    requires p < MAX_PROCESSES && 1 <= k <= 15
    ensures Cand(p, 1) == if p + 1 == MAX_PROCESSES then 1 else p + 1
    ensures Cand(p, k + 1) == if Cand(p, k) == 15 then 1 else Cand(p, k) + 1
    ensures if p == 0 then Cand(p, k) == k else Cand(p, k) == p <==> k == 15
  {
  }

  lemma CandDist(p: nat, k: nat, q: nat)
    requires p < MAX_PROCESSES
    ensures 1 <= k <= 15 ==> Dist(p, Cand(p, k)) == k
    ensures 1 <= q < MAX_PROCESSES ==> Cand(p, Dist(p, q)) == q
  {
    if 1 <= k <= 15 {
      DistOfCand(p, k);
    }
    if 1 <= q < MAX_PROCESSES {
      CandOfDist(p, q);
    }
  }

  lemma DistOfCand(p: nat, k: nat)
    requires 1 <= k <= 15
    ensures Dist(p, Cand(p, k)) == k
  {
    var m := p + k - 1;
    Round(k - 1, m / 15);
    assert m % 15 - p == (k - 1) - 15 * (m / 15);
  }

  lemma CandOfDist(p: nat, q: nat)
    requires 1 <= q < MAX_PROCESSES
    ensures Cand(p, Dist(p, q)) == q
  {
    var m := q - p - 1;
    Round(q - 1, m / 15);
    assert p + m % 15 == (q - 1) - 15 * (m / 15);
  }

  lemma Round(x: nat, a: int)
    requires x < 15
    ensures (x - 15 * a) % 15 == x
  {
  }

  /** From a slot on the way, the rest of the way is what remains. */
  lemma DistSplit(p: nat, r: nat, q: nat)
    requires p < MAX_PROCESSES && 1 <= r < MAX_PROCESSES && 1 <= q < MAX_PROCESSES
    requires Dist(p, r) < Dist(p, q)
    ensures Dist(r, q) == Dist(p, q) - Dist(p, r)
  {
  }

  predicate IsReady(ctxs: seq<ExecContext>, i: nat) {
    i < |ctxs| && ctxs[i].state == Ready
  }

  function FirstReady(ctxs: seq<ExecContext>, p: nat, k: nat): (r: nat)
    requires 1 <= k <= 16
    decreases 16 - k
  {
    if k == 16 then 0 else if IsReady(ctxs, Cand(p, k)) then Cand(p, k) else FirstReady(ctxs, p, k + 1)
  }

  /** The slot `pick_next_context` returns for a caller with this pid. */
  function Pick(ctxs: seq<ExecContext>, p: nat): nat {
    FirstReady(ctxs, p, 1)
  }

  lemma {:induction false} FirstReadyIs(ctxs: seq<ExecContext>, p: nat, k: nat, j: nat)
    requires 1 <= k <= j <= 16 && forall i: nat | k <= i < j :: !IsReady(ctxs, Cand(p, i))
    requires j < 16 ==> IsReady(ctxs, Cand(p, j))
    ensures FirstReady(ctxs, p, k) == if j == 16 then 0 else Cand(p, j)
    decreases j - k
  {
    if k < j {
      assert !IsReady(ctxs, Cand(p, k));
      FirstReadyIs(ctxs, p, k + 1, j);
    }
  }

  /** Characterisation: slot 0 exactly when none of 1 to 15 is READY, else the READY
      slot nearest ahead of the caller in cyclic order. */
  lemma PickCharacterised(ctxs: seq<ExecContext>, p: nat)
    requires p < MAX_PROCESSES
    ensures Pick(ctxs, p) == 0 <==> forall q: nat | 1 <= q < MAX_PROCESSES :: !IsReady(ctxs, q)
    ensures Pick(ctxs, p) != 0 ==> Pick(ctxs, p) < MAX_PROCESSES && IsReady(ctxs, Pick(ctxs, p))
    ensures Pick(ctxs, p) != 0 ==>
      forall q: nat | 1 <= q < MAX_PROCESSES && IsReady(ctxs, q) :: Dist(p, Pick(ctxs, p)) <= Dist(p, q)
  {
    hide Cand, Dist, FirstReady;
    FirstReadyNearest(ctxs, p, 1);
    forall q: nat | 1 <= q < MAX_PROCESSES
      ensures Pick(ctxs, p) == 0 ==> !IsReady(ctxs, q)
      ensures Pick(ctxs, p) != 0 && IsReady(ctxs, q) ==> Dist(p, Pick(ctxs, p)) <= Dist(p, q)
    {
      CandDist(p, 1, q);
    }
  }

  /** The slot after the caller's, 1 after 15, comes first. */
  lemma NextComesFirst(ctxs: seq<ExecContext>, p: nat)
    requires p < MAX_PROCESSES && IsReady(ctxs, if p == 15 then 1 else p + 1)
    ensures Pick(ctxs, p) == if p == 15 then 1 else p + 1
  {
    CandStep(p, 1);
    hide Cand;
  }

  lemma {:induction false} FirstReadyNearest(ctxs: seq<ExecContext>, p: nat, k: nat)
    requires p < MAX_PROCESSES && 1 <= k <= 16
    ensures FirstReady(ctxs, p, k) == 0 ==> forall i: nat | k <= i < 16 :: !IsReady(ctxs, Cand(p, i))
    ensures var r := FirstReady(ctxs, p, k); r != 0 ==> 1 <= r < MAX_PROCESSES && IsReady(ctxs, r) && k <= Dist(p, r)
    ensures var r := FirstReady(ctxs, p, k); r != 0 ==> forall i: nat | k <= i < Dist(p, r) ::
      !IsReady(ctxs, Cand(p, i))
    decreases 16 - k
  {
    hide Cand, Dist;
    if k < 16 {
      CandDist(p, k, 1);
      if !IsReady(ctxs, Cand(p, k)) {
        FirstReadyNearest(ctxs, p, k + 1);
      }
    }
  }

  /** The distance to a READY slot that is passed over falls with every pick. */
  lemma PassedOver(ctxs: seq<ExecContext>, p: nat, q: nat)
    requires p < MAX_PROCESSES && 1 <= q < MAX_PROCESSES && IsReady(ctxs, q)
    ensures Pick(ctxs, p) != 0
    ensures Pick(ctxs, p) != q ==> Dist(Pick(ctxs, p), q) < Dist(p, q)
  {
    PickCharacterised(ctxs, p);
    var r := Pick(ctxs, p);
    CandDist(p, 1, r);
    CandDist(p, 1, q);
    if r != q {
      DistSplit(p, r, q);
    }
  }

  // ---- Steps ------------------------------------------------------------

  /** One slot's share of `do_sleep_and_alarm_account`. */
  function Woken(x: ExecContext): ExecContext {
    if x.state == Waiting && x.ticksToSleep > 0 then
      x.(ticksToSleep := x.ticksToSleep - 1, state := if x.ticksToSleep == 1 then Ready else Waiting)
    else x
  }

  function WokenUpTo(ctxs: seq<ExecContext>, n: nat): (r: seq<ExecContext>)
    requires n <= |ctxs|
    ensures |r| == |ctxs|
    ensures forall i: nat | i < |ctxs| :: r[i] == if i < n then Woken(ctxs[i]) else ctxs[i]
  {
    seq(|ctxs|, i requires 0 <= i < |ctxs| => if i < n then Woken(ctxs[i]) else ctxs[i])
  }

  /** A signal handler is entered with the interrupted rip pushed on the user stack. */
  function Delivered(frame: Regs, handler: nat): Regs {
    if handler == 0 then frame else frame.(rsp := (frame.rsp + U64 - 8) % U64, rip := handler)
  }

  /** The word a signal delivery writes to the user stack. */
  datatype Push = NoPush | Push(address: nat, value: nat)

  function ReturnPush(frame: Regs, handler: nat): Push {
    if handler == 0 then NoPush else Push((frame.rsp + U64 - 8) % U64, frame.rip % U64)
  }

  /** The push of one tick's accounting. */
  function TickPush(t: Table): Push
    requires Sized(t)
  {
    var x := Woken(t.ctxs[t.current]);
    if AlarmFires(x) then ReturnPush(t.frame, x.handlers[SIGALRM]) else NoPush
  }

  /** `invoke_sync_signal` is called for SIGALRM in this tick. */
  predicate AlarmFires(x: ExecContext) {
    x.ticksToAlarm == 1
  }

  function AlarmCounted(x: ExecContext): ExecContext {
    if x.ticksToAlarm == 0 then x
    else x.(ticksToAlarm := if AlarmFires(x) then x.alarmConfigTime else x.ticksToAlarm - 1)
  }

  /** The register frame after the accounting of one tick. */
  function TickFrame(t: Table): Regs
    requires Sized(t)
  {
    var x := Woken(t.ctxs[t.current]);
    if AlarmFires(x) then Delivered(t.frame, x.handlers[SIGALRM]) else t.frame
  }

  /** The table after the accounting of one tick. */
  function Accounted(t: Table): (r: seq<ExecContext>)
    requires Sized(t)
    ensures |r| == |t.ctxs|
  {
    var woken := WokenUpTo(t.ctxs, |t.ctxs|);
    woken[t.current := AlarmCounted(woken[t.current])]
  }

  /** `schedule`: the chosen context runs on with its saved registers. */
  function SwitchTo(ctxs: seq<ExecContext>, r: nat): Table
    requires r < |ctxs|
  {
    Table(ctxs[r := ctxs[r].(state := Running)], r, ctxs[r].regs)
  }

  /** The table a tick picks from: accounted, and the interrupted context READY. */
  function TickTable(t: Table): (r: seq<ExecContext>)
    requires Sized(t)
    ensures |r| == |t.ctxs|
  {
    Accounted(t)[t.current := Accounted(t)[t.current].(state := Ready)]
  }

  lemma PickSmall(ctxs: seq<ExecContext>, p: nat)
    requires p < MAX_PROCESSES
    ensures Pick(ctxs, p) < MAX_PROCESSES
  {
    PickCharacterised(ctxs, p);
  }

  /** `handle_timer_tick`. */
  function Tick(t: Table): Table
    requires Sized(t)
  {
    var b := TickTable(t);
    var r := Pick(b, t.ctxs[t.current].pid);
    PickSmall(b, t.ctxs[t.current].pid);
    if r == t.current then Table(b, t.current, TickFrame(t))
    else SwitchTo(b[t.current := b[t.current].(regs := TickFrame(t))], r)
  }

  /** The caller's slot at a system call, with the registers saved at its entry. */
  function Saved(t: Table): ExecContext
    requires Sized(t)
  {
    t.ctxs[t.current].(regs := t.frame)
  }

  function Sleeper(t: Table, ticks: nat): ExecContext
    requires Sized(t)
  {
    Saved(t).(ticksToSleep := ticks % U32, state := Waiting)
  }

  /** The caller leaves the processor in some state; another context is chosen. */
  function Leave(t: Table, x: ExecContext): Table
    requires Sized(t) && x.pid < MAX_PROCESSES
  {
    var b := t.ctxs[t.current := x];
    PickSmall(b, x.pid);
    SwitchTo(b, Pick(b, x.pid))
  }

  /** `do_alarm` for a positive argument. */
  function Armed(x: ExecContext, ticks: nat): ExecContext {
    if ticks % U32 > 0 then x.(alarmConfigTime := ticks % U32, ticksToAlarm := ticks % U32) else x
  }

  /** `do_signal`. */
  function Handling(x: ExecContext, signo: int, handler: nat): ExecContext
    requires |x.handlers| == MAX_SIGNALS
  {
    if 0 <= signo < MAX_SIGNALS then x.(handlers := x.handlers[signo := handler]) else x
  }

  /** What `do_clone` puts in the new slot y: the caller's address space, segments,
      timers and handlers, and registers that enter the thread function; the parent
      field is not set. */
  function CloneChild(y: ExecContext, x: ExecContext, pid: nat, entry: nat, stack: nat, osStack: nat): ExecContext
    requires |x.regs.general| == 15
  {
    y.(pid := pid, state := Ready, pgd := x.pgd, osStackPfn := osStack, segs := x.segs,
       regs := x.regs.(rip := entry, rsp := stack, general := x.regs.general[RBP := stack]),
       handlers := x.handlers, ticksToSleep := x.ticksToSleep,
       alarmConfigTime := x.alarmConfigTime, ticksToAlarm := x.ticksToAlarm)
  }

  // ---- The code ---------------------------------------------------------

  class Processor {
    const ctxs: array<ExecContext>
    var current: nat
    var frame: Regs

    constructor (table: array<ExecContext>, slot: nat, regs: Regs)
      ensures ctxs == table && current == slot && frame == regs
    {
      ctxs := table;
      current := slot;
      frame := regs;
    }

    function Value(): Table
      reads this, ctxs
    {
      Table(ctxs[..], current, frame)
    }

    /** `pick_next_context`. */
    method PickNextContext(ctx: nat) returns (r: nat)
      requires ctxs.Length == MAX_PROCESSES && ctx < MAX_PROCESSES && ctxs[ctx].pid < MAX_PROCESSES
      ensures r < MAX_PROCESSES && r == Pick(ctxs[..], ctxs[ctx].pid)
    {
      hide Pick, Cand;
      var self := ctxs[ctx].pid;
      CandStep(self, 1);
      var pid := if self + 1 == MAX_PROCESSES then 1 else self + 1;
      ghost var k := 1;
      while pid != 0
        invariant 1 <= k <= 16 && (pid == 0 ==> k == 16) && (pid != 0 ==> k < 16 && pid == Cand(self, k))
        invariant forall i: nat | 1 <= i < k :: !IsReady(ctxs[..], Cand(self, i))
        decreases 16 - k, pid
      {
        if ctxs[pid].state == Ready {
          PickIs(ctxs[..], self, k);
          return pid;
        }
        CandStep(self, k);
        pid := pid + 1;
        k := k + 1;
        if pid == self + 1 {
          pid := 0;
        }
        if pid == MAX_PROCESSES {
          pid := 1;
          if self == 0 {
            break;
          }
        }
      }
      PickIs(ctxs[..], self, k);
      r := 0;
    }

    /** `schedule`. */
    method Schedule(r: nat)
      requires r < ctxs.Length
      modifies this`current, this`frame, ctxs
      ensures Value() == SwitchTo(old(ctxs[..]), r)
      ensures current == r && frame == old(ctxs[r].regs)
      ensures ctxs[..] == old(ctxs[..])[r := old(ctxs[r]).(state := Running)]
    {
      frame := ctxs[r].regs;
      current := r;
      ctxs[r] := ctxs[r].(state := Running);
    }

    /** `invoke_sync_signal`: a handler is entered; without one SIGALRM is ignored and
        the other signals end the process (`exits`: `do_exit` is called). `push` is the
        return address that goes on the user stack, below the interrupted rsp. */
    method InvokeSyncSignal(signo: nat) returns (exits: bool, push: Push)
      requires signo < MAX_SIGNALS && current < ctxs.Length && |ctxs[current].handlers| == MAX_SIGNALS
      modifies this`frame
      ensures frame == Delivered(old(frame), ctxs[current].handlers[signo])
      ensures push == ReturnPush(old(frame), ctxs[current].handlers[signo])
      ensures exits <==> ctxs[current].handlers[signo] == 0 && signo != SIGALRM
      ensures push.Push? <==> ctxs[current].handlers[signo] != 0
      ensures push.NoPush? ==> frame == old(frame)
      ensures push.Push? ==> push.address == frame.rsp == (old(frame.rsp) + U64 - 8) % U64
      ensures push.Push? ==> push.value == old(frame.rip) % U64 && frame.rip == ctxs[current].handlers[signo]
      ensures frame == old(frame).(rip := frame.rip, rsp := frame.rsp)
    {
      var handler := ctxs[current].handlers[signo];
      exits, push := false, NoPush;
      if handler == 0 && signo != SIGALRM {
        exits := true;
      } else if handler != 0 {
        push := Push((frame.rsp + U64 - 8) % U64, frame.rip % U64);
        frame := frame.(rsp := (frame.rsp + U64 - 8) % U64);
        frame := frame.(rip := handler);
      }
    }

    /** `do_sleep_and_alarm_account`; `fired` says whether SIGALRM was invoked. */
    method SleepAndAlarmAccount() returns (fired: bool, push: Push)
      requires Sized(Value())
      modifies this`frame, ctxs
      ensures ctxs[..] == Accounted(old(Value())) && frame == TickFrame(old(Value())) && push == TickPush(old(Value()))
      ensures fired == AlarmFires(Woken(old(ctxs[..])[current]))
      ensures fired <==> old(ctxs[current].ticksToAlarm) == 1
      ensures push.Push? <==> fired && old(ctxs[current].handlers)[SIGALRM] != 0
      ensures push.Push? ==> push.address == frame.rsp == (old(frame.rsp) + U64 - 8) % U64
      ensures push.Push? ==> push.value == old(frame.rip) % U64 && frame.rip == old(ctxs[current].handlers)[SIGALRM]
    {
      var ctr := 0;
      while ctr < MAX_PROCESSES
        invariant ctr <= MAX_PROCESSES && frame == old(frame) && ctxs[..] == WokenUpTo(old(ctxs[..]), ctr)
      {
        if ctxs[ctr].state == Waiting && ctxs[ctr].ticksToSleep > 0 {
          ctxs[ctr] := ctxs[ctr].(ticksToSleep := ctxs[ctr].ticksToSleep - 1);
          if ctxs[ctr].ticksToSleep == 0 {
            ctxs[ctr] := ctxs[ctr].(state := Ready);
          }
        }
        ctr := ctr + 1;
      }
      fired, push := false, NoPush;
      assert ctxs[..][current] == Woken(old(ctxs[..])[current]);
      if ctxs[current].ticksToAlarm > 0 {
        ctxs[current] := ctxs[current].(ticksToAlarm := ctxs[current].ticksToAlarm - 1);
        if ctxs[current].ticksToAlarm == 0 {
          var exits;
          exits, push := InvokeSyncSignal(SIGALRM);
          fired := true;
          ctxs[current] := ctxs[current].(ticksToAlarm := ctxs[current].alarmConfigTime);
        }
      }
    }

    /** `handle_timer_tick`. */
    method HandleTimerTick() returns (fired: bool, push: Push)
      requires Sized(Value())
      modifies this, ctxs
      ensures Value() == Tick(old(Value())) && push == TickPush(old(Value()))
      ensures fired == AlarmFires(Woken(old(ctxs[..])[old(current)]))
      ensures fired <==> old(ctxs[current].ticksToAlarm) == 1
      ensures push.Push? <==> fired && old(ctxs[current].handlers)[SIGALRM] != 0
      ensures push.Push? ==> push.value == old(frame.rip) % U64
      ensures push.Push? ==> push.address == (old(frame.rsp) + U64 - 8) % U64
      ensures var after := if current == old(current) then frame else ctxs[..][old(current)].regs;
        push.Push? ==> after.rsp == push.address && after.rip == old(ctxs[current].handlers)[SIGALRM]
    {
      hide Pick;
      fired, push := SleepAndAlarmAccount();
      ctxs[current] := ctxs[current].(state := Ready);
      assert ctxs[..] == TickTable(old(Value()));
      var next := PickNextContext(current);
      if next == current {
        return;
      }
      ctxs[current] := ctxs[current].(regs := frame);
      frame := ctxs[next].regs;
      current := next;
      ctxs[next] := ctxs[next].(state := Running);
    }

    /** `do_sleep`, with the register save of the system call entry. */
    method DoSleep(ticks: nat)
      requires Sized(Value())
      modifies this, ctxs
      ensures Value() == Leave(old(Value()), Sleeper(old(Value()), ticks))
      ensures current != old(current) ==>
        ctxs[..][old(current)] == old(ctxs[current]).(regs := old(frame), ticksToSleep := ticks % U32, state := Waiting)
    {
      hide Pick;
      ctxs[current] := ctxs[current].(regs := frame);
      ctxs[current] := ctxs[current].(ticksToSleep := ticks % U32);
      ctxs[current] := ctxs[current].(state := Waiting);
      assert ctxs[..] == old(ctxs[..])[current := Sleeper(old(Value()), ticks)];
      var next := PickNextContext(current);
      Schedule(next);
    }

    /** `do_exit` from the change of state on, when another process is left. */
    method ExitAway()
      requires Sized(Value())
      modifies this, ctxs
      ensures Value() == Leave(old(Value()), Saved(old(Value())).(state := Unused))
    {
      hide Pick;
      ctxs[current] := ctxs[current].(regs := frame);
      ctxs[current] := ctxs[current].(state := Unused);
      assert ctxs[..] == old(ctxs[..])[current := Saved(old(Value())).(state := Unused)];
      var next := PickNextContext(current);
      Schedule(next);
    }

    /** `do_alarm`. */
    method DoAlarm(ticks: nat) returns (r: int)
      requires Sized(Value())
      modifies ctxs
      ensures Value() == old(Value()).(ctxs := old(ctxs[..])[current := Armed(Saved(old(Value())), ticks)])
      ensures r == if ticks % U32 > 0 then 0 else -1
      ensures current == old(current) && frame == old(frame)
      ensures r == 0 ==> ctxs[..] == old(ctxs[..])[current :=
        old(ctxs[current]).(regs := frame, alarmConfigTime := ticks % U32, ticksToAlarm := ticks % U32)]
      ensures r == -1 ==> ctxs[..] == old(ctxs[..])[current := old(ctxs[current]).(regs := frame)]
    {
      ctxs[current] := ctxs[current].(regs := frame);
      r := -1;
      if ticks % U32 > 0 {
        ctxs[current] := ctxs[current].(alarmConfigTime := ticks % U32);
        ctxs[current] := ctxs[current].(ticksToAlarm := ticks % U32);
        r := 0;
      }
      assert ctxs[..] == old(ctxs[..])[current := Armed(Saved(old(Value())), ticks)];
    }

    /** `do_signal`. */
    method DoSignal(signo: int, handler: nat) returns (r: int)
      requires Sized(Value())
      modifies ctxs
      ensures Value() == old(Value()).(ctxs := old(ctxs[..])[current := Handling(Saved(old(Value())), signo, handler)])
      ensures r == if 0 <= signo < MAX_SIGNALS then 0 else -1
      ensures current == old(current) && frame == old(frame)
      ensures var hs := ctxs[..][current].handlers;
        && |hs| == MAX_SIGNALS
        && forall k: nat | k < MAX_SIGNALS :: hs[k] == if k == signo then handler else old(ctxs[current].handlers)[k]
      ensures ctxs[..] == old(ctxs[..])[current :=
        old(ctxs[current]).(regs := frame, handlers := ctxs[..][current].handlers)]
    {
      ctxs[current] := ctxs[current].(regs := frame);
      r := -1;
      if signo < MAX_SIGNALS && signo > -1 {
        ctxs[current] := ctxs[current].(handlers := ctxs[current].handlers[signo := handler]);
        r := 0;
      }
      assert ctxs[..] == old(ctxs[..])[current := Handling(Saved(old(Value())), signo, handler)];
    }

    /** `do_clone`, given the OS stack frame for the new context. */
    method DoClone(entry: nat, userStack: nat, osStack: nat) returns (slot: nat)
      requires Sized(Value()) && FirstUnused(ctxs[..]) < MAX_PROCESSES && FirstUnused(ctxs[..]) != current
      modifies ctxs
      ensures slot == FirstUnused(old(ctxs[..]))
      ensures Value() == old(Value()).(ctxs := old(ctxs[..])[current := Saved(old(Value()))]
        [slot := CloneChild(old(ctxs[..])[slot], Saved(old(Value())), slot, entry, userStack, osStack)])
      ensures var x, y := old(ctxs[current]), ctxs[..][slot];
        && y.pid == slot && y.state == Ready && y.pgd == x.pgd && y.segs == x.segs && y.osStackPfn == osStack
        && y.ppid == old(ctxs[..])[slot].ppid && y.handlers == x.handlers
        && y.ticksToSleep == x.ticksToSleep
        && y.alarmConfigTime == x.alarmConfigTime && y.ticksToAlarm == x.ticksToAlarm
      ensures var r := ctxs[..][slot].regs;
        && r.rip == entry && r.rsp == userStack && r.cs == frame.cs && r.rflags == frame.rflags && r.ss == frame.ss
        && |r.general| == 15
        && forall k: nat | k < 15 :: r.general[k] == if k == 8 then userStack else frame.general[k]
    {
      ctxs[current] := ctxs[current].(regs := frame);
      FirstUnusedKept(old(ctxs[..]), current, ctxs[current]);
      assert ctxs[..] == old(ctxs[..])[current := ctxs[current]];
      slot := GetNewCtx(ctxs);
      var x := ctxs[current];
      var y := ctxs[slot].(state := Ready, pgd := x.pgd);
      y := y.(osStackPfn := osStack, segs := x.segs, regs := x.regs);
      y := y.(regs := y.regs.(rip := entry, rsp := userStack));
      y := y.(regs := y.regs.(general := y.regs.general[RBP := y.regs.rsp]));
      y := y.(ticksToAlarm := x.ticksToAlarm, ticksToSleep := x.ticksToSleep);
      ctxs[slot] := y.(alarmConfigTime := x.alarmConfigTime, handlers := x.handlers);
    }
  }

  lemma PickIs(ctxs: seq<ExecContext>, p: nat, j: nat)
    requires 1 <= j <= 16 && forall i: nat | 1 <= i < j :: !IsReady(ctxs, Cand(p, i))
    requires j < 16 ==> IsReady(ctxs, Cand(p, j))
    ensures Pick(ctxs, p) == if j == 16 then 0 else Cand(p, j)
  {
    FirstReadyIs(ctxs, p, 1, j);
  }

  lemma FirstUnusedKept(ctxs: seq<ExecContext>, i: nat, x: ExecContext)
    requires i < |ctxs| && x.state == ctxs[i].state
    ensures FirstUnused(ctxs[i := x]) == FirstUnused(ctxs)
  {
    var s := FirstUnused(ctxs);
    FirstUnusedIs(ctxs[i := x], s);
  }
}
