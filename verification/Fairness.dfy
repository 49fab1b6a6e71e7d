/** How long a context waits, sleeps, and between alarms, in every run. */
module Fairness {
  import opened Context
  import opened Integers
  import opened Scheduler
  import opened SchedulerRuns

  /** The event's effect, whenever the event can happen in a state that satisfies the
      invariant. */
  ghost predicate Follows(t: Table, e: Event, u: Table) {
    Enabled(t, e) && (SchedOk(t) ==> u == Step(t, e))
  }

  /** A run from an invariant state: the states, and the events between them. */
  ghost predicate IsRun(states: seq<Table>, events: seq<Event>) {
    && |states| == |events| + 1 && SchedOk(states[0])
    && forall n: nat | n < |events| :: Follows(states[n], events[n], states[n + 1])
  }

  /** The scheduler's invariant at every point of every run. */
  lemma {:induction false} RunKeeps(states: seq<Table>, events: seq<Event>, n: nat)
    requires IsRun(states, events) && n < |states|
    ensures SchedOk(states[n])
  {
    hide SchedOk, Step, Enabled;
    if n > 0 {
      RunKeeps(states, events, n - 1);
      assert Follows(states[n - 1], events[n - 1], states[n - 1 + 1]);
      StepKeeps(states[n - 1], events[n - 1]);
    }
  }

  lemma RunStep(states: seq<Table>, events: seq<Event>, n: nat)
    requires IsRun(states, events) && n < |events|
    ensures SchedOk(states[n]) && Enabled(states[n], events[n]) && states[n + 1] == Step(states[n], events[n])
  {
    hide SchedOk, Step, Enabled;
    RunKeeps(states, events, n);
    assert Follows(states[n], events[n], states[n + 1]);
  }

  /** Ticks, sleeps and exits end with a pick. */
  predicate Picking(e: Event) {
    e.TimerTick? || e.Sleep? || e.Exit?
  }

  /** How many of events[a..b] pick. */
  function Picks(events: seq<Event>, a: nat, b: nat): nat
    requires a <= b <= |events|
    decreases b
  {
    if a == b then 0 else Picks(events, a, b - 1) + if Picking(events[b - 1]) then 1 else 0
  }

  function Ticks(events: seq<Event>, a: nat, b: nat): nat
    requires a <= b <= |events|
    decreases b
  {
    if a == b then 0 else Ticks(events, a, b - 1) + if events[b - 1].TimerTick? then 1 else 0
  }

  // ---- Bounded waiting --------------------------------------------------

  /** READY and waiting for the processor. */
  predicate InLine(t: Table, p: nat) {
    1 <= p < |t.ctxs| && p != t.current && t.ctxs[p].state == Ready
  }

  /** A context in line stays in line until it is chosen, whatever happens; a pick
      that passes it over brings the scan strictly closer. */
  lemma StaysInLine(t: Table, e: Event, p: nat)
    requires SchedOk(t) && Enabled(t, e) && InLine(t, p)
    ensures var u := Step(t, e);
      u.current == p || (InLine(u, p) && u.current < MAX_PROCESSES
        && Dist(u.current, p) + (if Picking(e) then 1 else 0) <= Dist(t.current, p))
  {
    hide Tick, Leave, Dist, SlotOk;
    CurrentPid(t);
    match e
    case TimerTick => PassedByTick(t, p);
    case Sleep(ticks) => PassedByLeave(t, Sleeper(t, ticks), p);
    case Exit => PassedByLeave(t, Saved(t).(state := Unused), p);
    case Fork(_, _) => NewSlot(t);
    case Clone(_, _, _) => NewSlot(t);
    case _ =>
  }

  lemma PassedByTick(t: Table, p: nat)
    requires SchedOk(t) && InLine(t, p)
    ensures var u := Tick(t);
      u.current == p || (InLine(u, p) && u.current < MAX_PROCESSES && Dist(u.current, p) < Dist(t.current, p))
  {
    hide Dist, Pick, TickFrame;
    CurrentPid(t);
    TickSlot(t, p);
    TickSlot(t, t.current);
    var b := TickTable(t);
    hide TickTable;
    PassedOver(b, t.current, p);
    PickCharacterised(b, t.current);
  }

  lemma PassedByLeave(t: Table, x: ExecContext, p: nat)
    requires SchedOk(t) && InLine(t, p) && x.pid == t.current
    ensures var u := Leave(t, x);
      u.current == p || (InLine(u, p) && u.current < MAX_PROCESSES && Dist(u.current, p) < Dist(t.current, p))
  {
    hide Dist, Pick;
    var b := t.ctxs[t.current := x];
    PassedOver(b, t.current, p);
    PickCharacterised(b, t.current);
  }

  /** As long as p has not been chosen, each pick has used up some of its distance. */
  lemma {:induction false} Passed(states: seq<Table>, events: seq<Event>, p: nat, a: nat, b: nat)
    requires IsRun(states, events) && a <= b < |states| && InLine(states[a], p)
    requires forall n: nat | a < n <= b :: states[n].current != p
    ensures InLine(states[b], p)
    ensures Picks(events, a, b) + Dist(states[b].current, p) <= Dist(states[a].current, p)
    decreases b
  {
    hide SchedOk, Step, Enabled, Follows, Dist, InLine;
    if a < b {
      Passed(states, events, p, a, b - 1);
      RunStep(states, events, b - 1);
      StaysInLine(states[b - 1], events[b - 1], p);
    }
  }

  /** Bounded waiting: a READY context is running after at most as many picks as its
      cyclic distance from the current slot, so within 15, whoever is current (the
      swapper included) and whatever the others do. */
  lemma BoundedWaiting(states: seq<Table>, events: seq<Event>, p: nat, a: nat, b: nat)
    requires IsRun(states, events) && a <= b < |states| && InLine(states[a], p)
    requires Picks(events, a, b) >= Dist(states[a].current, p)
    ensures Dist(states[a].current, p) <= 15
    ensures exists n: nat :: a < n <= b && states[n].current == p
  {
    if forall n: nat | a < n <= b :: states[n].current != p {
      Passed(states, events, p, a, b);
    }
  }

  // ---- Sleep ------------------------------------------------------------

  predicate Asleep(t: Table, p: nat, ticks: nat) {
    p < |t.ctxs| && p != t.current && t.ctxs[p].state == Waiting && t.ctxs[p].ticksToSleep == ticks
  }

  /** `sleep(n)`, with n truncated to 32 bits, puts the caller to sleep for that long. */
  lemma FallsAsleep(t: Table, ticks: nat)
    requires SchedOk(t) && Enabled(t, Sleep(ticks))
    ensures Asleep(Step(t, Sleep(ticks)), t.current, ticks % U32)
  {
    hide Pick, SlotOk;
    CurrentPid(t);
    PickCharacterised(t.ctxs[t.current := Sleeper(t, ticks)], t.current);
  }

  /** One event of a sleep: only ticks count, and the last one ends it. */
  lemma SleepStep(t: Table, e: Event, p: nat, ticks: nat)
    requires SchedOk(t) && Enabled(t, e) && Asleep(t, p, ticks)
    ensures var u := Step(t, e);
      if !e.TimerTick? || ticks == 0 then Asleep(u, p, ticks)
      else if ticks > 1 then Asleep(u, p, ticks - 1)
      else u.current == p || (InLine(u, p) && Dist(u.current, p) <= 14)
  {
    hide Tick, Leave, Dist, SlotOk, InLine;
    CurrentPid(t);
    match e
    case TimerTick => SleepTick(t, p, ticks);
    case Sleep(n) => SleepLeave(t, Sleeper(t, n), p, ticks);
    case Exit => SleepLeave(t, Saved(t).(state := Unused), p, ticks);
    case Fork(_, _) => NewSlot(t);
    case Clone(_, _, _) => NewSlot(t);
    case _ =>
  }

  lemma SleepTick(t: Table, p: nat, ticks: nat)
    requires SchedOk(t) && Asleep(t, p, ticks)
    ensures var u := Tick(t);
      if ticks == 0 then Asleep(u, p, 0)
      else if ticks > 1 then Asleep(u, p, ticks - 1)
      else u.current == p || (InLine(u, p) && Dist(u.current, p) <= 14)
  {
    hide Dist, Pick, TickFrame;
    CurrentPid(t);
    TickSlot(t, p);
    TickSlot(t, t.current);
    var b := TickTable(t);
    hide TickTable;
    PickCharacterised(b, t.current);
    if ticks == 1 {
      assert p != 0;
      PassedOver(b, t.current, p);
    }
  }

  lemma SleepLeave(t: Table, x: ExecContext, p: nat, ticks: nat)
    requires SchedOk(t) && Asleep(t, p, ticks) && x.pid == t.current
    ensures Asleep(Leave(t, x), p, ticks)
  {
    hide Pick;
    PickCharacterised(t.ctxs[t.current := x], t.current);
  }

  /** Exact sleep: after fewer than n ticks the context is still WAITING, with exactly
      the rest to go, whatever the other contexts do. */
  lemma {:induction false} SleepsOn(states: seq<Table>, events: seq<Event>, p: nat, n: nat, a: nat, b: nat)
    requires IsRun(states, events) && a <= b < |states| && Asleep(states[a], p, n) && Ticks(events, a, b) < n
    ensures Asleep(states[b], p, n - Ticks(events, a, b))
    decreases b
  {
    hide SchedOk, Step, Enabled, Follows, Dist, InLine, Asleep;
    if a < b {
      SleepsOn(states, events, p, n, a, b - 1);
      RunStep(states, events, b - 1);
      SleepStep(states[b - 1], events[b - 1], p, n - Ticks(events, a, b - 1));
    }
  }

  /** At the nth tick it is READY again, or has been chosen in that very tick. */
  lemma Wakes(states: seq<Table>, events: seq<Event>, p: nat, n: nat, a: nat, b: nat)
    requires IsRun(states, events) && a <= b < |events| && Asleep(states[a], p, n)
    requires events[b].TimerTick? && Ticks(events, a, b) == n - 1
    ensures states[b + 1].current == p || (InLine(states[b + 1], p) && Dist(states[b + 1].current, p) <= 14)
  {
    hide SchedOk, Step, Enabled, Follows, Dist, InLine, Asleep;
    SleepsOn(states, events, p, n, a, b);
    RunStep(states, events, b);
    SleepStep(states[b], events[b], p, 1);
  }

  lemma TicksSplit(events: seq<Event>, a: nat, b: nat, c: nat)
    requires a <= b <= c <= |events|
    ensures Ticks(events, a, c) == Ticks(events, a, b) + Ticks(events, b, c)
    decreases c
  {
    if b < c {
      TicksSplit(events, a, b, c - 1);
    }
  }

  lemma TicksArePicks(events: seq<Event>, a: nat, b: nat)
    requires a <= b <= |events|
    ensures Ticks(events, a, b) <= Picks(events, a, b)
    decreases b
  {
  }

  /** The nth tick after a. */
  lemma {:induction false} NthTick(events: seq<Event>, a: nat, b: nat, n: nat) returns (k: nat)
    requires a <= b <= |events| && 1 <= n <= Ticks(events, a, b)
    ensures a <= k < b && events[k].TimerTick? && Ticks(events, a, k) == n - 1
    decreases b
  {
    if Ticks(events, a, b - 1) >= n {
      k := NthTick(events, a, b - 1, n);
    } else {
      k := b - 1;
    }
  }

  /** Response bound: a context that slept n ticks runs again within n + 14 ticks. */
  lemma SleepResponse(states: seq<Table>, events: seq<Event>, p: nat, n: nat, a: nat, b: nat)
    requires IsRun(states, events) && a <= b < |states| && Asleep(states[a], p, n) && n >= 1
    requires Ticks(events, a, b) >= n + 14
    ensures exists m: nat :: a < m <= b && states[m].current == p
  {
    hide SchedOk, Step, Enabled, Follows, Dist, InLine, Asleep, IsRun, Ticks, Picks;
    RunLengths(states, events);
    var k := NthTick(events, a, b, n);
    Wakes(states, events, p, n, a, k);
    if states[k + 1].current != p {
      TicksSplit(events, a, k, b);
      TicksSplit(events, k, k + 1, b);
      OneTick(events, k);
      TicksArePicks(events, k + 1, b);
      BoundedWaiting(states, events, p, k + 1, b);
    }
  }

  lemma RunLengths(states: seq<Table>, events: seq<Event>)
    requires IsRun(states, events)
    ensures |states| == |events| + 1
  {
  }

  lemma OneTick(events: seq<Event>, k: nat)
    requires k < |events| && events[k].TimerTick?
    ensures Ticks(events, k, k + 1) == 1
  {
    assert Ticks(events, k, k) == 0;
  }

  /** `sleep(0)` never wakes: no run ever gets the context out of WAITING. */
  lemma {:induction false} SleepZero(states: seq<Table>, events: seq<Event>, p: nat, a: nat, b: nat)
    requires IsRun(states, events) && a <= b < |states| && Asleep(states[a], p, 0)
    ensures Asleep(states[b], p, 0)
    decreases b
  {
    hide SchedOk, Step, Enabled, Follows, Dist, InLine, Asleep;
    if a < b {
      SleepZero(states, events, p, a, b - 1);
      RunStep(states, events, b - 1);
      SleepStep(states[b - 1], events[b - 1], p, 0);
    }
  }

  // ---- Alarm ------------------------------------------------------------

  /** Ticks of events[a..b] that found p current. */
  function ActiveTicks(states: seq<Table>, events: seq<Event>, p: nat, a: nat, b: nat): nat
    requires a <= b <= |events| < |states|
    decreases b
  {
    if a == b then 0
    else
      ActiveTicks(states, events, p, a, b - 1) +
      if events[b - 1].TimerTick? && states[b - 1].current == p then 1 else 0
  }

  /** This tick invokes SIGALRM in p. */
  predicate Fires(t: Table, e: Event, p: nat) {
    e.TimerTick? && t.current == p && p < |t.ctxs| && AlarmFires(Woken(t.ctxs[p]))
  }

  /** SIGALRMs invoked in p during events[a..b]. */
  function Fired(states: seq<Table>, events: seq<Event>, p: nat, a: nat, b: nat): nat
    requires a <= b <= |events| < |states|
    decreases b
  {
    if a == b then 0
    else Fired(states, events, p, a, b - 1) + if Fires(states[b - 1], events[b - 1], p) then 1 else 0
  }

  /** p neither sets its alarm again nor exits. */
  ghost predicate NotRearmed(states: seq<Table>, events: seq<Event>, p: nat, a: nat, b: nat)
    requires a <= b <= |events| < |states|
  {
    forall n: nat | a <= n < b && states[n].current == p :: !events[n].Alarm? && !events[n].Exit?
  }

  predicate Counting(t: Table, p: nat, config: nat, left: nat) {
    p < |t.ctxs| && t.ctxs[p].state != Unused && t.ctxs[p].alarmConfigTime == config && t.ctxs[p].ticksToAlarm == left
  }

  /** `alarm(k)`, k truncated to 32 bits and not 0, starts the count at k. */
  lemma AlarmStarts(t: Table, ticks: nat)
    requires SchedOk(t) && Enabled(t, Alarm(ticks)) && ticks % U32 > 0
    ensures Counting(Step(t, Alarm(ticks)), t.current, ticks % U32, ticks % U32)
  {
  }

  /** One event of an alarm's countdown: only a tick that finds p current counts. */
  lemma AlarmStep(t: Table, e: Event, p: nat, k: nat, left: nat)
    requires SchedOk(t) && Enabled(t, e) && Counting(t, p, k, left) && 1 <= left <= k
    requires t.current == p ==> !e.Alarm? && !e.Exit?
    ensures Counting(Step(t, e), p, k,
      if e.TimerTick? && t.current == p then if left == 1 then k else left - 1 else left)
    ensures Fires(t, e, p) <==> e.TimerTick? && t.current == p && left == 1
  {
    hide Tick, Leave, SlotOk;
    CurrentPid(t);
    match e
    case TimerTick => AlarmTick(t, p, k, left);
    case Sleep(n) => AlarmLeave(t, Sleeper(t, n), p, k, left);
    case Exit => AlarmLeave(t, Saved(t).(state := Unused), p, k, left);
    case Fork(_, _) => NewSlot(t);
    case Clone(_, _, _) => NewSlot(t);
    case _ =>
  }

  lemma AlarmTick(t: Table, p: nat, k: nat, left: nat)
    requires SchedOk(t) && Counting(t, p, k, left) && 1 <= left <= k
    ensures Counting(Tick(t), p, k, if t.current == p then if left == 1 then k else left - 1 else left)
    ensures t.current == p ==> (AlarmFires(Woken(t.ctxs[p])) <==> left == 1)
  {
    hide Pick, TickFrame;
    CurrentPid(t);
    TickSlot(t, p);
    PickCharacterised(TickTable(t), t.current);
  }

  lemma AlarmLeave(t: Table, x: ExecContext, p: nat, k: nat, left: nat)
    requires SchedOk(t) && Counting(t, p, k, left) && x.pid == t.current
    requires p == t.current ==> x.state != Unused && x.alarmConfigTime == k && x.ticksToAlarm == left
    ensures Counting(Leave(t, x), p, k, left)
  {
    hide Pick;
    PickCharacterised(t.ctxs[t.current := x], t.current);
  }

  lemma OneMore(m: nat, k: nat)
    requires k >= 1
    ensures (m + 1) % k == 0 <==> m % k == k - 1
    ensures m % k == k - 1 ==> (m + 1) / k == m / k + 1
    ensures m % k != k - 1 ==> (m + 1) / k == m / k && (m + 1) % k == m % k + 1
  {
    var q, r := m / k, m % k;
    assert m == q * k + r;
    if r == k - 1 {
      assert m + 1 == (q + 1) * k;
      QuotientIs(m + 1, k, q + 1, 0);
    } else {
      QuotientIs(m + 1, k, q, r + 1);
    }
  }

  /** Alarm periodicity: m ticks under p invoke exactly m / k alarms and leave
      k - m mod k to go; ticks under others count for nothing. */
  lemma {:induction false} AlarmPeriodic(states: seq<Table>, events: seq<Event>, p: nat, k: nat, a: nat, b: nat)
    requires IsRun(states, events) && a <= b < |states| && k >= 1
    requires Counting(states[a], p, k, k) && NotRearmed(states, events, p, a, b)
    ensures var m := ActiveTicks(states, events, p, a, b);
      Fired(states, events, p, a, b) == m / k && Counting(states[b], p, k, k - m % k)
    decreases b
  {
    hide SchedOk, Step, Enabled, Follows, Counting, Fires;
    if a < b {
      AlarmPeriodic(states, events, p, k, a, b - 1);
      var m := ActiveTicks(states, events, p, a, b - 1);
      RunStep(states, events, b - 1);
      AlarmStep(states[b - 1], events[b - 1], p, k, k - m % k);
      OneMore(m, k);
    }
  }
}
