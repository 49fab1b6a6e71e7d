/** The code of both sides working on one process table: each call is an act of
    WholeKernel, so its invariants hold after every sequence of calls. */
module KernelRun {
  import opened PageTable
  import opened Physical
  import opened Install
  import opened KernelMap
  import opened Segments
  import opened Context
  import opened Fork
  import opened CopyLoops
  import opened CopyWhole
  import opened Shrink
  import opened Isolation
  import opened Kernel
  import opened KernelSteps
  import opened Syscalls
  import opened ChildView
  import opened Deposit
  import opened LastExit
  import opened WholeKernel
  import opened Undisturbed
  import opened Returns
  import Coexist
  import S = Scheduler
  import W = Walk
  import R = SchedulerRuns
  import PL = PageList

  class Computer {
    const sys: System
    const cpu: S.Processor

    constructor (system: System, processor: S.Processor)
      requires system.ctxs == processor.ctxs && system.Valid()
      requires {system, processor, system.ctxs} !! system.m.Objs()
      requires R.SchedOk(processor.Value())
      ensures sys == system && cpu == processor && Valid()
    {
      sys := system;
      cpu := processor;
    }

    ghost function Objs(): set<object> {
      {sys, cpu, sys.ctxs} + sys.m.Objs()
    }

    ghost function Value(): World
      reads Objs(), cpu.ctxs
    {
      World(sys.m.Value(), cpu.Value(), sys.spaces)
    }

    ghost function Tree(): Space
      reads sys, cpu
    {
      if cpu.current in sys.spaces then sys.spaces[cpu.current] else Space(0, map[], map[])
    }

    ghost predicate Valid()
      reads Objs(), cpu.ctxs
    {
      && sys.ctxs == cpu.ctxs && {sys, cpu, sys.ctxs} !! sys.m.Objs()
      && sys.m.Valid() && WorldOk(Value(), sys.config)
    }

    /** The store of a signal's return address, with the kernel's rights under the tree
        that is loaded. */
    method PushWord(root: nat, push: S.Push) returns (faulted: bool)
      requires sys.m.Valid()
      modifies sys.m`mem
      ensures sys.m.Valid() && MemOk(old(sys.m.mem))
      ensures var d := if push.NoPush? then Writes([])
                       else StoreAt(old(sys.m.mem), root, push.address, push.value, W.Kernel);
        && (faulted <==> d.Refused?)
        && sys.m.Value() == if faulted then old(sys.m.Value())
                            else old(sys.m.Value()).(mem := Apply(old(sys.m.mem), d.ws))
    {
      hide PhysOk, StoreAt;
      PhysMem(sys.m.Value());
      faulted := false;
      if push.Push? {
        faulted := KernelStore(sys.m, root, push.address, push.value);
      }
    }

    /** A timer interrupt. The word an alarm pushes is stored first: nothing that the
        accounting changes is read for it. When that store faults in the kernel the fault
        is handled before the tick takes effect (`FaultThenTick`). */
    method TimerTick() returns (faulted: bool)
      requires Valid()
      modifies cpu, cpu.ctxs, sys.m`mem
      ensures faulted <==> PushWrites(old(Value()), Schedule(R.TimerTick), W.Kernel).Refused?
      ensures faulted ==> Value() == old(Value())
      ensures !faulted ==> WorldStep(old(Value()), Value(), Schedule(R.TimerTick), sys.config)
      ensures Valid() <==>
        PushSpares(old(Value()), Schedule(R.TimerTick), LiveTableFrames(old(Value())))
      ensures OwnPush(old(Value()), Schedule(R.TimerTick)) ==> !faulted && Valid()
      ensures !faulted && Handler(old(Value()), Schedule(R.TimerTick)) != 0 ==>
        HandlerEntered(old(Value()), Value(), Handler(old(Value()), Schedule(R.TimerTick)))
      ensures OwnPush(old(Value()), Schedule(R.TimerTick)) && Handler(old(Value()), Schedule(R.TimerTick)) != 0 ==>
        ReadsReturn(old(Value()), Value())
    {
      hide KernelOk, PhysOk, R.SchedOk, S.Tick, S.TickPush, StoreAt, PL.PageList.Value, LiveTableFrames, Spares, Apply;
      hide HandlerEntered, ReadsReturn, Handler;
      ghost var a := Value();
      SchedSized(a.t);
      var push := S.TickPush(cpu.Value());
      TickPushes(a, sys.config);
      faulted := PushWord(cpu.ctxs[cpu.current].pgd, push);
      if !faulted {
        var fired, pushed := cpu.HandleTimerTick();
        TickMade(a, Value(), sys.config);
        HandlerReturns(a, Value(), Schedule(R.TimerTick), sys.config);
      }
    }

    /** The running process changes its own registers. */
    method Compute(frame: Regs)
      requires Valid() && |frame.general| == 15
      modifies cpu`frame
      ensures Valid() && WorldStep(old(Value()), Value(), Schedule(R.Compute(frame)), sys.config)
    {
      hide KernelOk, PhysOk, R.SchedOk;
      ghost var a := Value();
      cpu.frame := frame;
      QuietStep(a, Value(), R.Compute(frame), sys.config);
    }

    /** The running process stores a word: where the processor's translation puts it, or
        not at all when that faults. */
    method Store(l: Node, k: nat, value: nat) returns (faulted: bool)
      requires Valid() && cpu.current != 0 && l.Leaf? && InRange(l) && k < ENTRIES
      modifies sys`current, sys.m`mem
      ensures Valid() && (faulted ==> Value() == old(Value()))
      ensures !faulted ==> WorldStep(old(Value()), Value(), WholeKernel.Store(l, k, value), sys.config)
    {
      hide WorldOk, KernelOk, PhysOk, StoreStep, W.Translate, InRange, PageTable.Store;
      Point();
      ghost var a := Value();
      WorldSegs(a, sys.config);
      var to := W.Translate(sys.m.mem, cpu.ctxs[cpu.current].pgd, l, W.UserWrite);
      faulted := to.Fault?;
      if !faulted {
        WorldTarget(a, l, k, value, sys.config);
        sys.m.StoreWord(to.pfn, k, value);
        StoreKeeps(a, Value(), l, k, value, sys.config);
      }
    }

    /** `sleep`. */
    method Sleep(ticks: nat)
      requires Valid() && cpu.current != 0
      modifies cpu, cpu.ctxs
      ensures Valid() && WorldStep(old(Value()), Value(), Schedule(R.Sleep(ticks)), sys.config)
    {
      hide KernelOk, PhysOk, R.SchedOk, S.Leave;
      ghost var a := Value();
      SchedSized(a.t);
      cpu.DoSleep(ticks);
      QuietStep(a, Value(), R.Sleep(ticks), sys.config);
    }

    /** `alarm`. */
    method Alarm(ticks: nat) returns (r: int)
      requires Valid() && cpu.current != 0
      modifies cpu.ctxs
      ensures Valid() && WorldStep(old(Value()), Value(), Schedule(R.Alarm(ticks)), sys.config)
    {
      hide KernelOk, PhysOk, R.SchedOk;
      ghost var a := Value();
      SchedSized(a.t);
      r := cpu.DoAlarm(ticks);
      QuietStep(a, Value(), R.Alarm(ticks), sys.config);
    }

    /** `signal`. */
    method Signal(signo: int, handler: nat) returns (r: int)
      requires Valid() && cpu.current != 0
      modifies cpu.ctxs
      ensures Valid() && WorldStep(old(Value()), Value(), Schedule(R.Signal(signo, handler)), sys.config)
    {
      hide KernelOk, PhysOk, R.SchedOk;
      ghost var a := Value();
      SchedSized(a.t);
      r := cpu.DoSignal(signo, handler);
      QuietStep(a, Value(), R.Signal(signo, handler), sys.config);
    }

    /** The register save at the entry of every system call. */
    method Enter()
      requires Valid()
      modifies cpu.ctxs
      ensures Valid() && WorldStep(old(Value()), Value(), Save, sys.config)
      ensures cpu.ctxs[..] == old(cpu.ctxs[..])[cpu.current := S.Saved(old(cpu.Value()))]
    {
      hide KernelOk, PhysOk, R.SchedOk;
      ghost var a := Value();
      SchedSized(a.t);
      cpu.ctxs[cpu.current] := cpu.ctxs[cpu.current].(regs := cpu.frame);
      assert cpu.ctxs[..] == a.t.ctxs[a.t.current := S.Saved(a.t)];
      SaveKeeps(a, Value(), sys.config);
    }

    /** The memory side works for the process that is running. */
    method Point()
      requires Valid() && cpu.current != 0
      modifies sys`current
      ensures Valid() && Value() == old(Value()) && sys.Valid() && sys.current == cpu.current
    {
      hide KernelOk, PhysOk, R.SchedOk;
      Coexist.CurrentIsLive(Value().v, Value().t, Value().spaces, sys.config);
      SchedSized(Value().t);
      sys.current := cpu.current;
    }

    /** `expand`. */
    method Expand(size: nat, segmentT: nat) returns (r: nat)
      requires Valid() && cpu.current != 0
      modifies sys`current, cpu.ctxs
      ensures Valid()
      ensures var x, seg := old(cpu.ctxs[cpu.current]), old(cpu.ctxs[cpu.current]).segs.data;
        segmentT == 1 && size <= 1024 && seg.nextFree + size * PAGE_SIZE <= seg.end ==>
        r == seg.nextFree && cpu.ctxs[..] ==
          old(cpu.ctxs[..])[cpu.current := x.(segs := x.segs.(data := seg.(nextFree := r + size * PAGE_SIZE)))]
      ensures var x, seg := old(cpu.ctxs[cpu.current]), old(cpu.ctxs[cpu.current]).segs.rodata;
        segmentT == 0 && size <= 1024 && seg.nextFree + size * PAGE_SIZE <= seg.end ==>
        r == seg.nextFree && cpu.ctxs[..] ==
          old(cpu.ctxs[..])[cpu.current := x.(segs := x.segs.(rodata := seg.(nextFree := r + size * PAGE_SIZE)))]
      ensures segmentT > 1 || size > 1024 ==> r == 0 && Value() == old(Value())
      ensures var g := old(cpu.ctxs[..])[cpu.current].segs;
        if ExpandGood(g, size, segmentT)
        then WorldStep(old(Value()), Value(), WholeKernel.Expand(WhichOf(segmentT), r + size * PAGE_SIZE), sys.config)
        else r == 0 && Value() == old(Value())
    {
      hide KernelOk, PhysOk, R.SchedOk, ExpandStep, Abs, SegOf, WithBreak, WithSegs;
      Point();
      ghost var a := Value();
      WorldSegs(a, sys.config);
      ghost var g := sys.Self().segs;
      r := sys.DoExpand(size, segmentT);
      if ExpandGood(g, size, segmentT) {
        ExpandMade(a, Value(), g, size, segmentT, r);
        ExpandKeepsWorld(a, Value(), WhichOf(segmentT), r + size * PAGE_SIZE, sys.config);
      }
    }

    /** A page fault: `do_page_fault` maps a page or raises SIGSEGV. */
    method PageFault(cr2: nat, errorCode: nat) returns (handled: bool, end: SignalEnd)
      requires Valid() && cpu.current != 0 && cpu.current in sys.spaces
      requires FaultGood(cpu.ctxs[cpu.current].segs, cr2, errorCode) ==>
        LeafOf(cr2) !in sys.spaces[cpu.current].ents && sys.m.user.freePages != 0
        && |PL.Supply(sys.m.pt.Value())| >= Missing(sys.spaces[cpu.current], LeafOf(cr2))
      requires R.OthersLeft(cpu.Value()) || OsPmdKnown(sys.m.Value(), cpu.ctxs[cpu.current], Tree(), sys.osPmd)
      modifies sys`current, sys`spaces, cpu, cpu.ctxs, sys.m.Objs()
      ensures handled == FaultGood(old(cpu.ctxs[..])[old(cpu.current)].segs, cr2, errorCode)
      ensures FaultServed(old(cpu.ctxs[cpu.current].segs), cr2, errorCode, handled)
      ensures handled && Valid() ==> Reaches(sys.m.mem, old(cpu.ctxs[cpu.current].pgd), old(Tree()), cr2, errorCode,
        PL.Picked(old(sys.m.user.Value())))
      ensures handled ==> PL.Shape(old(sys.m.user.Value()))
      ensures handled ==> (Valid() <==> PL.IsFree(old(sys.m.user.Value()), PL.Picked(old(sys.m.user.Value()))))
      ensures handled && Valid() ==> WorldStep(old(Value()), Value(), WholeKernel.PageFault(LeafOf(cr2),
        Pte(PL.Picked(old(sys.m.user.Value())), FaultFlags(errorCode))), sys.config)
      ensures !handled ==> SignalStep(old(Value()), Value(), SIGSEGV, end, sys.config)
      ensures !handled && !end.Ended? ==>
        (Valid() <==> PushSpares(old(Value()), Deliver(SIGSEGV), LiveTableFrames(old(Value()))))
      ensures !handled && OwnPush(old(Value()), Deliver(SIGSEGV)) && !end.Ended? ==> Valid()
      ensures !handled && end.Ended? ==>
        AllBack(old(sys.m.Value()), sys.m.Value(), old(cpu.ctxs[cpu.current]), old(Tree()), sys.osPmd)
    {
      hide KernelOk, PhysOk, R.SchedOk, FaultStep, Abs, Mapped, PL.Supply, PL.Shape, PL.Picked, PL.Take, Missing;
      hide NewTables, PL.IsFree, FaultServed, Reaches;
      hide FaultGood, SignalStep, AllBack, PushSpares, OwnPush, R.OthersLeft, OsPmdKnown, LiveTableFrames;
      hide PL.PageList.Value, PgdIndex, PudIndex, PmdIndex, PteIndex, InRange, PagePlace, ReadOnlySide, WriteFlag;
      Point();
      ghost var a := Value();
      WorldSegs(a, sys.config);
      WorldUser(a, sys.config);
      ghost var t, g := sys.Tree(), sys.Self().segs;
      handled, t := sys.DoPageFault(cr2, errorCode);
      end := Entered;
      if handled {
        FaultPlace(g, cr2, errorCode);
        if sys.Valid() {
          PageFaultKeeps(a, Value(), LeafOf(cr2), Pte(PL.Picked(a.v.user), FaultFlags(errorCode)), sys.config);
        }
      } else {
        end := Signalled(SIGSEGV);
      }
    }

    /** `shrink`; it keeps the invariants when no other process maps the pages it takes. */
    method Shrink(size: nat, segmentT: nat) returns (r: nat)
      requires Valid() && cpu.current != 0
      modifies sys`current, sys`spaces, cpu.ctxs, sys.m.Objs()
      ensures var x, seg := old(cpu.ctxs[cpu.current]), old(cpu.ctxs[cpu.current]).segs.data;
        segmentT == 1 && size <= 1024 && seg.start + size * PAGE_SIZE <= seg.nextFree ==>
        r == seg.nextFree - size * PAGE_SIZE && Unmaps(old(Tree()), Tree(), r, seg.nextFree) &&
        FreesPages(old(sys.m.Value()).user, sys.m.Value().user, old(Tree()), r, seg.nextFree) &&
        cpu.ctxs[..] == old(cpu.ctxs[..])[cpu.current := x.(segs := x.segs.(data := seg.(nextFree := r)))]
      ensures var x, seg := old(cpu.ctxs[cpu.current]), old(cpu.ctxs[cpu.current]).segs.rodata;
        segmentT == 0 && size <= 1024 && seg.start + size * PAGE_SIZE <= seg.nextFree ==>
        r == seg.nextFree - size * PAGE_SIZE && Unmaps(old(Tree()), Tree(), r, seg.nextFree) &&
        FreesPages(old(sys.m.Value()).user, sys.m.Value().user, old(Tree()), r, seg.nextFree) &&
        cpu.ctxs[..] == old(cpu.ctxs[..])[cpu.current := x.(segs := x.segs.(rodata := seg.(nextFree := r)))]
      ensures segmentT > 1 || size > 1024 ==> Valid() && r == 0 && Value() == old(Value())
      ensures !ShrinkGood(old(cpu.ctxs[..])[cpu.current].segs, size, segmentT) ==>
        Valid() && r == 0 && Value() == old(Value())
      ensures var good := ShrinkGood(old(cpu.ctxs[..])[cpu.current].segs, size, segmentT);
        good && ShrinkSafe(old(Value()), WhichOf(segmentT), r) ==>
        Valid() && WorldStep(old(Value()), Value(), WholeKernel.Shrink(WhichOf(segmentT), r), sys.config)
    {
      hide KernelOk, PhysOk, R.SchedOk, ShrinkStep, Abs, SegOf, WithBreak, WithSegs, Removed, Unshared, ShrinkSafe;
      hide Unmaps, FreesPages;
      Point();
      ghost var a := Value();
      WorldSegs(a, sys.config);
      ghost var g := sys.Self().segs;
      ghost var t;
      r, t := sys.DoShrink(size, segmentT);
      if ShrinkGood(g, size, segmentT) && ShrinkSafe(a, WhichOf(segmentT), r) {
        ShrinkMade(a, Value(), g, size, segmentT, r, t);
        ShrinkKeepsWorld(a, Value(), WhichOf(segmentT), r, sys.config);
      }
    }

    /** `fork`: the child is what the scheduler's event says; when the copy faults, the
        caller's world is lost to the half-built slot. */
    method Fork() returns (pid: nat, faulted: bool, ghost stack: nat, ghost priv: map<nat, Node>)
      requires Valid() && cpu.current != 0 && cpu.current in sys.spaces && FirstUnused(sys.ctxs[..]) < MAX_PROCESSES
      requires ForkBudget(sys.m.Value(), sys.spaces[cpu.current], cpu.ctxs[cpu.current].segs)
      requires |PL.Supply(sys.m.pt.Value())| >= 2 + |TableNodes(sys.spaces[cpu.current])|
      modifies sys`current, sys`spaces, sys`osPmd, cpu.ctxs, sys.m.Objs()
      ensures faulted <==>
        !ForkFits(old(sys.m.Value()), old(sys.spaces)[cpu.current], old(cpu.ctxs[..])[cpu.current].segs)
      ensures !faulted ==> Valid() && WorldStep(old(Value()), Value(), WholeKernel.Fork(pid, stack, priv), sys.config)
      ensures !faulted ==> pid in sys.spaces && sys.osPmd == OsPmdOf(sys.spaces[pid])
      ensures !faulted ==> ChildSees(old(sys.m.Value()), sys.m.Value(), old(Tree()), sys.spaces[pid])
      ensures pid == FirstUnused(old(cpu.ctxs[..])) && cpu.frame == old(cpu.frame)
      ensures var x, y := old(cpu.ctxs[cpu.current]), cpu.ctxs[..][pid];
        && y.pid == pid && y.ppid == x.pid && y.segs == x.segs && y.regs == cpu.frame && y.handlers == x.handlers
        && y.ticksToSleep == x.ticksToSleep
        && y.alarmConfigTime == x.alarmConfigTime && y.ticksToAlarm == x.ticksToAlarm
        && (!faulted ==> y.state == Ready && y.osStackPfn == stack && y.pgd == sys.spaces[pid].root)
    {
      hide KernelOk, PhysOk, R.SchedOk, Abs, ForkStep, ForkMade, ForkFits, ForkBudget, PL.Supply, TableNodes;
      hide PL.PageList.Value, ChildSees;
      ghost var a := Value();
      SchedSized(a.t);
      S.FirstUnusedKept(a.t.ctxs, a.t.current, S.Saved(a.t));
      Enter();
      Point();
      ghost var b := Value();
      var child;
      ghost var ct;
      pid, faulted, child, stack, ct, priv := sys.DoFork();
      if !faulted {
        ForkedWorld(a, b, Value(), pid, child, stack, ct, priv, sys.config);
        ForkKeepsWorld(a, Value(), pid, stack, priv, sys.config);
      }
    }

    /** `do_exit`: another context runs on; after the last process everything it held
        comes back and the run ends. */
    method DoExit() returns (others: bool)
      requires Valid() && cpu.current != 0
      requires R.OthersLeft(cpu.Value()) || OsPmdKnown(sys.m.Value(), cpu.ctxs[cpu.current], Tree(), sys.osPmd)
      modifies sys`current, sys`spaces, cpu, cpu.ctxs, sys.m.Objs()
      ensures others <==> R.OthersLeft(old(cpu.Value()))
      ensures others ==> Valid() && WorldStep(Unsaved(old(Value())), Value(), WholeKernel.Exit, sys.config)
      ensures !others ==>
        AllBack(old(sys.m.Value()), sys.m.Value(), old(cpu.ctxs[cpu.current]), old(Tree()), sys.osPmd)
    {
      hide KernelOk, PhysOk, R.SchedOk, Abs, ExitStep, PL.Give, PL.PageList.Value, R.OthersLeft, S.Pick;
      hide ExitedStep, R.Step, R.Enabled, OsPmdKnown, AllBack;
      hide S.Sized, SegsOk, Live, Leaves, SysOk;
      Point();
      ghost var a, tree := Value(), Tree();
      SchedSized(a.t);
      var x := cpu.ctxs[cpu.current];
      LastFacts(a, sys.config);
      others := sys.DoExit();
      LastOne(a, sys.config);
      if others {
        var next := cpu.PickNextContext(cpu.current);
        cpu.Schedule(next);
        LeftWorld(a, Value(), sys.config);
      } else {
        CleanUp(sys.m, sys.config, x, sys.osPmd, a.v, tree);
      }
    }

    /** `exit`. */
    method Exit() returns (others: bool)
      requires Valid() && cpu.current != 0
      requires R.OthersLeft(cpu.Value()) || OsPmdKnown(sys.m.Value(), cpu.ctxs[cpu.current], Tree(), sys.osPmd)
      modifies sys`current, sys`spaces, cpu, cpu.ctxs, sys.m.Objs()
      ensures others <==> R.OthersLeft(old(cpu.Value()))
      ensures others ==> Valid() && WorldStep(old(Value()), Value(), WholeKernel.Exit, sys.config)
      ensures !others ==>
        AllBack(old(sys.m.Value()), sys.m.Value(), S.Saved(old(cpu.Value())), old(Tree()), sys.osPmd)
    {
      hide KernelOk, PhysOk, R.SchedOk, R.OthersLeft, PL.PageList.Value, ExitedStep, AllBack;
      ghost var a := Value();
      SchedSized(a.t);
      Enter();
      ghost var b := Value();
      SavedOthers(a, b);
      others := DoExit();
      if others {
        SavedFirst(a, b, Value(), sys.config);
      }
    }

    /** `invoke_sync_signal` for SIGFPE, and for SIGSEGV after a fault that was not
        handled: the handler is entered, or the process ends. */
    method Signalled(signo: nat) returns (end: SignalEnd)
      requires Valid() && cpu.current != 0 && (signo == SIGSEGV || signo == SIGFPE)
      requires R.OthersLeft(cpu.Value()) || OsPmdKnown(sys.m.Value(), cpu.ctxs[cpu.current], Tree(), sys.osPmd)
      modifies sys`current, sys`spaces, cpu, cpu.ctxs, sys.m.Objs()
      ensures SignalStep(old(Value()), Value(), signo, end, sys.config)
      ensures !end.Ended? ==>
        (Valid() <==> PushSpares(old(Value()), Deliver(signo), LiveTableFrames(old(Value()))))
      ensures OwnPush(old(Value()), Deliver(signo)) && !end.Ended? ==> Valid()
      ensures end.Entered? ==> HandlerEntered(old(Value()), Value(), Handler(old(Value()), Deliver(signo)))
      ensures end.Entered? && OwnPush(old(Value()), Deliver(signo)) ==> ReadsReturn(old(Value()), Value())
      ensures end.Ended? ==>
        AllBack(old(sys.m.Value()), sys.m.Value(), old(cpu.ctxs[cpu.current]), old(Tree()), sys.osPmd)
    {
      hide KernelOk, PhysOk, R.SchedOk, R.OthersLeft, PL.PageList.Value, ExitedStep, AllBack, StoreAt, Spares, Apply;
      hide LiveTableFrames, OsPmdKnown, HandlerEntered, ReadsReturn;
      ghost var a := Value();
      SchedSized(a.t);
      SignalPushes(a, signo, sys.config);
      var handler := cpu.ctxs[cpu.current].handlers[signo];
      if handler == 0 {
        var others := DoExit();
        end := if others then Exited else Ended;
      } else {
        var faulted := PushWord(cpu.ctxs[cpu.current].pgd, S.ReturnPush(cpu.frame, handler));
        end := if faulted then Faulted else Entered;
        if !faulted {
          var exits, pushed := cpu.InvokeSyncSignal(signo);
          SignalMade(a, Value(), signo, sys.config);
          HandlerReturns(a, Value(), Deliver(signo), sys.config);
        }
      }
    }
  }

  /** How a signal ends: in its handler, in a fault of the kernel's own push, or with the
      process, the last one or not. */
  datatype SignalEnd = Entered | Faulted | Exited | Ended

  ghost predicate SignalEnded(a: World, signo: nat, end: SignalEnd) {
    && Current(a) < |a.t.ctxs| && signo < |a.t.ctxs[Current(a)].handlers|
    && (end.Exited? || end.Ended? <==> a.t.ctxs[Current(a)].handlers[signo] == 0)
    && (end.Ended? ==> !R.OthersLeft(a.t)) && (end.Exited? ==> R.OthersLeft(a.t))
    && (end.Faulted? <==> PushWrites(a, Deliver(signo), W.Kernel).Refused?)
  }

  /** The step of the whole kernel that a signal is. */
  ghost predicate SignalStep(a: World, b: World, signo: nat, end: SignalEnd, c: Config) {
    && SignalEnded(a, signo, end)
    && (end.Faulted? ==> b == a)
    && (end.Entered? ==> WorldStep(a, b, Deliver(signo), c))
    && (end.Exited? ==> WorldStep(Unsaved(a), b, WholeKernel.Exit, c))
  }

  /** The world as if the registers saved last were the running ones: an exit by a signal
      does not save them again. */
  function Unsaved(a: World): World {
    if Current(a) < |a.t.ctxs| then a.(t := a.t.(frame := a.t.ctxs[Current(a)].regs)) else a
  }

  lemma SchedSized(t: S.Table)
    requires R.SchedOk(t)
    ensures S.Sized(t) && t.ctxs[t.current].pid == t.current
  {
    R.CurrentPid(t);
  }

  lemma WorldSegs(a: World, c: Config)
    requires WorldOk(a, c) && Current(a) in a.spaces
    ensures Current(a) < |a.t.ctxs| && SegsOk(a.t.ctxs[Current(a)].segs)
  {
    KernelSlot(a.v, a.t.ctxs, a.spaces, c, Current(a));
  }

  /** Any other event of the scheduler makes no push. */
  lemma QuietStep(a: World, b: World, e: R.Event, c: Config)
    requires WorldOk(a, c) && !e.TimerTick? && !e.Exit? && !e.Fork? && !e.Clone?
    requires R.Enabled(a.t, e) && b == a.(t := R.Step(a.t, e))
    ensures WorldStep(a, b, Schedule(e), c) && WorldOk(b, c)
  {
    NoPushSpares(a, Schedule(e), LiveTableFrames(a));
    KernelTable(a.v, a.t.ctxs, a.spaces, c);
    PhysMem(a.v);
    hide R.SchedOk, KernelOk, R.Step, R.Enabled, PushSpares, LiveTableFrames, PushWrites, PhysOk;
    assert Apply(a.v.mem, []) == a.v.mem;
    ScheduleKeeps(a, b, e, c);
  }

  lemma TickPushes(a: World, c: Config)
    requires WorldOk(a, c)
    ensures S.Sized(a.t) && Current(a) < |a.t.ctxs|
    ensures ActPush(a, Schedule(R.TimerTick)) == S.TickPush(a.t)
    ensures OwnPush(a, Schedule(R.TimerTick)) ==> PushWrites(a, Schedule(R.TimerTick), W.Kernel).Writes?
  {
    SchedSized(a.t);
    hide R.SchedOk, KernelOk, S.TickPush, StoreAt;
    if OwnPush(a, Schedule(R.TimerTick)) {
      OwnPushSame(a, Schedule(R.TimerTick));
    }
  }

  lemma TickMade(a: World, b: World, c: Config)
    requires WorldOk(a, c) && S.Sized(a.t) && b.t == S.Tick(a.t) && b.spaces == a.spaces
    requires PushDone(a, b, Schedule(R.TimerTick))
    ensures WorldStep(a, b, Schedule(R.TimerTick), c)
    ensures WorldOk(b, c) <==> PushSpares(a, Schedule(R.TimerTick), LiveTableFrames(a))
    ensures OwnPush(a, Schedule(R.TimerTick)) ==> WorldOk(b, c)
  {
    hide R.SchedOk, KernelOk, S.Tick, PushDone, PushSpares, LiveTableFrames, OwnPush;
    assert ScheduleStep(a, b, R.TimerTick);
    ScheduleKeeps(a, b, R.TimerTick, c);
    if OwnPush(a, Schedule(R.TimerTick)) {
      OwnPushSpares(a, b, Schedule(R.TimerTick), c);
    }
  }

  /** A page fault that the kernel's own push raises, in the middle of a tick, is the same
      as one that comes before the tick, and it leaves the push as it is. */
  lemma FaultThenTick(a: World, b: World, l: Node, p: Pte)
    requires PageFaultStep(a, b, l, p) && S.Sized(a.t)
    ensures ActPush(b, Schedule(R.TimerTick)) == ActPush(a, Schedule(R.TimerTick))
    ensures var mid := a.t.(ctxs := S.Accounted(a.t)); PageFaultStep(a.(t := mid), b.(t := mid), l, p)
  {
    hide Mapped, InRange, PagePlace, ReadOnlySide, WriteFlag, PL.Supply, PL.Picked, PL.Take, PL.Shape, S.TickPush;
  }

  /** A user store that does not fault stays inside memory. */
  lemma WorldTarget(a: World, l: Node, k: nat, value: nat, c: Config)
    requires WorldOk(a, c) && Current(a) in a.spaces && Current(a) < |a.t.ctxs| && InRange(l) && k < ENTRIES
    requires W.Translate(a.v.mem, a.t.ctxs[Current(a)].pgd, l, W.UserWrite).Frame?
    ensures var f := W.Translate(a.v.mem, a.t.ctxs[Current(a)].pgd, l, W.UserWrite).pfn;
      && f < |a.v.mem| && MemOk(a.v.mem)
      && StoreStep(a, a.(v := a.v.(mem := PageTable.Store(a.v.mem, f, k, value))), l, k, value)
  {
    TargetInMemory(a, l, c);
    hide WorldOk, W.Translate, InRange, PageTable.Store;
  }

  lemma WorldUser(a: World, c: Config)
    requires WorldOk(a, c)
    ensures PL.Shape(a.v.user)
  {
    KernelTable(a.v, a.t.ctxs, a.spaces, c);
  }

  lemma ExpandMade(a: World, b: World, g: Segs, size: nat, segmentT: nat, r: nat)
    requires Current(a) in a.spaces && Current(a) < |a.t.ctxs| && g == a.t.ctxs[Current(a)].segs && SegsOk(g)
    requires ExpandGood(g, size, segmentT) && r == SegOf(g, WhichOf(segmentT)).nextFree
    requires b == a.(t := WithCurrentSegs(a.t, WithBreak(g, WhichOf(segmentT), r + size * PAGE_SIZE)))
    ensures ExpandedStep(a, b, WhichOf(segmentT), r + size * PAGE_SIZE)
  {
    hide SegsOk, Aligned, SegOf, WithBreak;
    BreakMoves(g, WhichOf(segmentT), size);
  }

  lemma ShrinkMade(a: World, b: World, g: Segs, size: nat, segmentT: nat, r: nat, t: Space)
    requires Current(a) in a.spaces && Current(a) < |a.t.ctxs| && g == a.t.ctxs[Current(a)].segs && SegsOk(g)
    requires ShrinkGood(g, size, segmentT) && r + size * PAGE_SIZE == SegOf(g, WhichOf(segmentT)).nextFree
    requires b.t == WithCurrentSegs(a.t, WithBreak(g, WhichOf(segmentT), r)) && b.spaces == a.spaces[Current(a) := t]
    requires Removed(a.v, a.spaces[Current(a)], b.v, t, r, SegOf(g, WhichOf(segmentT)).nextFree)
    requires ShrinkSafe(a, WhichOf(segmentT), r)
    ensures ShrunkStep(a, b, WhichOf(segmentT), r)
  {
    hide SegsOk, Aligned, SegOf, WithBreak, Removed, ShrinkSafe;
    BreakMovesDown(g, WhichOf(segmentT), size);
  }

  /** Saving the registers first, the memory side's fork is the scheduler's. */
  lemma ForkedWorld(a: World, b: World, d: World, pid: nat, child: nat, stack: nat, ct: Space, priv: map<nat, Node>,
                    c: Config)
    requires R.SchedOk(a.t) && Current(a) != 0 && Current(a) in a.spaces && FirstUnused(a.t.ctxs) < MAX_PROCESSES
    requires SaveStep(a, b) && FirstUnused(b.t.ctxs) == FirstUnused(a.t.ctxs) == pid && pid !in a.spaces
    requires child == ct.root && d.spaces == a.spaces[pid := ct] && |b.t.ctxs| == MAX_PROCESSES
    requires d.t == b.t.(ctxs := b.t.ctxs[pid := ForkChild(b.t.ctxs[Current(a)], pid, child, stack)])
    requires Current(a) < |a.t.ctxs|
    requires ForkMade(a.v, d.v, a.spaces[Current(a)], ct, a.t.ctxs[Current(a)].segs, stack, priv, c)
    ensures ForkedStep(a, d, pid, stack, priv, c)
  {
    hide R.SchedOk, ForkMade, FirstUnused;
    SchedSized(a.t);
  }

  lemma LastFacts(a: World, c: Config)
    requires WorldOk(a, c) && Current(a) != 0
    ensures Current(a) in a.spaces && Current(a) < |a.t.ctxs|
    ensures Live(a.v, a.t.ctxs[Current(a)], a.spaces[Current(a)], c) && ConfigOk(c)
    ensures OwnFrames(a.v, a.spaces[Current(a)]) && Teardown.ApicOutside(a.v, c)
  {
    Coexist.CurrentIsLive(a.v, a.t, a.spaces, c);
    KernelSlot(a.v, a.t.ctxs, a.spaces, c, Current(a));
    KernelFrames(a.v, a.t.ctxs, a.spaces, c, Current(a));
    hide R.SchedOk, Live, PairOk, SysOk, Abs, OwnFrames;
  }

  /** Nobody else in the table, nobody else with a tree. */
  lemma LastOne(a: World, c: Config)
    requires WorldOk(a, c) && Current(a) in a.spaces
    ensures R.OthersLeft(a.t) <==> a.spaces - {Current(a)} != map[]
  {
    hide R.SchedOk, KernelOk;
    KernelTable(a.v, a.t.ctxs, a.spaces, c);
    KernelLive(a.v, a.t.ctxs, a.spaces, c);
    hide WorldOk;
    if a.spaces - {Current(a)} != map[] {
      var i :| i in a.spaces - {Current(a)};
      assert i in a.spaces && i != Current(a);
    }
    if R.OthersLeft(a.t) {
      var i: nat :| 1 <= i < |a.t.ctxs| && i != a.t.current && a.t.ctxs[i].state != Unused;
      assert i in a.spaces - {Current(a)};
    }
  }

  lemma KernelLive(v: Phys, ctxs: seq<ExecContext>, spaces: map<nat, Space>, c: Config)
    requires KernelOk(v, ctxs, spaces, c)
    ensures LiveSlots(ctxs, spaces) && forall i | i in spaces :: i < MAX_PROCESSES
  {
  }

  /** An exit without a save of the registers. */
  lemma LeftWorld(a: World, d: World, c: Config)
    requires WorldOk(a, c) && Current(a) != 0 && Current(a) in a.spaces && R.OthersLeft(a.t) && Current(a) < |a.t.ctxs|
    requires d.spaces == a.spaces - {Current(a)}
    requires d.v == a.v.(pt := PL.Give(a.v.pt, a.t.ctxs[Current(a)].osStackPfn))
    requires S.Sized(a.t) && a.t.ctxs[Current(a)].pid == Current(a)
    requires var left := a.t.ctxs[Current(a) := a.t.ctxs[Current(a)].(state := Unused)];
      S.Pick(left, Current(a)) < |left| && d.t == S.SwitchTo(left, S.Pick(left, Current(a)))
    ensures WorldStep(Unsaved(a), d, WholeKernel.Exit, c) && WorldOk(d, c)
  {
    hide R.SchedOk, KernelOk, PL.Give, R.OthersLeft, S.Pick, R.Step, R.Enabled;
    var b := Unsaved(a);
    UnsavedOk(a, c);
    ExitIs(b.t, a.t);
    assert ExitedStep(b, d);
    ExitKeepsWorld(b, d, c);
  }

  lemma ExitIs(t: S.Table, a: S.Table)
    requires S.Sized(a) && R.SchedOk(t) && t == a.(frame := a.ctxs[a.current].regs)
    requires a.current != 0 && R.OthersLeft(t)
    ensures R.Enabled(t, R.Exit)
    ensures var left := a.ctxs[a.current := a.ctxs[a.current].(state := Unused)];
      S.Pick(left, a.current) < |left| && R.Step(t, R.Exit) == S.SwitchTo(left, S.Pick(left, a.current))
  {
    hide R.SlotOk, R.OthersLeft, S.Pick;
    R.CurrentPid(t);
    assert S.Saved(t) == a.ctxs[a.current];
    S.PickSmall(a.ctxs[a.current := a.ctxs[a.current].(state := Unused)], a.current);
  }

  lemma UnsavedOk(a: World, c: Config)
    requires WorldOk(a, c)
    ensures WorldOk(Unsaved(a), c) && (R.OthersLeft(Unsaved(a).t) <==> R.OthersLeft(a.t))
  {
    hide KernelOk, R.SlotOk;
  }

  lemma SavedOthers(a: World, b: World)
    requires S.Sized(a.t) && SaveStep(a, b)
    ensures R.OthersLeft(b.t) <==> R.OthersLeft(a.t)
    ensures b.t.ctxs[Current(b)].osStackPfn == a.t.ctxs[Current(a)].osStackPfn
    ensures Unsaved(b) == b && b.t.ctxs[Current(b)] == S.Saved(a.t)
  {
    if R.OthersLeft(a.t) {
      var i: nat :| 1 <= i < |a.t.ctxs| && i != a.t.current && a.t.ctxs[i].state != Unused;
      assert b.t.ctxs[i].state != Unused;
    }
  }

  /** Saving the registers and then exiting is the scheduler's exit. */
  lemma SavedFirst(a: World, b: World, d: World, c: Config)
    requires S.Sized(a.t) && SaveStep(a, b) && WorldOk(a, c) && Unsaved(b) == b
    requires WorldStep(b, d, WholeKernel.Exit, c)
    ensures WorldStep(a, d, WholeKernel.Exit, c)
  {
    hide R.SchedOk, KernelOk, PL.Give, R.OthersLeft, S.Pick, R.Step;
    SavedOthers(a, b);
    SavedExit(a.t, b.t);
  }

  lemma SavedExit(t: S.Table, u: S.Table)
    requires R.SchedOk(t) && S.Sized(t) && u == t.(ctxs := t.ctxs[t.current := S.Saved(t)])
    requires R.SchedOk(u) && R.Enabled(u, R.Exit) && R.OthersLeft(t)
    ensures R.Enabled(t, R.Exit) && R.Step(t, R.Exit) == R.Step(u, R.Exit)
  {
    hide R.SchedOk, R.OthersLeft, S.Pick;
    assert S.Saved(u) == S.Saved(t);
    var x := S.Saved(t).(state := Unused);
    assert u.ctxs[u.current := x] == t.ctxs[t.current := x];
    SchedSized(t);
    SchedSized(u);
  }

  lemma SignalPushes(a: World, signo: nat, c: Config)
    requires WorldOk(a, c) && signo < MAX_SIGNALS
    ensures S.Sized(a.t) && Current(a) < |a.t.ctxs| && signo < |a.t.ctxs[Current(a)].handlers|
    ensures ActPush(a, Deliver(signo)) == S.ReturnPush(a.t.frame, a.t.ctxs[Current(a)].handlers[signo])
    ensures a.t.ctxs[Current(a)].handlers[signo] == 0 ==>
      PushWrites(a, Deliver(signo), W.Kernel) == Writes([]) && PushSpares(a, Deliver(signo), LiveTableFrames(a))
    ensures OwnPush(a, Deliver(signo)) ==> PushWrites(a, Deliver(signo), W.Kernel).Writes?
  {
    SchedSized(a.t);
    hide R.SchedOk, KernelOk, StoreAt, LiveTableFrames;
    if a.t.ctxs[Current(a)].handlers[signo] == 0 {
      NoPushSpares(a, Deliver(signo), LiveTableFrames(a));
    }
    if OwnPush(a, Deliver(signo)) {
      OwnPushSame(a, Deliver(signo));
    }
  }

  lemma SignalMade(a: World, b: World, signo: nat, c: Config)
    requires WorldOk(a, c) && Current(a) != 0 && Current(a) < |a.t.ctxs| && signo < MAX_SIGNALS && S.Sized(a.t)
    requires a.t.ctxs[Current(a)].handlers[signo] != 0
    requires b.t == a.t.(frame := S.Delivered(a.t.frame, a.t.ctxs[Current(a)].handlers[signo]))
    requires b.spaces == a.spaces && PushDone(a, b, Deliver(signo))
    ensures WorldStep(a, b, Deliver(signo), c)
    ensures WorldOk(b, c) <==> PushSpares(a, Deliver(signo), LiveTableFrames(a))
    ensures OwnPush(a, Deliver(signo)) ==> WorldOk(b, c)
  {
    hide R.SchedOk, KernelOk, PushDone, PushSpares, LiveTableFrames, OwnPush, S.Delivered;
    Coexist.CurrentIsLive(a.v, a.t, a.spaces, c);
    assert DeliverStep(a, b, signo);
    DeliverKeeps(a, b, signo, c);
    if OwnPush(a, Deliver(signo)) {
      OwnPushSpares(a, b, Deliver(signo), c);
    }
  }
}
