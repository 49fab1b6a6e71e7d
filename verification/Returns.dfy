/** What a process finds when one of its signal handlers is entered: the handler's address
    in rip, and on top of its stack the address at which it was interrupted. */
module Returns {
  import opened Integers
  import opened PageTable
  import opened Physical
  import opened KernelMap
  import opened Segments
  import opened Context
  import opened Isolation
  import opened Kernel
  import opened KernelSteps
  import opened Syscalls
  import opened Deposit
  import opened WholeKernel
  import opened Undisturbed
  import Coexist
  import CallEffects
  import S = Scheduler
  import R = SchedulerRuns
  import W = Walk
  import PL = PageList

  /** The handler an act enters: 0 for none. */
  function Handler(a: World, act: Act): nat {
    if Current(a) >= |a.t.ctxs| || |a.t.ctxs[Current(a)].handlers| != MAX_SIGNALS then 0
    else
      var x := a.t.ctxs[Current(a)];
      match act
      case Schedule(e) => if e.TimerTick? && x.ticksToAlarm == 1 then x.handlers[SIGALRM] else 0
      case Deliver(signo) => if signo < MAX_SIGNALS then x.handlers[signo] else 0
      case _ => 0
  }

  /** The interrupted context goes on in the handler, and the eight bytes that its stack
      pointer now points at, where they are memory, hold the interrupted rip. */
  ghost predicate HandlerEntered(a: World, b: World, handler: nat) {
    && Current(a) < |a.t.ctxs| && Current(a) < |b.t.ctxs|
    && var r, rsp := R.Logical(b.t, Current(a)), (a.t.frame.rsp + U64 - 8) % U64;
    && r == a.t.frame.(rip := handler, rsp := rsp)
    && LoadAt(a.v.mem, b.v.mem, a.t.ctxs[Current(a)].pgd, rsp, W.Kernel) in {Device, Word(a.t.frame.rip % U64)}
  }

  /** The process itself reads the interrupted rip there. */
  ghost predicate ReadsReturn(a: World, b: World) {
    && Current(a) < |a.t.ctxs|
    && LoadAt(b.v.mem, b.v.mem, a.t.ctxs[Current(a)].pgd, (a.t.frame.rsp + U64 - 8) % U64, W.UserRead)
       == Word(a.t.frame.rip % U64)
  }

  /** When an act pushes, and what. */
  lemma WhenPushed(a: World, act: Act)
    requires R.SchedOk(a.t)
    ensures Current(a) < |a.t.ctxs| && |a.t.ctxs[Current(a)].handlers| == MAX_SIGNALS
    ensures ActPush(a, act) == if Handler(a, act) == 0 then S.NoPush
                               else S.Push((a.t.frame.rsp + U64 - 8) % U64, a.t.frame.rip % U64)
  {
    hide R.SlotOk, S.Tick, S.TickPush, R.Logical;
    CallEffects.TickPushIs(a.t);
  }

  /** Where the interrupted context goes on. */
  lemma WhereEntered(a: World, b: World, act: Act, c: Config)
    requires R.SchedOk(a.t) && WorldStep(a, b, act, c)
    requires Current(a) < |a.t.ctxs| && |a.t.ctxs[Current(a)].handlers| == MAX_SIGNALS && Handler(a, act) != 0
    ensures Current(a) < |b.t.ctxs| && PushDone(a, b, act) && b.spaces == a.spaces
    ensures R.Logical(b.t, Current(a)) ==
      a.t.frame.(rip := Handler(a, act), rsp := (a.t.frame.rsp + U64 - 8) % U64)
  {
    hide R.SchedOk, PushDone, ScheduleStep, DeliverStep, PageFaultStep, ExpandedStep, ShrunkStep, ForkedStep;
    hide ExitedStep, StoreStep, SaveStep, R.Logical;
    match act
    case Schedule(e) => TickEntered(a, b, e);
    case Deliver(signo) => DeliverEntered(a, b, signo);
  }

  lemma TickEntered(a: World, b: World, e: R.Event)
    requires ScheduleStep(a, b, e) && e.TimerTick?
    requires Current(a) < |a.t.ctxs| && |a.t.ctxs[Current(a)].handlers| == MAX_SIGNALS
    requires a.t.ctxs[Current(a)].ticksToAlarm == 1 && a.t.ctxs[Current(a)].handlers[SIGALRM] != 0
    ensures Current(a) < |b.t.ctxs| && PushDone(a, b, Schedule(e)) && b.spaces == a.spaces
    ensures R.Logical(b.t, Current(a)) == a.t.frame.(rip := a.t.ctxs[Current(a)].handlers[SIGALRM],
      rsp := (a.t.frame.rsp + U64 - 8) % U64)
  {
    hide R.SlotOk, PushDone, S.Tick, S.TickPush, R.Enabled;
    CallEffects.TickPushIs(a.t);
  }

  lemma DeliverEntered(a: World, b: World, signo: nat)
    requires DeliverStep(a, b, signo) && Current(a) < |a.t.ctxs| && signo < |a.t.ctxs[Current(a)].handlers|
    ensures Current(a) < |b.t.ctxs| && PushDone(a, b, Deliver(signo)) && b.spaces == a.spaces
    ensures R.Logical(b.t, Current(a)) == a.t.frame.(rip := a.t.ctxs[Current(a)].handlers[signo],
      rsp := (a.t.frame.rsp + U64 - 8) % U64)
  {
    hide R.SchedOk, PushDone;
  }

  lemma PushedThere(a: World, b: World, act: Act)
    requires PushDone(a, b, act) && ActPush(a, act).Push? && Current(a) < |a.t.ctxs| && ActPush(a, act).value < U64
    ensures var p := ActPush(a, act);
      LoadAt(a.v.mem, b.v.mem, a.t.ctxs[Current(a)].pgd, p.address, W.Kernel) in {Device, Word(p.value)}
  {
    hide ActPush, StoreAt, LoadAt, Apply;
    var p := ActPush(a, act);
    ReadBack(a.v.mem, a.t.ctxs[Current(a)].pgd, p.address, p.value, W.Kernel);
  }

  lemma Entered(a: World, b: World, act: Act, handler: nat)
    requires Current(a) < |a.t.ctxs| && Current(a) < |b.t.ctxs| && PushDone(a, b, act)
    requires ActPush(a, act) == S.Push((a.t.frame.rsp + U64 - 8) % U64, a.t.frame.rip % U64)
    requires R.Logical(b.t, Current(a)) == a.t.frame.(rip := handler, rsp := (a.t.frame.rsp + U64 - 8) % U64)
    ensures HandlerEntered(a, b, handler)
  {
    hide ActPush, LoadAt, PushDone;
    PushedThere(a, b, act);
  }

  // ---- The process's own read -------------------------------------------

  /** Two translations that agree on the words of an address load the same. */
  lemma SameLoad(m: Mem, m': Mem, mem: Mem, root: nat, va: nat, a: W.Access, a': W.Access)
    requires Locate(m, root, va / 8 * 8, a) == Locate(m', root, va / 8 * 8, a')
    requires va % 8 != 0 ==>
      Locate(m, root, (va / 8 * 8 + 8) % U64, a) == Locate(m', root, (va / 8 * 8 + 8) % U64, a')
    ensures LoadAt(m, mem, root, va, a) == LoadAt(m', mem, root, va, a')
  {
    hide Locate, ReadWord, Glued, WordIndex;
  }

  lemma LocateRead(mem: Mem, root: nat, va: nat)
    requires Locate(mem, root, va, W.UserWrite).Frame?
    ensures Locate(mem, root, va, W.UserRead) == Locate(mem, root, va, W.UserWrite)
  {
    hide W.Translate, PgdIndex, PudIndex, PmdIndex, PteIndex;
    WriteThenRead(mem, root, LeafOf(va));
  }

  lemma LocateSame(mem: Mem, mem': Mem, s: Space, va: nat)
    requires Wf(mem, s) && Wf(mem', s) && UserTree(s)
    ensures Locate(mem', s.root, va, W.UserRead) == Locate(mem, s.root, va, W.UserRead)
  {
    LeafOfInRange(va);
    hide W.Translate, LeafOf, Wf, UserTree;
    W.UserTranslationIsTheMap(mem, s, LeafOf(va));
    W.UserTranslationIsTheMap(mem', s, LeafOf(va));
  }

  /** What a user store puts at an address a user read finds there, as long as the tree is
      the same. */
  lemma UserReadBack(mem: Mem, s: Space, va: nat, value: nat)
    requires Wf(mem, s) && UserTree(s) && value < U64 && StoreAt(mem, s.root, va, value, W.UserWrite).Writes?
    requires var ws := StoreAt(mem, s.root, va, value, W.UserWrite).ws;
      Wf(Apply(mem, ws), s) && forall i: nat | i < |ws| :: ws[i].frame < |mem|
    ensures var mem' := Apply(mem, StoreAt(mem, s.root, va, value, W.UserWrite).ws);
      LoadAt(mem', mem', s.root, va, W.UserRead) == Word(value)
  {
    hide StoreAt, LoadAt, Wf, UserTree, Apply, Locate;
    WfMem(mem, s);
    ReadBack(mem, s.root, va, value, W.UserWrite);
    WordsThere(mem, s.root, va, value);
    var mem' := Apply(mem, StoreAt(mem, s.root, va, value, W.UserWrite).ws);
    var first, next := va / 8 * 8, (va / 8 * 8 + 8) % U64;
    LocateRead(mem, s.root, first);
    LocateSame(mem, mem', s, first);
    if va % 8 != 0 {
      LocateRead(mem, s.root, next);
      LocateSame(mem, mem', s, next);
    }
    SameLoad(mem', mem, mem', s.root, va, W.UserRead, W.UserWrite);
  }

  lemma WfMem(mem: Mem, s: Space)
    requires Wf(mem, s)
    ensures MemOk(mem)
  {
  }

  lemma WordsThere(mem: Mem, root: nat, va: nat, value: nat)
    requires StoreAt(mem, root, va, value, W.UserWrite).Writes?
    ensures Locate(mem, root, va / 8 * 8, W.UserWrite).Frame?
    ensures va % 8 != 0 ==> Locate(mem, root, (va / 8 * 8 + 8) % U64, W.UserWrite).Frame?
  {
    hide Locate, ReadWord, HighReplaced, LowReplaced, WordIndex;
  }

  /** The running process before and after its own push. */
  lemma OwnTree(a: World, b: World, act: Act, c: Config)
    requires WorldOk(a, c) && WorldStep(a, b, act, c) && OwnPush(a, act) && ActPush(a, act).Push?
    requires b.spaces == a.spaces
    ensures Current(a) in a.spaces && Current(a) < |a.t.ctxs|
    ensures var s := a.spaces[Current(a)];
      Wf(a.v.mem, s) && Wf(b.v.mem, s) && UserTree(s) && s.root == a.t.ctxs[Current(a)].pgd
  {
    PushCurrent(a, b, act, c);
    OwnPushSpares(a, b, act, c);
    ActKeeps(a, b, act, c);
    hide WorldStep, PushSpares, LiveTableFrames, OwnPush, ActPush;
    OneTree(a, c, Current(a));
    OneTree(b, c, Current(a));
  }

  lemma OneTree(a: World, c: Config, i: nat)
    requires WorldOk(a, c) && i in a.spaces
    ensures i < |a.t.ctxs| && a.spaces[i].root == a.t.ctxs[i].pgd && Wf(a.v.mem, a.spaces[i]) && UserTree(a.spaces[i])
  {
    KernelSlot(a.v, a.t.ctxs, a.spaces, c, i);
    hide KernelOk, R.SchedOk, Abs, Live;
    LiveHolds(a.v, a.t.ctxs[i], a.spaces[i], c);
    hide UserTree, PhysOk;
  }

  lemma OwnFramesThere(a: World, act: Act, c: Config, i: nat)
    requires WorldOk(a, c) && OwnPush(a, act) && ActPush(a, act).Push? && Current(a) in a.spaces
    requires i < |PushWrites(a, act, W.UserWrite).ws|
    ensures PushWrites(a, act, W.UserWrite).ws[i].frame < |a.v.mem|
  {
    hide WorldOk, ActPush, StoreAt, W.Translate;
    var pgd, p := a.t.ctxs[Current(a)].pgd, ActPush(a, act);
    OwnTargets(a.v.mem, pgd, p.address, p.value, i);
    var l: Node :| InRange(l) && W.Translate(a.v.mem, pgd, l, W.UserWrite)
                == W.Frame(StoreAt(a.v.mem, pgd, p.address, p.value, W.UserWrite).ws[i].frame);
    TargetInMemory(a, l, c);
  }

  lemma OwnRead(a: World, b: World, act: Act, c: Config)
    requires WorldOk(a, c) && WorldStep(a, b, act, c) && OwnPush(a, act) && PushDone(a, b, act)
    requires b.spaces == a.spaces && Current(a) < |a.t.ctxs|
    requires ActPush(a, act) == S.Push((a.t.frame.rsp + U64 - 8) % U64, a.t.frame.rip % U64)
    ensures ReadsReturn(a, b)
  {
    hide WorldOk, WorldStep, ActPush, StoreAt, LoadAt, Wf, UserTree, Apply;
    OwnTree(a, b, act, c);
    OwnPushSame(a, act);
    forall i: nat | i < |PushWrites(a, act, W.UserWrite).ws|
      ensures PushWrites(a, act, W.UserWrite).ws[i].frame < |a.v.mem|
    {
      OwnFramesThere(a, act, c, i);
    }
    UserReadBack(a.v.mem, a.spaces[Current(a)], ActPush(a, act).address, ActPush(a, act).value);
  }

  /** A handler that is entered can return: its return address is where the process was
      interrupted, and the process can read it whenever it could have written it. */
  lemma HandlerReturns(a: World, b: World, act: Act, c: Config)
    requires WorldOk(a, c) && WorldStep(a, b, act, c)
    ensures Current(a) < |a.t.ctxs| && |a.t.ctxs[Current(a)].handlers| == MAX_SIGNALS
    ensures Handler(a, act) != 0 ==> HandlerEntered(a, b, Handler(a, act))
    ensures Handler(a, act) != 0 && OwnPush(a, act) ==> ReadsReturn(a, b)
  {
    WhenPushed(a, act);
    hide KernelOk, R.SchedOk, WorldStep, PushDone, HandlerEntered, ReadsReturn, ActPush, OwnPush;
    if Handler(a, act) != 0 {
      WhereEntered(a, b, act, c);
      Entered(a, b, act, Handler(a, act));
      if OwnPush(a, act) {
        OwnRead(a, b, act, c);
      }
    }
  }
}
