/** The semaphore protocol (software/src/ipc.c:306-475). `supply` counts the tokens put in since
    the last reset, `returned` the takes that have reported success since then, `wraps` how often
    the 16-bit value has wrapped, `stray` how many waiting threads others have resumed, each of which
    takes a token nobody put in. */
module SemaphoreSpec {
  import opened Threads
  import opened Waiters

  const WAITERS: nat := 0
  const LIMIT: nat := 0x1_0000

  datatype Sem = Sem(core: Core, flag: Flag, value: nat, supply: int, returned: int, wraps: int,
                     stray: int)

  datatype Outcome = Blocked | Returned(err: Err)

  predicate Shape(s: Sem) {
    |s.core.sys.wait| == 1 && InRange(s.core.sys, s.core.sys.wait[WAITERS])
  }

  predicate Knows(s: Sem, t: Tid) {
    t in s.core.sys.tcb && s.core.sys.tcb[t].prio < |s.core.sys.ready|
  }

  /** rt_sem_take without waiting, from a thread or an interrupt handler */
  function TryTake(s: Sem): (Sem, Outcome) {
    if s.value > 0 then (s.(value := s.value - 1, returned := s.returned + 1), Returned(EOK))
    else (s, Returned(ETIMEOUT))
  }

  /** rt_sem_take up to its rt_schedule */
  function Take(s: Sem, t: Tid, time: int): (Sem, Outcome)
    requires Shape(s) && Knows(s, t)
  {
    if s.value > 0 || time == 0 then TryTake(s)
    else (s.(core := Enter(s.core, WAITERS, t, s.flag, time > 0)), Blocked)
  }

  /** A waiting thread goes on after rt_schedule. */
  function Continue(s: Sem, t: Tid): (Sem, Outcome)
    requires Knows(s, t)
  {
    var s' := s.(core := Leave(s.core, t));
    var err := s.core.sys.tcb[t].error;
    if err != EOK then (s', Returned(err)) else (s'.(returned := s.returned + 1), Returned(EOK))
  }

  /** The increment of a 16-bit value */
  function Plus(value: nat): (r: nat)
    ensures value < LIMIT ==> r == if value + 1 == LIMIT then 0 else value + 1
  {
    (value + 1) % LIMIT
  }

  function Release(s: Sem): Sem
    requires Shape(s)
  {
    var s' := s.(supply := s.supply + 1);
    if s.core.sys.wait[WAITERS] != [] then s'.(core := Wake(s.core, WAITERS))
    else s'.(value := Plus(s.value), wraps := if s.value + 1 == LIMIT then s.wraps + 1 else s.wraps)
  }

  /** RT_IPC_CMD_RESET: the tokens of threads that are resumed but have not run yet stay theirs. */
  ghost function Reset(s: Sem, value: nat): Sem
    requires Shape(s)
  {
    s.(core := KickAll(s.core, WAITERS), value := value % LIMIT,
       supply := value % LIMIT + |Resumed(s.core, WAITERS)|, returned := 0, wraps := 0, stray := 0)
  }

  /** Somebody else calls rt_thread_resume on a waiting thread. */
  function Roused(s: Sem, t: Tid): Sem
    requires Knows(s, t)
  {
    s.(core := Rouse(s.core, t), stray := s.stray + 1)
  }

  datatype Step =
    | DoTake(t: Tid, time: int) | DoTryTake | DoRelease | DoContinue(t: Tid) | DoExpire(t: Tid) | DoRouse(t: Tid)
    | DoReset(value: nat) | DoAside(o: Other)

  predicate Enabled(s: Sem, step: Step) {
    && Shape(s)
    && match step
       case DoTake(t, _) => Knows(s, t) && s.core.sys.tcb[t].stat == Ready && t !in s.core.blocked
       case DoContinue(t) => Knows(s, t) && s.core.sys.tcb[t].stat == Ready && t in s.core.blocked
       case DoExpire(t) => Knows(s, t) && s.core.sys.tcb[t].armed
       case DoRouse(t) => Knows(s, t) && s.core.sys.tcb[t].stat == Suspended && t in s.core.blocked
       case DoAside(o) => OtherEnabled(s.core, o)
       case _ => true
  }

  ghost function Next(s: Sem, step: Step): Sem
    requires Enabled(s, step)
  {
    match step
    case DoTake(t, time) => Take(s, t, time).0
    case DoTryTake => TryTake(s).0
    case DoRelease => Release(s)
    case DoContinue(t) => Continue(s, t).0
    case DoExpire(t) => s.(core := Expire(s.core, t))
    case DoRouse(t) => Roused(s, t)
    case DoReset(value) => Reset(s, value)
    case DoAside(o) => s.(core := Aside(s.core, o))
  }

  ghost predicate EnabledRun(s: Sem, steps: seq<Step>)
    decreases |steps|
  {
    steps == [] || (Enabled(s, steps[0]) && EnabledRun(Next(s, steps[0]), steps[1..]))
  }

  ghost function Run(s: Sem, steps: seq<Step>): Sem
    requires EnabledRun(s, steps)
    decreases |steps|
  {
    if steps == [] then s else Run(Next(s, steps[0]), steps[1..])
  }

  /** rt_sem_init; the value is kept in 16 bits. */
  function Create(sys: Sys, flag: Flag, value: nat): Sem {
    Sem(Core(sys.(wait := [[]]), map[]), flag, value % LIMIT, value % LIMIT, 0, 0, 0)
  }
}

/** No token is lost or made up. */
module SemaphoreLemmas {
  import opened Base
  import opened Threads
  import opened ThreadLemmas
  import opened Waiters
  import opened WaiterEffects
  import opened SemaphoreSpec

  /** Every token put in, and every one a stray thread makes up, is in the value, has been handed to
      a take that returned, or belongs to a resumed thread; nobody waits beside a token. */
  ghost predicate Inv(s: Sem) {
    && CoreInv(s.core) && |s.core.sys.wait| == 1 && s.value < LIMIT && s.wraps >= 0
    && (s.value > 0 ==> s.core.sys.wait[WAITERS] == [])
    && s.supply + s.stray == s.value + s.wraps * LIMIT + s.returned + |Resumed(s.core, WAITERS)|
  }

  lemma InvShape(s: Sem)
    requires CoreInv(s.core) && |s.core.sys.wait| == 1
    ensures Shape(s) && forall t :: t in s.core.sys.tcb ==> Knows(s, t)
  {
    CoreRanges(s.core);
  }

  lemma Counted(s: Sem)
    requires Inv(s)
    ensures Shape(s) && s.value < LIMIT && forall t :: t in s.core.sys.tcb ==> Knows(s, t)
  {
    InvShape(s);
    hide CoreInv, Resumed;
  }

  lemma TakeKeeps(s: Sem, t: Tid, time: int)
    requires Inv(s) && Enabled(s, DoTake(t, time))
    ensures Inv(Take(s, t, time).0)
  {
    hide CoreInv, Resumed, Enter, InRange;
    if s.value == 0 && time != 0 {
      EnterCore(s.core, t, s.flag, time > 0);
    }
  }

  lemma EnterCore(c: Core, t: Tid, flag: Flag, timed: bool)
    requires CoreInv(c) && |c.sys.wait| == 1 && t in c.sys.tcb && c.sys.tcb[t].stat == Ready
    requires t !in c.blocked
    ensures var c' := Enter(c, WAITERS, t, flag, timed);
      CoreInv(c') && |c'.sys.wait| == 1 && Resumed(c', WAITERS) == Resumed(c, WAITERS)
  {
    hide CoreInv, Resumed, Enter, Joined;
    EnterKeeps(c, WAITERS, t, flag, timed);
    NotResumed(c, WAITERS, t);
    JoinedLength(c.sys.wait, Enter(c, WAITERS, t, flag, timed).sys.wait, WAITERS, t);
    assert Resumed(c, WAITERS) - {t} == Resumed(c, WAITERS);
  }

  lemma WakeCore(c: Core)
    requires CoreInv(c) && |c.sys.wait| == 1
    ensures InRange(c.sys, c.sys.wait[WAITERS])
    ensures var c' := Wake(c, WAITERS);
      && CoreInv(c') && |c'.sys.wait| == 1
      && (c.sys.wait[WAITERS] != [] ==> |Resumed(c', WAITERS)| == |Resumed(c, WAITERS)| + 1)
  {
    hide CoreInv, Resumed, Wake, Sleeper, InRange;
    WakeKeeps(c, WAITERS);
    if c.sys.wait[WAITERS] != [] {
      PoppedLength(c.sys.wait, Wake(c, WAITERS).sys.wait, WAITERS);
      hide Popped;
      var t := c.sys.wait[WAITERS][0];
      assert |Resumed(c, WAITERS) + {t}| == |Resumed(c, WAITERS)| + 1;
    }
  }

  lemma ReleaseKeeps(s: Sem)
    requires Inv(s)
    ensures Shape(s) && Inv(Release(s))
  {
    hide CoreInv, Resumed, Wake, InRange;
    InvShape(s);
    WakeCore(s.core);
  }

  lemma ContinueKeeps(s: Sem, t: Tid)
    requires Inv(s) && t in s.core.blocked && t in s.core.sys.tcb && s.core.sys.tcb[t].stat == Ready
    ensures Knows(s, t) && Inv(Continue(s, t).0)
  {
    hide CoreInv, Resumed, InRange;
    InvShape(s);
    LeaveKeeps(s.core, t);
    CallerResumed(s.core, t);
    var r := Resumed(s.core, WAITERS);
    if t in r { assert |r - {t}| == |r| - 1; } else { assert r - {t} == r; }
  }

  lemma CallerResumed(c: Core, t: Tid)
    requires CoreInv(c) && |c.sys.wait| == 1 && t in c.blocked && t in c.sys.tcb && c.sys.tcb[t].stat == Ready
    ensures t in Resumed(c, WAITERS) <==> c.sys.tcb[t].error == EOK
  {
    assert Caller(c.sys.tcb, c.sys.wait, c.blocked, t);
  }

  lemma SemExpireKeeps(s: Sem, t: Tid)
    requires Inv(s) && t in s.core.sys.tcb && s.core.sys.tcb[t].armed
    ensures Knows(s, t) && s.core.sys.tcb[t].stat == Suspended && Inv(s.(core := Expire(s.core, t)))
  {
    assert Without([], t) == [];
    hide CoreInv, Resumed, Timeout, Without, InRange;
    InvShape(s);
    ArmedSuspended(s.core, t);
    ExpireKeeps(s.core, t);
  }

  lemma RouseCore(c: Core, t: Tid)
    requires CoreInv(c) && |c.sys.wait| == 1 && t in c.blocked && t in c.sys.tcb && c.sys.tcb[t].stat == Suspended
    ensures c.sys.tcb[t].prio < |c.sys.ready| && c.sys.wait[WAITERS] != []
    ensures var c' := Rouse(c, t);
      && CoreInv(c') && |c'.sys.wait| == 1 && t in c'.sys.tcb && c'.sys.tcb[t].error == EOK
      && c'.sys.tcb[t].prio == c.sys.tcb[t].prio
      && Resumed(c', WAITERS) == Resumed(c, WAITERS) + {t} && |Resumed(c', WAITERS)| == |Resumed(c, WAITERS)| + 1
  {
    hide CoreInv, Resumed, Rouse, Without;
    SleeperError(c, t);
    RouseKeeps(c, t);
    WaitsHere(c, t);
    assert |Resumed(c, WAITERS) + {t}| == |Resumed(c, WAITERS)| + 1;
  }

  lemma WaitsHere(c: Core, t: Tid)
    requires CoreInv(c) && |c.sys.wait| == 1 && t in c.blocked && t in c.sys.tcb && c.sys.tcb[t].stat == Suspended
    ensures c.blocked[t] == WAITERS && t !in Resumed(c, WAITERS)
  {
    SleeperError(c, t);
    hide CoreInv;
  }

  lemma RouseInv(s: Sem, t: Tid)
    requires Inv(s) && t in s.core.sys.tcb && s.core.sys.tcb[t].stat == Suspended && t in s.core.blocked
    ensures s.value == 0 && Knows(s, t) && Inv(Roused(s, t))
    ensures Resumed(Roused(s, t).core, WAITERS) == Resumed(s.core, WAITERS) + {t}
  {
    hide CoreInv, Resumed, Rouse;
    RouseCore(s.core, t);
  }

  lemma ResetKeeps(s: Sem, value: nat)
    requires Inv(s)
    ensures Shape(s) && Inv(Reset(s, value))
  {
    InvShape(s);
    KickAllKeeps(s.core, WAITERS);
    hide CoreInv, Resumed, KickAll, InRange;
  }

  lemma SemAsideKeeps(s: Sem, o: Other)
    requires Inv(s) && OtherEnabled(s.core, o)
    ensures Inv(s.(core := Aside(s.core, o)))
  {
    hide CoreInv, Resumed, Aside, OtherEnabled;
    AsideKeeps(s.core, o);
  }

  lemma NextKeeps(s: Sem, step: Step)
    requires Inv(s) && Enabled(s, step)
    ensures Inv(Next(s, step))
  {
    hide CoreInv, Resumed, Take, Release, Continue, Expire, Roused, Reset, Aside, InRange;
    match step
    case DoTake(t, time) => TakeKeeps(s, t, time);
    case DoTryTake =>
    case DoRelease => ReleaseKeeps(s);
    case DoContinue(t) => ContinueKeeps(s, t);
    case DoExpire(t) => SemExpireKeeps(s, t);
    case DoRouse(t) => RouseInv(s, t);
    case DoReset(value) => ResetKeeps(s, value);
    case DoAside(o) => SemAsideKeeps(s, o);
  }

  lemma CreateInv(sys: Sys, flag: Flag, value: nat)
    requires Placed(sys)
    ensures Inv(Create(sys, flag, value))
  {
    var c := Create(sys, flag, value).core;
    hide Placed;
    NobodyWaits(sys, [[]]);
    assert Resumed(c, WAITERS) == {};
  }

  lemma {:induction false} RunKeeps(s: Sem, steps: seq<Step>)
    requires Inv(s) && EnabledRun(s, steps)
    ensures Inv(Run(s, steps))
    decreases |steps|
  {
    hide Inv, Next, Enabled;
    if steps != [] {
      NextKeeps(s, steps[0]);
      RunKeeps(Next(s, steps[0]), steps[1..]);
    }
  }

  // ---- What one section does -----------------------------------------------------------------

  /** The first section of a take: with a token there it succeeds, whatever the timeout, and takes just
      this token; without one it gives up at once if it may not wait, and sleeps otherwise, with its
      timer on if there is a timeout. */
  lemma TakeOutcome(s: Sem, t: Tid, time: int)
    requires Inv(s) && Enabled(s, DoTake(t, time))
    ensures var s', o := Next(s, DoTake(t, time)), Take(s, t, time).1;
      && (s.value > 0 ==> o == Returned(EOK) && s' == s.(value := s.value - 1, returned := s.returned + 1))
      && (s.value == 0 && time == 0 ==> o == Returned(ETIMEOUT) && s' == s)
      && (s.value == 0 && time != 0 ==> o == Blocked && s' == s.(core := s'.core)
                                        && Slept(s.core, s'.core, WAITERS, t, s.flag, time > 0))
  {
    hide CoreInv, Resumed, Enter, InRange, Slept;
    if s.value == 0 && time != 0 { EnterDoes(s.core, WAITERS, t, s.flag, time > 0); }
  }

  /** A take without waiting by an interrupt handler. */
  lemma TryTakeOutcome(s: Sem)
    requires Inv(s) && Enabled(s, DoTryTake)
    ensures var s', o := Next(s, DoTryTake), TryTake(s).1;
      && (s.value > 0 ==> o == Returned(EOK) && s' == s.(value := s.value - 1, returned := s.returned + 1))
      && (s.value == 0 ==> o == Returned(ETIMEOUT) && s' == s)
  {
    hide CoreInv, Resumed, InRange;
  }

  /** A take that goes on after rt_schedule reports what it finds in its error code and takes no token
      from the value: a success was handed to it. */
  lemma ContinueOutcome(s: Sem, t: Tid)
    requires Inv(s) && Enabled(s, DoContinue(t))
    ensures var s', e := Next(s, DoContinue(t)), s.core.sys.tcb[t].error;
      && Continue(s, t).1 == Returned(e) && Left(s.core, s'.core, t)
      && s' == s.(core := s'.core, returned := if e == EOK then s.returned + 1 else s.returned)
  {
    hide CoreInv, Resumed, InRange;
  }

  /** A release makes the first waiter READY and leaves the value, or with nobody waiting puts the token
      into the value, which has 16 bits. */
  lemma ReleaseOutcome(s: Sem)
    requires Inv(s) && Enabled(s, DoRelease)
    ensures var s' := Next(s, DoRelease);
      && WokeFirst(s.core, s'.core, WAITERS) && s'.supply == s.supply + 1
      && (s.core.sys.wait[WAITERS] != [] ==> s'.value == s.value)
      && (s.core.sys.wait[WAITERS] == [] ==> s'.value == (s.value + 1) % 0x1_0000)
      && s' == s.(core := s'.core, value := s'.value, supply := s'.supply, wraps := s'.wraps)
  {
    hide CoreInv, Resumed, InRange, Wake;
    WakeUp(s.core, WAITERS);
  }

  /** A reset sends all waiters away with -RT_ERROR and sets the value to the low 16 bits of the argument. */
  lemma ResetOutcome(s: Sem, v: nat)
    requires Inv(s) && Enabled(s, DoReset(v))
    ensures var s' := Next(s, DoReset(v));
      AllKicked(s.core, s'.core, WAITERS) && s'.value == v % 0x1_0000 && s'.flag == s.flag
  {
    hide CoreInv, Resumed, InRange, KickAll, AllKicked;
    KickDoes(s.core, WAITERS);
  }

  /** A timeout makes the waiter READY with -RT_ETIMEOUT, somebody else's rt_thread_resume without an
      error; neither touches the value. */
  lemma EndOfWait(s: Sem, t: Tid)
    requires Inv(s)
    ensures Enabled(s, DoExpire(t)) ==> var s' := Next(s, DoExpire(t));
      s' == s.(core := s'.core) && BackReady(s.core, s'.core, t, ETIMEOUT)
    ensures Enabled(s, DoRouse(t)) ==> var s' := Next(s, DoRouse(t));
      s' == s.(core := s'.core, stray := s.stray + 1) && BackReady(s.core, s'.core, t, s.core.sys.tcb[t].error)
  {
    hide CoreInv, Resumed, InRange, Expire, Rouse, BackReady;
    if Enabled(s, DoExpire(t)) { ExpireDoes(s.core, t); }
    if Enabled(s, DoRouse(t)) { RouseDoes(s.core, t); }
  }

  /** What other threads do leaves the semaphore alone. */
  lemma AsideOutcome(s: Sem, o: Other)
    requires Inv(s) && Enabled(s, DoAside(o))
    ensures var s' := Next(s, DoAside(o)); s' == s.(core := s'.core) && Meanwhile(s.core, s'.core, o)
  {
    hide CoreInv, Resumed, Aside, OtherEnabled, Meanwhile;
    AsideDoes(s.core, o);
  }

  /** A new semaphore holds the value cut to 16 bits, and nobody waits. */
  lemma CreateOutcome(sys: Sys, flag: Flag, value: nat)
    ensures var s := Create(sys, flag, value);
      && s.value < LIMIT && (value < LIMIT ==> s.value == value) && (value - s.value) % LIMIT == 0
      && s.flag == flag && s.core.blocked == map[] && s.core.sys == sys.(wait := [[]])
  {}

  // ---- When the plain sum holds --------------------------------------------------------------

  /** The tokens put in are the value, the takes that returned and the threads on their way to one. */
  ghost predicate Plain(s: Sem) {
    s.supply == s.value + s.returned + |Resumed(s.core, WAITERS)|
  }

  /** A release loses tokens exactly when it finds 65535 of them. */
  lemma ReleaseWraps(s: Sem)
    requires Inv(s) && Shape(s)
    ensures Release(s).wraps != s.wraps <==> s.value == LIMIT - 1
  {
    hide CoreInv, Resumed, Wake, InRange;
  }

  lemma PlainExactly(s: Sem)
    requires Inv(s)
    ensures Plain(s) <==> s.wraps * LIMIT == s.stray
  {
    hide CoreInv, Resumed;
  }

  /** How a step changes the two counts that separate the plain sum from the full account. */
  lemma StepCounts(s: Sem, step: Step)
    requires Inv(s) && Enabled(s, step) && !step.DoReset?
    ensures Next(s, step).stray == s.stray + (if step.DoRouse? then 1 else 0)
    ensures Next(s, step).wraps == s.wraps + (if step.DoRelease? && s.value == LIMIT - 1 then 1 else 0)
  {
    if step.DoRelease? { ReleaseWraps(s); }
    hide CoreInv, Resumed, Expire, Aside, Rouse, Enter, Leave, Wake, OtherEnabled, InRange;
  }

  /** From a state in which the plain sum holds, a step keeps it if and only if it is neither a release
      that finds 65535 tokens nor a resume of a waiting thread from outside. */
  lemma PlainStep(s: Sem, step: Step)
    requires Inv(s) && Enabled(s, step) && Plain(s)
    ensures Plain(Next(s, step)) <==> !step.DoRouse? && !(step.DoRelease? && s.value == LIMIT - 1)
  {
    NextKeeps(s, step);
    PlainExactly(s);
    PlainExactly(Next(s, step));
    hide Inv, Plain, Enabled;
    if !step.DoReset? { StepCounts(s, step); }
    else { ResetCounts(s, step.value); }
    hide Next;
  }

  lemma ResetCounts(s: Sem, value: nat)
    requires Shape(s)
    ensures Reset(s, value).stray == 0 && Reset(s, value).wraps == 0
  {
    hide Resumed, InRange;
  }

  /** What a caller knows of the steps since the last reset: the tokens put in, of which at most 65535
      are in the value, and how many waiting threads were resumed from outside. */
  datatype Account = Account(tokens: nat, rouses: nat)

  function After(a: Account, step: Step): Account {
    match step
    case DoRelease => a.(tokens := a.tokens + 1)
    case DoRouse(_) => a.(rouses := a.rouses + 1)
    case DoReset(value) => Account(value % LIMIT, 0)
    case _ => a
  }

  /** Read off the steps of a run alone. */
  function History(a: Account, steps: seq<Step>): Account
    decreases |steps|
  {
    if steps == [] then a else History(After(a, steps[0]), steps[1..])
  }

  ghost predicate Agrees(s: Sem, a: Account) {
    s.stray == a.rouses && s.value <= a.tokens && (a.tokens < LIMIT ==> s.wraps == 0)
  }

  lemma NextAgrees(s: Sem, step: Step, a: Account)
    requires Inv(s) && Enabled(s, step) && Agrees(s, a)
    ensures Agrees(Next(s, step), After(a, step))
  {
    if !step.DoReset? { StepCounts(s, step); }
    hide CoreInv, Resumed, Expire, Aside, Rouse, Enter, Leave, Wake, KickAll, OtherEnabled, InRange;
  }

  lemma {:induction false} RunAgrees(s: Sem, steps: seq<Step>, a: Account)
    requires Inv(s) && EnabledRun(s, steps) && Agrees(s, a)
    ensures Agrees(Run(s, steps), History(a, steps))
    decreases |steps|
  {
    hide Inv, Next, Enabled, Agrees, After;
    if steps != [] {
      NextKeeps(s, steps[0]);
      NextAgrees(s, steps[0], a);
      RunAgrees(Next(s, steps[0]), steps[1..], After(a, steps[0]));
    }
  }

  /** Without a reset the tokens put in are the ones the steps say. */
  lemma {:induction false} SupplyIs(s: Sem, steps: seq<Step>, a: Account)
    requires EnabledRun(s, steps) && s.supply == a.tokens && forall step :: step in steps ==> !step.DoReset?
    ensures Run(s, steps).supply == History(a, steps).tokens
    decreases |steps|
  {
    hide Enabled;
    if steps != [] {
      assert steps[0] in steps && Next(s, steps[0]).supply == After(a, steps[0]).tokens;
      hide Next, After;
      SupplyIs(Next(s, steps[0]), steps[1..], After(a, steps[0]));
    }
  }

  /** Over every run: the tokens put in, and one for each waiting thread somebody else has resumed since
      the last reset, are exactly the value, the takes that returned and the resumed threads, plus 65536
      for each time the value wrapped; and nobody waits while the value is positive. As long as fewer
      than 65536 tokens were put in since the last reset, no token is lost or made up if and only if
      nobody has resumed a waiting thread from outside since then. */
  lemma TokensConserved(sys: Sys, flag: Flag, value: nat, steps: seq<Step>)
    requires Placed(sys) && EnabledRun(Create(sys, flag, value), steps)
    ensures var s := Run(Create(sys, flag, value), steps);
      && s.supply + s.stray == s.value + s.wraps * LIMIT + s.returned + |Resumed(s.core, WAITERS)|
      && |s.core.sys.wait| == 1 && (s.value > 0 ==> s.core.sys.wait[WAITERS] == [])
    ensures var s, a := Run(Create(sys, flag, value), steps), History(Account(value % LIMIT, 0), steps);
      && s.stray == a.rouses && (a.tokens < LIMIT ==> (Plain(s) <==> a.rouses == 0))
      && ((forall step :: step in steps ==> !step.DoReset?) ==> s.supply == a.tokens)
  {
    CreateInv(sys, flag, value);
    RunKeeps(Create(sys, flag, value), steps);
    RunAgrees(Create(sys, flag, value), steps, Account(value % LIMIT, 0));
    if forall step :: step in steps ==> !step.DoReset? {
      SupplyIs(Create(sys, flag, value), steps, Account(value % LIMIT, 0));
    }
    PlainExactly(Run(Create(sys, flag, value), steps));
    hide Run, EnabledRun, CoreInv, Resumed, Plain, History;
  }

  /** 65535 tokens and one more: the value is 0 again and 65536 tokens are gone. */
  lemma WrapHappens(sys: Sys, flag: Flag)
    requires Placed(sys)
    ensures var s := Create(sys, flag, LIMIT - 1);
      && Inv(s) && Shape(s) && s.value == LIMIT - 1
      && Release(s).value == 0 && Release(s).wraps == 1 && Release(s).supply == LIMIT
  {
    CreateInv(sys, flag, LIMIT - 1);
    Counted(Create(sys, flag, LIMIT - 1));
    hide CoreInv, Resumed, InRange;
  }

  /** A waiting thread that somebody else resumes reports success although no token was there. */
  lemma StrayTakes(s: Sem, t: Tid)
    requires Inv(s) && Enabled(s, DoRouse(t))
    ensures s.value == 0 && Knows(Roused(s, t), t)
    ensures Continue(Roused(s, t), t).1 == Returned(EOK) && Continue(Roused(s, t), t).0.value == 0
  {
    hide CoreInv, Resumed, Rouse, Shape;
    RouseCore(s.core, t);
  }

  /** A timed-out take consumes no token: none is in the outcome, the value or the books. */
  lemma TimeoutTakesNothing(s: Sem, t: Tid)
    requires Inv(s) && t in s.core.sys.tcb && s.core.sys.tcb[t].armed && t in s.core.blocked
    ensures Knows(s, t)
    ensures var s1 := s.(core := Expire(s.core, t));
      && s1.value == s.value && Resumed(s1.core, WAITERS) == Resumed(s.core, WAITERS)
      && Knows(s1, t) && Continue(s1, t).1 == Returned(ETIMEOUT)
      && Continue(s1, t).0.value == s.value && Continue(s1, t).0.returned == s.returned
  {
    InvShape(s);
    ArmedSuspended(s.core, t);
    ExpireKeeps(s.core, t);
    SemExpireKeeps(s, t);
    InvShape(s.(core := Expire(s.core, t)));
    hide CoreInv, Resumed, Timeout, Without;
  }
}

/** struct rt_semaphore, updated in place. */
module Semaphore {
  import opened Threads
  import opened Waiters
  import S = SemaphoreSpec
  import opened SemaphoreSpec
  import opened SemaphoreLemmas
  import K = Kernel

  class Semaphore {
    const k: K.Kernel
    const flag: Flag
    var value: nat
    /** The list the waiting call of a thread is about. */
    var calls: map<Tid, nat>
    ghost var supply: int
    ghost var returned: int
    ghost var wraps: int
    ghost var stray: int

    ghost function View(): Sem
      reads this, k, k.rq
    {
      Sem(Core(k.View(), calls), flag, value, supply, returned, wraps, stray)
    }

    ghost predicate Valid()
      reads this, k, k.rq
    {
      k.Valid() && Inv(View())
    }

    /** rt_sem_init on a kernel with one wait list nobody waits in. */
    constructor (kernel: K.Kernel, kind: Flag, v: nat)
      requires kernel.Valid() && kernel.wait == [[]]
      ensures Valid() && k == kernel && View() == Create(kernel.View(), kind, v)
    {
      k, flag, value, calls := kernel, kind, v % LIMIT, map[];
      supply, returned, wraps, stray := v % LIMIT, 0, 0, 0;
      new;
      hide K.BitsInOrder, Inv, Placed;
      CreateInv(kernel.View(), kind, v);
    }

    /** rt_sem_take up to its rt_schedule */
    method Take(t: Tid, time: int) returns (o: Outcome)
      requires Valid() && t in k.tcb && k.tcb[t].stat == Ready && t !in calls
      modifies this, k`tcb, k`wait, k.rq
      ensures Valid() && Shape(old(View())) && Knows(old(View()), t)
      ensures View() == S.Take(old(View()), t, time).0 && o == S.Take(old(View()), t, time).1
    {
      hide K.BitsInOrder, Inv, Placed, InRange, Threads.Block;
      Counted(View());
      TakeKeeps(View(), t, time);
      if value > 0 {
        value := value - 1;
        returned := returned + 1;
        return Returned(EOK);
      }
      if time == 0 {
        return Returned(ETIMEOUT);
      }
      k.Block(WAITERS, t, flag, time > 0);
      calls := calls[t := WAITERS];
      return Blocked;
    }

    /** A waiting thread goes on after rt_schedule. */
    method Continue(t: Tid) returns (o: Outcome)
      requires Valid() && t in k.tcb && k.tcb[t].stat == Ready && t in calls
      modifies this`calls, this`returned
      ensures Valid() && Knows(old(View()), t)
      ensures View() == S.Continue(old(View()), t).0 && o == S.Continue(old(View()), t).1
    {
      hide K.BitsInOrder, Inv, Placed;
      ContinueKeeps(View(), t);
      calls := calls - {t};
      if k.tcb[t].error != EOK {
        return Returned(k.tcb[t].error);
      }
      returned := returned + 1;
      return Returned(EOK);
    }

    /** rt_sem_release up to its rt_schedule */
    method Release()
      requires Valid()
      modifies this, k`tcb, k`wait, k.rq
      ensures Valid() && Shape(old(View())) && View() == S.Release(old(View()))
    {
      hide K.BitsInOrder, Inv, Placed, InRange, Threads.WakeFirst;
      ReleaseKeeps(View());
      Counted(View());
      supply := supply + 1;
      if k.wait[WAITERS] != [] {
        k.WakeFirst(WAITERS);
      } else {
        if value + 1 == LIMIT {
          wraps := wraps + 1;
        }
        value := Plus(value);
      }
    }

    /** The timer of a waiting thread fires. */
    method Expire(t: Tid)
      requires Valid() && t in k.tcb && k.tcb[t].armed
      modifies k`tcb, k`wait, k.rq
      ensures Valid() && Knows(old(View()), t)
      ensures View() == old(View()).(core := Waiters.Expire(old(View()).core, t))
    {
      hide K.BitsInOrder, Inv, Placed;
      SemExpireKeeps(View(), t);
      k.Timeout(t);
    }

    /** rt_thread_resume on a waiting thread, called by somebody else */
    method Rouse(t: Tid)
      requires Valid() && t in k.tcb && k.tcb[t].stat == Suspended && t in calls
      modifies this`stray, k`tcb, k`wait, k.rq
      ensures Valid() && Knows(old(View()), t) && View() == Roused(old(View()), t)
    {
      hide K.BitsInOrder, Inv, Placed;
      RouseInv(View(), t);
      stray := stray + 1;
      k.Resume(t);
    }

    /** rt_sem_control with RT_IPC_CMD_RESET */
    method Reset(v: nat)
      requires Valid()
      modifies this, k`tcb, k`wait, k.rq
      ensures Valid() && Shape(old(View())) && View() == S.Reset(old(View()), v)
    {
      hide K.BitsInOrder, Inv, Placed, InRange, Threads.ResumeAll, Resumed;
      Counted(View());
      ResetKeeps(View(), v);
      supply, returned, wraps, stray := v % LIMIT + |Resumed(View().core, WAITERS)|, 0, 0, 0;
      k.ResumeAll(WAITERS);
      value := v % LIMIT;
    }
  }
}
