/** What the steps of the threads and the timers together do, and rt_thread_sleep over whole runs: a
    thread that sleeps for k ticks and that nobody resumes is READY again exactly k ticks later. */
module TimeoutRuns {
  import opened Base
  import opened Threads
  import opened ThreadEffects
  import opened ThreadLemmas
  import opened Waiters
  import opened WaiterEffects
  import opened Timeouts
  import T = TimerSpec
  import L = TimerLemmas

  // ---- One step ------------------------------------------------------------------------------

  /** Only the timer of t has changed; it is in the list for k ticks from now. */
  ghost predicate TimerStarted(j: Timed, j': Timed, t: Tid, k: int) {
    && t in j'.wheel.list && t in j'.wheel.plan && j'.wheel.now == j.wheel.now
    && j'.wheel.plan[t].since == j.wheel.now && j'.wheel.plan[t].due == j.wheel.now + k
    && forall u: Tid :: u != t ==> SameTimer(j.wheel, j'.wheel, u)
  }

  ghost predicate TimerStopped(j: Timed, j': Timed, t: Tid) {
    t !in j'.wheel.list && j'.wheel.now == j.wheel.now && forall u: Tid :: u != t ==> SameTimer(j.wheel, j'.wheel, u)
  }

  /** A blocking call: the thread sleeps in list q; for a positive timeout its timer runs for k ticks, and
      otherwise no timer is touched. */
  lemma WaitOutcome(j: Timed, q: nat, t: Tid, flag: Flag, k: int)
    requires Inv(j) && Enabled(j, DoWait(q, t, flag, k))
    ensures var j' := Next(j, DoWait(q, t, flag, k));
      && Slept(j.core, j'.core, q, t, flag, k > 0)
      && if k > 0 then TimerStarted(j, j', t, k) else j'.wheel == j.wheel
  {
    Unarmed(j, t);
    CoreOf(j);
    hide Inv, CoreInv, T.Act, Slept, SameTimer;
    EnterDoes(j.core, q, t, flag, k > 0);
    if k > 0 { StartsTimer(j, t, k); }
  }

  /** A call that has been resumed and finds nothing sleeps again in its list, for what is left of its timeout;
      a call without one waits on without a timer. */
  lemma AgainOutcome(j: Timed, t: Tid, flag: Flag)
    requires Inv(j) && Enabled(j, DoAgain(t, flag))
    ensures var j' := Next(j, DoAgain(t, flag));
      && t in j.core.blocked
      && Slept(j.core, j'.core, j.core.blocked[t], t, flag, t in j.calls)
      && if t in j.calls then Timeouts.Left(j, t) > 0 && TimerStarted(j, j', t, Timeouts.Left(j, t)) else j'.wheel == j.wheel
  {
    Unarmed(j, t);
    CoreOf(j);
    if t in j.calls { TimedLeft(j, t); } else { Forever(j, t); }
    hide Inv, CoreInv, T.Act, Slept, SameTimer, T.Shape, Timeouts.Left;
    EnterDoes(j.core, j.core.blocked[t], t, flag, t in j.calls);
    if t in j.calls { StartsTimer(j, t, Timeouts.Left(j, t)); }
  }

  /** The call of t is over, and nothing else. */
  lemma ReturnOutcome(j: Timed, t: Tid)
    requires Enabled(j, DoReturn(t))
    ensures var j' := Next(j, DoReturn(t));
      WaiterEffects.Left(j.core, j'.core, t) && t !in j'.calls && t !in j'.first && j'.wheel == j.wheel
      && (forall u :: u != t ==> (u in j'.calls <==> u in j.calls) && (u in j.calls ==> j'.calls[u] == j.calls[u]))
  {}

  lemma StartsTimer(j: Timed, t: Tid, k: int)
    requires Inv(j) && T.Shape(j.wheel) && t in j.core.sys.tcb && t !in j.wheel.list && 0 <= k < T.HALF && t in j.wheel.timers
    ensures TimerStarted(j, j.(wheel := T.Act(j.wheel, T.Start(t, k))), t, k)
  {
    hide CoreInv, Matched, L.Between, T.Act, SameTimer, T.Shape;
    NotPeriodic(j, t);
    StartOwn(j.wheel, t, k);
    forall u: Tid | u != t ensures SameTimer(j.wheel, T.Act(j.wheel, T.Start(t, k)), u) {
      ActOthers(j.wheel, T.Start(t, k), u);
    }
  }

  lemma NotPeriodic(j: Timed, t: Tid)
    requires Inv(j) && t in j.core.sys.tcb
    ensures t in j.wheel.timers && !j.wheel.timers[t].periodic
  {
    MatchedStep(j, t);
    hide CoreInv, Matched, L.Between, CallOk;
  }

  /** rt_thread_sleep: the thread leaves its ready list for no other, and its timer runs for k ticks. */
  lemma SleepOutcome(j: Timed, t: Tid, k: int)
    requires Inv(j) && Enabled(j, DoNap(t, k))
    ensures var j' := Next(j, DoNap(t, k)); var c := j.core.sys.tcb[t];
      && c.prio < |j.core.sys.ready| && j'.core.blocked == j.core.blocked
      && j'.core.sys == j.core.sys.(tcb := j.core.sys.tcb[t := c.(stat := Suspended, armed := true)],
                                    ready := j.core.sys.ready[c.prio := Without(j.core.sys.ready[c.prio], t)])
      && TimerStarted(j, j', t, k)
  {
    hide Inv, CoreInv, T.Act, SameTimer, TimerStarted, Sleep, InStep, T.Shape, Without;
    Unarmed(j, t);
    StartsTimer(j, t, k);
    CoreOf(j);
    DozeDoes(j.core, t);
    NapIs(j, t, k);
  }

  lemma NapIs(j: Timed, t: Tid, k: int)
    requires t in j.core.sys.tcb && T.Shape(j.wheel) && t in j.wheel.timers
    requires TimerStarted(j, j.(wheel := T.Act(j.wheel, T.Start(t, k))), t, k)
    ensures TimerStarted(j, Nap(j, t, k), t, k)
  {
    hide T.Act, SameTimer, Sleep, T.Shape;
  }

  lemma DozeDoes(c: Core, t: Tid)
    requires CoreInv(c) && t in c.sys.tcb && c.sys.tcb[t].stat == Ready
    ensures var x := c.sys.tcb[t];
      && x.prio < |c.sys.ready|
      && Sleep(c.sys, t) == c.sys.(tcb := c.sys.tcb[t := x.(stat := Suspended, armed := true)],
                                   ready := c.sys.ready[x.prio := Without(c.sys.ready[x.prio], t)])
  {
    hide Placed, CallsOk, Sleep, Without;
    SleepDoes(c.sys, t);
  }

  lemma UnarmStops(j: Timed, t: Tid)
    requires Inv(j) && t in j.core.sys.tcb
    ensures T.Shape(j.wheel) && TimerStopped(j, j.(wheel := Unarm(j.wheel, t)), t)
  {
    InvMid(j);
    MatchedStep(j, t);
    hide Inv, CoreInv, Matched, WheelOk, Unarm, SameTimer;
    StopOwn(j.wheel, t, None);
    forall u: Tid | u != t ensures SameTimer(j.wheel, Unarm(j.wheel, t), u) { UnarmOthers(j.wheel, t, u); }
  }

  /** An object that becomes available: its first waiter is READY and its timer is off. */
  lemma ServeOutcome(j: Timed, q: nat)
    requires Inv(j) && Enabled(j, DoServe(q))
    ensures var j' := Next(j, DoServe(q));
      && WokeFirst(j.core, j'.core, q)
      && if j.core.sys.wait[q] == [] then j'.wheel == j.wheel else TimerStopped(j, j', j.core.sys.wait[q][0])
  {
    CoreOf(j);
    if j.core.sys.wait[q] != [] {
      WaitsOnce(j.core, q, j.core.sys.wait[q][0]);
      UnarmStops(j, j.core.sys.wait[q][0]);
    }
    hide Inv, CoreInv, Wake, WokeFirst, Unarm, SameTimer, InRange;
    WakeUp(j.core, q);
  }

  /** A reset: all waiters are READY with an error and no timer of theirs runs; other timers stay. */
  lemma ResetOutcome(j: Timed, q: nat)
    requires Inv(j) && Enabled(j, DoReset(q))
    ensures var j' := Next(j, DoReset(q));
      && AllKicked(j.core, j'.core, q) && j'.wheel.now == j.wheel.now
      && (forall t :: t in j.core.sys.wait[q] ==> t !in j'.wheel.list)
      && (forall u: Tid :: u !in j.core.sys.wait[q] ==> SameTimer(j.wheel, j'.wheel, u))
  {
    hide Inv, CoreInv, KickAll, AllKicked, UnarmAll, SameTimer, InRange, T.Shape;
    CoreOf(j);
    ResetTimers(j, q);
    KickDoes(j.core, q);
  }

  lemma ResetTimers(j: Timed, q: nat)
    requires Inv(j) && q < |j.core.sys.wait|
    ensures T.Shape(j.wheel)
    ensures var l := j.core.sys.wait[q]; var w := UnarmAll(j.wheel, l);
      && w.now == j.wheel.now && (forall t :: t in l ==> t !in w.list)
      && (forall u: Tid :: u !in l ==> SameTimer(j.wheel, w, u))
  {
    InvMid(j);
    hide Inv, Mid, CoreInv, WheelOk, UnarmAll, SameTimer, L.Last, NoDup;
    WheelIs(j, None);
    var l := j.core.sys.wait[q];
    UnarmAllWheel(j.wheel, l, None);
    forall t | t in l ensures t !in UnarmAll(j.wheel, l).list {
      WaitsOnce(j.core, q, t);
      FiredApart(j, t, None);
      UnarmAllOwn(j.wheel, l, t, None);
    }
    forall u: Tid | u !in l ensures SameTimer(j.wheel, UnarmAll(j.wheel, l), u) { UnarmAllOther(j.wheel, l, u); }
  }

  /** rt_thread_resume from outside: the thread is READY with its error as it was, and its timer is off. */
  lemma StirOutcome(j: Timed, t: Tid)
    requires Inv(j) && Enabled(j, DoStir(t))
    ensures var j' := Next(j, DoStir(t));
      BackReady(j.core, j'.core, t, j.core.sys.tcb[t].error) && TimerStopped(j, j', t)
  {
    CoreOf(j);
    UnarmStops(j, t);
    hide Inv, CoreInv, Rouse, BackReady, Unarm, SameTimer;
    RouseDoes(j.core, t);
  }

  lemma AsideOutcome(j: Timed, o: Other)
    requires Inv(j) && Enabled(j, DoAside(o))
    ensures var j' := Next(j, DoAside(o)); j' == j.(core := j'.core) && Meanwhile(j.core, j'.core, o)
  {
    CoreOf(j);
    hide Inv, CoreInv, Aside, OtherEnabled, Meanwhile;
    AsideDoes(j.core, o);
  }

  lemma ErrorOutcome(j: Timed, t: Tid, e: Err)
    requires Inv(j) && Enabled(j, DoError(t, e))
    ensures var j' := Next(j, DoError(t, e)); j' == j.(core := j'.core) && Flagged(j.core, j'.core, t, e)
  {
    FailDoes(j.core, t, e);
  }

  // ---- What a section does to one sleeping thread --------------------------------------------

  /** The tick a plan fires at: its due tick, or the next one for a timer started with 0. */
  function FiringTick(p: T.Plan): int {
    if L.Late(p) then p.due + 1 else p.due
  }

  /** Thread t sleeps with its timer running as planned. */
  ghost predicate Slumbers(j: Timed, t: Tid, p: T.Plan) {
    && t in j.core.sys.tcb && j.core.sys.tcb[t].stat == Suspended && j.core.sys.tcb[t].armed
    && t in j.wheel.plan && j.wheel.plan[t] == p
  }

  predicate StoppedBefore(e: Option<T.Event>, p: T.Plan) {
    e.Some? && e.value.Stopped? && (e.value.at < FiringTick(p) || (e.value.at == FiringTick(p) && e.value.inside))
  }

  /** It is READY since its timer fired, on time; or, unless it is `alone`, since somebody resumed it before. */
  ghost predicate Awake(j: Timed, t: Tid, p: T.Plan, alone: bool) {
    && t in j.core.sys.tcb && j.core.sys.tcb[t].stat == Ready
    && var last := L.Last(j.wheel.log, t);
       || (last == Some(T.Fired(t, p, FiringTick(p))) && FiringTick(p) <= j.wheel.now)
       || (!alone && StoppedBefore(last, p))
  }

  ghost predicate Sleeps(j: Timed, t: Tid, p: T.Plan, alone: bool) {
    Slumbers(j, t, p) || Awake(j, t, p, alone)
  }

  /** What a section may do to thread t: nothing, or resume it when it sleeps, because its timer is due or,
      unless it is `alone`, because somebody wants it to. */
  ghost predicate Touches(j: Timed, j': Timed, t: Tid, alone: bool) {
    && t in j.core.sys.tcb && t in j'.core.sys.tcb && j'.wheel.now >= j.wheel.now
    && var c, c' := j.core.sys.tcb[t], j'.core.sys.tcb[t];
       || (c'.stat == c.stat && c'.armed == c.armed && SameTimer(j.wheel, j'.wheel, t))
       || (c.stat == Suspended && c'.stat == Ready && (c.armed ==>
             && t in j.wheel.plan
             && var last := L.Last(j'.wheel.log, t);
                || (last == Some(T.Fired(t, j.wheel.plan[t], j.wheel.now)) && L.OnTime(last.value))
                || (!alone && last == Some(T.Stopped(t, j.wheel.now, j.wheel.checking)))))
  }

  /** A timer in the list has not missed its tick. */
  lemma NotMissed(j: Timed, t: Tid, p: T.Plan, fired: Option<nat>)
    requires Mid(j, fired) && Slumbers(j, t, p)
    ensures j.wheel.now < FiringTick(p) || (j.wheel.checking && j.wheel.now == FiringTick(p))
  {
    MatchedStep(j, t);
    hide CoreInv, Matched, NoDup, L.InOrder, L.TimersOk, L.LogOk, L.Ripe;
    assert t in j.wheel.list;
    assert L.Good(j.wheel, fired);
    assert L.Pending(j.wheel.timers, j.wheel.plan, j.wheel.now, t);
  }

  lemma TouchesSleep(j: Timed, j': Timed, t: Tid, p: T.Plan, alone: bool, fired: Option<nat>)
    requires Mid(j, fired) && Sleeps(j, t, p, alone) && Touches(j, j', t, alone)
    ensures Sleeps(j', t, p, alone)
  {
    hide Mid, L.Last;
    if Slumbers(j, t, p) { NotMissed(j, t, p, fired); }
  }

  lemma TouchesBoth(j: Timed, j': Timed, t: Tid)
    requires t in j.core.sys.tcb && j'.core == j.core && SameTimer(j.wheel, j'.wheel, t)
    ensures Touches(j, j', t, true)
  {
    hide L.Last;
  }

  /** t is in no wait list when it is in no call. */
  lemma NotWaiting(c: Core, q: nat, t: Tid)
    requires CoreInv(c) && q < |c.sys.wait| && t in c.sys.wait[q]
    ensures t in c.blocked && t in c.sys.tcb && c.sys.tcb[t].stat == Suspended
  {
    hide Placed, Caller;
    assert Sleeper(c.sys.tcb, c.blocked, q, t);
  }

  lemma ResumedTouches(j: Timed, j': Timed, t: Tid, fired: Option<nat>)
    requires Mid(j, fired) && t in j.core.sys.tcb && j.core.sys.tcb[t].stat == Suspended && t in j'.core.sys.tcb
    requires j'.core.sys.tcb[t].stat == Ready && T.Shape(j.wheel) && j'.wheel.now == j.wheel.now
    requires t in j.wheel.list ==> L.Last(j'.wheel.log, t) == Some(T.Stopped(t, j.wheel.now, j.wheel.checking))
    ensures Touches(j, j', t, false)
  {
    MatchedStep(j, t);
    hide CoreInv, WheelOk, Matched, L.Last, L.OnTime;
    if j.core.sys.tcb[t].armed { Planned(j.wheel, t, fired); }
  }

  lemma Planned(w: T.Wheel, t: Tid, fired: Option<nat>)
    requires WheelOk(w, fired) && t in w.list
    ensures t in w.plan && t in w.timers
  {
    hide NoDup, L.InOrder, L.TimersOk, L.LogOk, L.Ripe;
    assert L.Good(w, fired);
    assert L.Pending(w.timers, w.plan, w.now, t);
  }

  lemma FiredApart(j: Timed, t: Tid, fired: Option<nat>)
    requires Mid(j, fired) && t in j.core.sys.tcb
    ensures t in j.wheel.timers && fired != Some(t)
  {
    MatchedStep(j, t);
    hide CoreInv, WheelOk, Matched;
  }

  lemma UnarmTouches(j: Timed, core: Core, u: Tid, t: Tid, fired: Option<nat>)
    requires Mid(j, fired) && T.Shape(j.wheel) && t in j.core.sys.tcb && u in j.core.sys.tcb && j.core.sys.tcb[u].stat == Suspended
    requires core.sys.tcb == j.core.sys.tcb[u := j.core.sys.tcb[u].(stat := Ready, armed := false)]
    ensures Touches(j, j.(core := core, wheel := Unarm(j.wheel, u)), t, t != u)
  {
    hide Mid, SameTimer, L.Last, Unarm, L.OnTime, WheelOk;
    FiredApart(j, u, fired);
    assert WheelOk(j.wheel, fired) by { WheelIs(j, fired); }
    StopOwn(j.wheel, u, fired);
    var j' := j.(core := core, wheel := Unarm(j.wheel, u));
    if t == u {
      ResumedTouches(j, j', t, fired);
    } else {
      UnarmOthers(j.wheel, u, t);
    }
  }

  lemma WheelIs(j: Timed, fired: Option<nat>)
    requires Mid(j, fired)
    ensures WheelOk(j.wheel, fired) && CoreInv(j.core) && T.Shape(j.wheel)
  {
    hide CoreInv, WheelOk, Matched;
    WheelShape(j.wheel, fired);
  }

  lemma ServeTouches(j: Timed, q: nat, t: Tid, fired: Option<nat>)
    requires Mid(j, fired) && q < |j.core.sys.wait| && t in j.core.sys.tcb
    ensures InRange(j.core.sys, j.core.sys.wait[q]) && T.Shape(j.wheel)
    ensures Touches(j, Serve(j, q), t, t !in j.core.blocked)
  {
    hide Mid, CoreInv, Wake, InRange, SameTimer, WheelOk, Popped, Sleeper, Touches, Unarm, Resumed;
    WheelIs(j, fired);
    WakeKeeps(j.core, q);
    if j.core.sys.wait[q] == [] {
      SameItself(j.wheel, t);
      TouchesBoth(j, Serve(j, q), t);
    } else {
      var u := j.core.sys.wait[q][0];
      NotWaiting(j.core, q, u);
      UnarmTouches(j, Wake(j.core, q), u, t, fired);
    }
    Weaker(j, Serve(j, q), t);
  }

  lemma Weaker(j: Timed, j': Timed, t: Tid)
    ensures Touches(j, j', t, true) ==> Touches(j, j', t, false)
  {
    hide SameTimer, L.Last, L.OnTime;
  }

  lemma StirTouches(j: Timed, u: Tid, t: Tid, fired: Option<nat>)
    requires Mid(j, fired) && u in j.core.sys.tcb && j.core.sys.tcb[u].stat == Suspended && t in j.core.sys.tcb
    ensures j.core.sys.tcb[u].prio < |j.core.sys.ready| && T.Shape(j.wheel)
    ensures Touches(j, Stirred(j, u), t, t != u)
  {
    hide Mid, CoreInv, Rouse, WheelOk, Touches, Unarm, Without;
    WheelIs(j, fired);
    RouseEffect(j.core, u);
    UnarmTouches(j, Rouse(j.core, u), u, t, fired);
  }

  lemma ResetTouches(j: Timed, q: nat, t: Tid, fired: Option<nat>)
    requires Mid(j, fired) && q < |j.core.sys.wait| && t in j.core.sys.tcb
    ensures InRange(j.core.sys, j.core.sys.wait[q]) && T.Shape(j.wheel)
    ensures Touches(j, Reset(j, q), t, t !in j.core.blocked)
  {
    hide Mid, CoreInv, KickAll, InRange, SameTimer, WheelOk, SameResumed, UnarmAll, L.Last, L.OnTime, NoDup;
    WheelIs(j, fired);
    KickAllKeeps(j.core, q);
    UnarmAllWheel(j.wheel, j.core.sys.wait[q], fired);
    var l, j' := j.core.sys.wait[q], Reset(j, q);
    if t in l {
      NotWaiting(j.core, q, t);
      WaitsOnce(j.core, q, t);
      FiredApart(j, t, fired);
      FiredNotIn(j, q, fired);
      UnarmAllOwn(j.wheel, l, t, fired);
      ResumedTouches(j, j', t, fired);
    } else {
      UnarmAllOther(j.wheel, l, t);
    }
  }

  lemma FiredNotIn(j: Timed, q: nat, fired: Option<nat>)
    requires Mid(j, fired) && q < |j.core.sys.wait|
    ensures fired.Some? ==> fired.value !in j.core.sys.wait[q]
  {
    hide Mid, CoreInv, WheelOk;
    WheelIs(j, fired);
    forall t | t in j.core.sys.wait[q] ensures fired != Some(t) {
      NotWaiting(j.core, q, t);
      FiredApart(j, t, fired);
    }
  }

  lemma TimingTouches(j: Timed, a: T.Action, t: Tid)
    requires T.Shape(j.wheel) && a.id in j.wheel.timers && a.id !in j.core.sys.tcb && t in j.core.sys.tcb
    ensures Touches(j, j.(wheel := T.Act(j.wheel, a)), t, true)
  {
    hide T.Act, SameTimer, Touches, T.Shape;
    ActOthers(j.wheel, a, t);
    TouchesBoth(j, j.(wheel := T.Act(j.wheel, a)), t);
  }

  // ---- The tick ------------------------------------------------------------------------------

  /** What a timeout function can do: serve or reset an object, resume a thread, or handle a timer, as anybody
      else; threads that are READY again have no timer in the list. */
  lemma DoOutcome(j: Timed, d: Deed, fired: Option<nat>)
    requires Mid(j, fired)
    ensures T.Shape(j.wheel)
    ensures var j', w := Do(j, d), j.core.sys.wait;
      match d
      case Timing(a) => j' == if a.id in j.wheel.timers then j.(wheel := T.Act(j.wheel, a)) else j
      case Serving(q) =>
        if q < |w| then WokeFirst(j.core, j'.core, q) && (w[q] != [] ==> w[q][0] !in j'.wheel.list) else j' == j
      case Resetting(q) =>
        if q < |w| then AllKicked(j.core, j'.core, q) && forall t :: t in w[q] ==> t !in j'.wheel.list else j' == j
      case Stirring(t) =>
        if t in j.core.sys.tcb && j.core.sys.tcb[t].stat == Suspended then
          BackReady(j.core, j'.core, t, j.core.sys.tcb[t].error) && t !in j'.wheel.list
        else j' == j
  {
    hide Mid, CoreInv, WheelOk, Wake, KickAll, Rouse, InRange, WokeFirst, AllKicked, BackReady, Unarm, UnarmAll, T.Act;
    WheelIs(j, fired);
    match d {
      case Timing(_) =>
      case Serving(q) =>
        if q < |j.core.sys.wait| {
          WakeUp(j.core, q);
          if j.core.sys.wait[q] != [] { WaiterStopped(j, q, j.core.sys.wait[q][0], fired); }
        }
      case Resetting(q) =>
        if q < |j.core.sys.wait| {
          KickDoes(j.core, q);
          forall t | t in j.core.sys.wait[q] ensures t !in UnarmAll(j.wheel, j.core.sys.wait[q]).list {
            WaiterStopped(j, q, t, fired);
          }
        }
      case Stirring(t) =>
        if t in j.core.sys.tcb && j.core.sys.tcb[t].stat == Suspended {
          RouseDoes(j.core, t);
          FiredApart(j, t, fired);
          StopOwn(j.wheel, t, fired);
        }
    }
  }

  lemma WaiterStopped(j: Timed, q: nat, t: Tid, fired: Option<nat>)
    requires Mid(j, fired) && q < |j.core.sys.wait| && t in j.core.sys.wait[q]
    ensures T.Shape(j.wheel) && t !in Unarm(j.wheel, t).list && t !in UnarmAll(j.wheel, j.core.sys.wait[q]).list
  {
    hide Mid, CoreInv, WheelOk, Unarm, UnarmAll, L.Last, NoDup;
    WheelIs(j, fired);
    WaitsOnce(j.core, q, t);
    FiredApart(j, t, fired);
    FiredNotIn(j, q, fired);
    StopOwn(j.wheel, t, fired);
    UnarmAllOwn(j.wheel, j.core.sys.wait[q], t, fired);
  }

  /** Nobody but its timer resumes a thread that is in no call and that no timeout function names. */
  ghost predicate Alone(j: Timed, t: Tid, ds: seq<Deed>) {
    t !in j.core.blocked && Stirring(t) !in ds
  }

  lemma DoTouches(j: Timed, d: Deed, f: nat, t: Tid)
    requires Mid(j, Some(f)) && DeedOk(j.wheel.timers, j.core.sys.tcb, d) && t in j.core.sys.tcb
    ensures T.Shape(j.wheel) && Touches(j, Do(j, d), t, Alone(j, t, [d]))
  {
    hide Mid, CoreInv, WheelOk, Serve, Reset, Stirred, T.Act, InRange, L.ActionOk, SameTimer, Touches;
    WheelIs(j, Some(f));
    SameItself(j.wheel, t);
    TouchesBoth(j, j, t);
    Weaker(j, j, t);
    match d {
      case Timing(a) =>
        if a.id in j.wheel.timers {
          TimingTouches(j, a, t);
          Weaker(j, Do(j, d), t);
        }
      case Serving(q) => if q < |j.core.sys.wait| { ServeTouches(j, q, t, Some(f)); }
      case Resetting(q) => if q < |j.core.sys.wait| { ResetTouches(j, q, t, Some(f)); }
      case Stirring(u) =>
        if u in j.core.sys.tcb && j.core.sys.tcb[u].stat == Suspended {
          StirTouches(j, u, t, Some(f));
          Weaker(j, Do(j, d), t);
        }
    }
  }

  lemma {:induction false} DoAllSleeps(j: Timed, ds: seq<Deed>, f: nat, t: Tid, p: T.Plan, alone: bool)
    requires Mid(j, Some(f)) && (forall d :: d in ds ==> DeedOk(j.wheel.timers, j.core.sys.tcb, d))
    requires Sleeps(j, t, p, alone) && (alone ==> Alone(j, t, ds))
    ensures T.Shape(j.wheel) && Sleeps(DoAll(j, ds), t, p, alone)
    decreases |ds|
  {
    hide Mid, Do, DeedOk, L.MarkOf, T.Track, Sleeps, Touches;
    WheelIs(j, Some(f));
    if ds != [] {
      var j1 := Do(j, ds[0]);
      SleeperThere(j, t, p, alone);
      DoKeeps(j, ds[0], f);
      DoTouches(j, ds[0], f, t);
      Weaker(j, j1, t);
      TouchesSleep(j, j1, t, p, alone, Some(f));
      forall d | d in ds[1..] ensures DeedOk(j1.wheel.timers, j1.core.sys.tcb, d) {
        DeedKinds(j.wheel.timers, j1.wheel.timers, j.core.sys.tcb, j1.core.sys.tcb, d);
      }
      DoAllSleeps(j1, ds[1..], f, t, p, alone);
    }
  }

  lemma SleeperThere(j: Timed, t: Tid, p: T.Plan, alone: bool)
    requires Sleeps(j, t, p, alone)
    ensures t in j.core.sys.tcb
  {
    hide L.Last;
  }

  /** The timer of thread u is fired. */
  lemma FireThreadTouches(j: Timed, deeds: Deeds, t: Tid)
    requires Mid(j, None) && j.wheel.checking && T.Shape(j.wheel) && T.HeadDue(j.wheel) && t in j.core.sys.tcb
    requires j.wheel.list[0] in j.core.sys.tcb && j.wheel.list[0] !in deeds
    ensures Touches(j, FireOne(j, deeds), t, true)
  {
    hide Mid, CoreInv, WheelOk, Matched, Expire, T.NotBefore, SameTimer, InStep, CallOk, SameResumed, Without, NoDup, L.MarkOf,
      T.Pop, T.Renew, L.Last, L.OnTime;
    var u, w := j.wheel.list[0], j.wheel;
    WheelIs(j, None);
    WheelShape(w, None);
    HeadPops(w);
    HeadThread(j);
    ExpireKeeps(j.core, u);
    FireOwn(w, u);
    HeadOnTime(w);
    var j' := FireOne(j, deeds);
    assert j'.wheel == T.Renew(T.Pop(w), u) && j'.core == Expire(j.core, u);
    NowStays(w, u);
    if t != u {
      PopOthers(w, t);
      RenewOthers(T.Pop(w), u, t);
      SameChain(w, T.Pop(w), j'.wheel, t);
    }
  }

  lemma NowStays(w: T.Wheel, u: nat)
    requires w.list != [] && T.Shape(T.Pop(w)) && u in T.Pop(w).timers
    ensures T.Renew(T.Pop(w), u).now == w.now
  {
    hide T.Shape;
  }

  lemma HeadOnTime(w: T.Wheel)
    requires WheelOk(w, None) && w.checking && w.list != [] && w.list[0] in w.plan && w.plan[w.list[0]].due <= w.now
    ensures L.OnTime(T.Fired(w.list[0], w.plan[w.list[0]], w.now))
  {
    hide L.Good, L.OnTime;
    assert L.IsDue(w, w.list[0]);
  }

  lemma FireOtherSleeps(j: Timed, deeds: Deeds, t: Tid, p: T.Plan, alone: bool)
    requires Mid(j, None) && j.wheel.checking && T.Shape(j.wheel) && T.HeadDue(j.wheel)
    requires j.wheel.list[0] !in j.core.sys.tcb && DeedsOk(j.wheel.timers, j.core.sys.tcb, deeds)
    requires Sleeps(j, t, p, alone) && (alone ==> Alone(j, t, DeedsOf(deeds, j.wheel.list[0])))
    ensures Sleeps(FireOne(j, deeds), t, p, alone)
  {
    hide CoreInv, WheelOk, Matched, T.NotBefore, SameTimer, NoDup, L.MarkOf, T.Pop, T.Renew, DeedsOk, DoAll, T.Restarts, Sleeps,
      DeedOk;
    var f, w := j.wheel.list[0], j.wheel;
    WheelShape(w, None);
    HeadPops(w);
    SleeperThere(j, t, p, alone);
    var j1, ds := j.(wheel := T.Pop(w)), DeedsOf(deeds, f);
    forall u | u in j.core.sys.tcb ensures SameTimer(w, j1.wheel, u) { PopOthers(w, u); }
    NoThread(j, j1);
    assert Popped1(j) == j1;
    SameSleeps(j, j1, t, p, alone);
    OwnDeeds(j.wheel.timers, j.core.sys.tcb, deeds, f);
    DoAllKeeps(j1, ds, f);
    DoAllSleeps(j1, ds, f, t, p, alone);
    var j2 := DoAll(j1, ds);
    RenewOthers(j2.wheel, f, t);
    SameSleeps(j2, j2.(wheel := T.Renew(j2.wheel, f)), t, p, alone);
  }

  lemma SameSleeps(j: Timed, j': Timed, t: Tid, p: T.Plan, alone: bool)
    requires Sleeps(j, t, p, alone) && j'.core == j.core && SameTimer(j.wheel, j'.wheel, t)
    ensures Sleeps(j', t, p, alone)
  {
    hide L.Last;
  }

  /** The timeout functions that run in a tick leave t alone. */
  ghost predicate NoStirring(deeds: Deeds, t: Tid) {
    forall id :: id in deeds ==> Stirring(t) !in deeds[id]
  }

  lemma FireOneSleeps(j: Timed, deeds: Deeds, t: Tid, p: T.Plan, alone: bool)
    requires Mid(j, None) && j.wheel.checking && T.Shape(j.wheel) && T.HeadDue(j.wheel)
    requires DeedsOk(j.wheel.timers, j.core.sys.tcb, deeds)
    requires Sleeps(j, t, p, alone) && (alone ==> t !in j.core.blocked && NoStirring(deeds, t))
    ensures Sleeps(FireOne(j, deeds), t, p, alone) && FireOne(j, deeds).core.blocked == j.core.blocked
  {
    hide Mid, FireOne, T.NotBefore, Sleeps, Touches;
    if j.wheel.list[0] in j.core.sys.tcb {
      assert j.wheel.list[0] !in deeds by { hide DeedOk, T.Restarts; }
      hide DeedsOk;
      SleeperThere(j, t, p, alone);
      FireThreadTouches(j, deeds, t);
      Weaker(j, FireOne(j, deeds), t);
      TouchesSleep(j, FireOne(j, deeds), t, p, alone, None);
    } else {
      hide DeedsOk;
      FireOtherSleeps(j, deeds, t, p, alone);
    }
    FireBlocked(j, deeds);
  }

  lemma FireBlocked(j: Timed, deeds: Deeds)
    requires T.Shape(j.wheel) && j.wheel.list != []
    ensures FireOne(j, deeds).core.blocked == j.core.blocked
  {
    hide T.Shape, T.Pop, T.Renew;
    DoAllBlocked(Popped1(j), DeedsOf(deeds, j.wheel.list[0]));
  }

  lemma {:induction false} DoAllBlocked(j: Timed, ds: seq<Deed>)
    requires T.Shape(j.wheel)
    ensures DoAll(j, ds).core.blocked == j.core.blocked
    decreases |ds|
  {
    hide T.Shape, T.Act;
    if ds != [] { DoAllBlocked(Do(j, ds[0]), ds[1..]); }
  }

  lemma {:induction false} FireAllSleeps(j: Timed, deeds: Deeds, n: nat, t: Tid, p: T.Plan, alone: bool)
    requires Mid(j, None) && j.wheel.checking && T.Shape(j.wheel) && DeedsOk(j.wheel.timers, j.core.sys.tcb, deeds)
    requires EndsIn(j, deeds, n)
    requires Sleeps(j, t, p, alone) && (alone ==> t !in j.core.blocked && NoStirring(deeds, t))
    ensures Sleeps(FireAll(j, deeds, n), t, p, alone) && FireAll(j, deeds, n).core.blocked == j.core.blocked
    decreases n
  {
    hide Mid, FireOne, DeedsOk, T.NotBefore, Sleeps, NoStirring;
    if n > 0 {
      FireOneKeeps(j, deeds);
      FireOneSleeps(j, deeds, t, p, alone);
      FireAllSleeps(FireOne(j, deeds), deeds, n - 1, t, p, alone);
    }
  }

  lemma TickSleeps(j: Timed, deeds: Deeds, n: nat, t: Tid, p: T.Plan, alone: bool)
    requires Inv(j) && Enabled(j, DoTick(deeds, n))
    requires Sleeps(j, t, p, alone) && (alone ==> t !in j.core.blocked && NoStirring(deeds, t))
    ensures var j' := Next(j, DoTick(deeds, n)); Sleeps(j', t, p, alone) && j'.core.blocked == j.core.blocked
  {
    hide CoreInv, L.Between, L.Good, L.Ripe, Matched, EndsIn, DeedsOk, FireAll, L.DueIds, T.HeadDue, Sleeps, SameTimer, NoStirring;
    L.AdvanceGood(j.wheel);
    AdvanceMatched(j);
    AdvanceSame(j.wheel, t);
    SameSleeps(j, Advance(j), t, p, alone);
    FireAllSleeps(Advance(j), deeds, n, t, p, alone);
    var j2 := FireAll(Advance(j), deeds, n);
    AdvanceSame(j2.wheel, t);
    SameSleeps(j2, Tick(j, deeds, n), t, p, alone);
  }

  // ---- Over every run ------------------------------------------------------------------------

  /** The step is not the next call of t itself. */
  predicate NotOwn(s: Step, t: Tid) {
    s.DoWait? || s.DoAgain? || s.DoNap? ==> s.t != t
  }

  /** The step does not resume t. */
  ghost predicate LetSleep(s: Step, t: Tid) {
    s != DoStir(t) && (s.DoTick? ==> NoStirring(s.deeds, t))
  }

  lemma StepSleeps(j: Timed, s: Step, t: Tid, p: T.Plan, alone: bool)
    requires Inv(j) && Enabled(j, s) && NotOwn(s, t) && Sleeps(j, t, p, alone)
    requires alone ==> LetSleep(s, t) && t !in j.core.blocked
    ensures Sleeps(Next(j, s), t, p, alone) && (alone ==> t !in Next(j, s).core.blocked)
  {
    hide Inv, Mid, Sleeps, Touches, CoreInv, T.Act, Serve, Reset, Stirred, Tick, Aside, DeedsOk, EndsIn,
      Timeouts.Left, NoStirring, Wait, Again, Return, Nap, OtherEnabled, Advance, T.Shape;
    InvMid(j);
    SleeperThere(j, t, p, alone);
    match s {
      case DoWait(q, u, flag, k) => OtherSleeps(j, s, t, p, alone);
      case DoAgain(u, flag) => OtherSleeps(j, s, t, p, alone);
      case DoReturn(u) => OtherSleeps(j, s, t, p, alone);
      case DoNap(u, k) => OtherSleeps(j, s, t, p, alone);
      case DoAside(o) => OtherSleeps(j, s, t, p, alone);
      case DoError(u, e) => OtherSleeps(j, s, t, p, alone);
      case DoServe(q) => ServeTouches(j, q, t, None);
      case DoReset(q) => ResetTouches(j, q, t, None);
      case DoStir(u) => StirTouches(j, u, t, None);
      case DoTimer(a) => TimingTouches(j, a, t);
      case DoTick(deeds, n) => TickSleeps(j, deeds, n, t, p, alone);
    }
    if s.DoServe? || s.DoReset? || s.DoStir? || s.DoTimer? {
      Weaker(j, Next(j, s), t);
      TouchesSleep(j, Next(j, s), t, p, alone, None);
      SameBlocked(j, s);
    }
  }

  lemma SameBlocked(j: Timed, s: Step)
    requires Enabled(j, s) && (s.DoServe? || s.DoReset? || s.DoStir? || s.DoTimer?)
    ensures Next(j, s).core.blocked == j.core.blocked
  {
    hide T.Act, T.Shape, UnarmAll, Unarm, InRange;
  }

  /** Steps that do not concern t. */
  lemma OtherSleeps(j: Timed, s: Step, t: Tid, p: T.Plan, alone: bool)
    requires Inv(j) && Enabled(j, s) && NotOwn(s, t) && Sleeps(j, t, p, alone)
    requires s.DoWait? || s.DoAgain? || s.DoReturn? || s.DoNap? || s.DoAside? || s.DoError?
    requires alone ==> t !in j.core.blocked
    ensures Sleeps(Next(j, s), t, p, alone) && (alone ==> t !in Next(j, s).core.blocked)
  {
    hide Inv, Sleeps, CoreInv, OtherEnabled, Timeouts.Left, T.Shape, SameTimer, Nap, Asleep, Aside;
    SleeperThere(j, t, p, alone);
    CoreOf(j);
    SameItself(j.wheel, t);
    match s {
      case DoWait(q, u, flag, k) => AsleepOthers(j, q, u, flag, k, t);
      case DoAgain(u, flag) => AsleepOthers(j, j.core.blocked[u], u, flag, Timeouts.Left(j, u), t);
      case DoReturn(_) =>
      case DoNap(u, k) => NapOthers(j, u, k, t);
      case DoAside(o) => AsideOthers(j.core, o);
      case DoError(_, _) =>
    }
    StillSleeps(j, Next(j, s), t, p, alone);
  }

  lemma NapOthers(j: Timed, u: Tid, k: int, t: Tid)
    requires CoreInv(j.core) && T.Shape(j.wheel) && IsReady(j, u) && u != t && t in j.core.sys.tcb
    ensures var j' := Nap(j, u, k);
      && t in j'.core.sys.tcb && j'.core.sys.tcb[t] == j.core.sys.tcb[t] && SameTimer(j.wheel, j'.wheel, t)
      && j'.core.blocked == j.core.blocked
  {
    hide CoreInv, T.Act, T.Shape, SameTimer, Sleep;
    SleepTcb(j.core, u);
    ActOthers(j.wheel, T.Start(u, k), t);
  }

  lemma AsleepOthers(j: Timed, q: nat, u: Tid, flag: Flag, k: int, t: Tid)
    requires CoreInv(j.core) && T.Shape(j.wheel) && IsReady(j, u) && q < |j.core.sys.wait| && u != t && t in j.core.sys.tcb
    ensures var j' := Asleep(j, q, u, flag, k);
      && t in j'.core.sys.tcb && j'.core.sys.tcb[t] == j.core.sys.tcb[t] && SameTimer(j.wheel, j'.wheel, t)
      && (t in j'.core.blocked <==> t in j.core.blocked)
  {
    hide CoreInv, T.Act, T.Shape, SameTimer, Enter, Less, Joined;
    EnterKeeps(j.core, q, u, flag, k > 0);
    EnterBlocked(j.core, q, u, flag, k > 0);
    SameItself(j.wheel, t);
    if k > 0 { ActOthers(j.wheel, T.Start(u, k), t); }
  }

  lemma AsideOthers(c: Core, o: Other)
    requires CoreInv(c) && OtherEnabled(c, o) && (o.Spin? || o.Rank?)
    ensures var c' := Aside(c, o);
      && c'.blocked == c.blocked && c'.sys.tcb.Keys == c.sys.tcb.Keys
      && forall t :: t in c.sys.tcb ==> c'.sys.tcb[t].stat == c.sys.tcb[t].stat && c'.sys.tcb[t].armed == c.sys.tcb[t].armed
  {
    AsideTcbs(c, o);
    hide CoreInv, ChangePriority, Yield;
  }

  lemma StillSleeps(j: Timed, j': Timed, t: Tid, p: T.Plan, alone: bool)
    requires Sleeps(j, t, p, alone) && t in j.core.sys.tcb && t in j'.core.sys.tcb && SameTimer(j.wheel, j'.wheel, t)
    requires j'.core.sys.tcb[t].stat == j.core.sys.tcb[t].stat && j'.core.sys.tcb[t].armed == j.core.sys.tcb[t].armed
    ensures Sleeps(j', t, p, alone)
  {
    hide L.Last;
  }

  lemma {:induction false} RunSleeps(j: Timed, ss: seq<Step>, t: Tid, p: T.Plan, alone: bool)
    requires Inv(j) && EnabledRun(j, ss) && (forall s :: s in ss ==> NotOwn(s, t)) && Sleeps(j, t, p, alone)
    requires alone ==> t !in j.core.blocked && forall s :: s in ss ==> LetSleep(s, t)
    ensures Inv(Run(j, ss)) && Sleeps(Run(j, ss), t, p, alone)
    decreases |ss|
  {
    hide Inv, Next, Enabled, NotOwn, LetSleep, Sleeps;
    if ss != [] {
      assert ss[0] in ss && forall s :: s in ss[1..] ==> s in ss;
      NextKeeps(j, ss[0]);
      StepSleeps(j, ss[0], t, p, alone);
      RunSleeps(Next(j, ss[0]), ss[1..], t, p, alone);
    }
  }

  /** Over every run, until thread t makes its next call: a thread that sleeps for k ticks in rt_thread_sleep is
      not READY before somebody resumes it or its time is over, which is after k ticks, and at the next tick
      for k = 0; if nobody resumes it, it is READY if and only if its time is over, since its timer fired at
      that very tick. */
  lemma SleepOnTime(sys: Sys, lists: seq<seq<Tid>>, timers: map<nat, T.Timer>, now: int, before: seq<Step>, t: Tid, k: int,
                    after: seq<Step>)
    requires Fresh(sys, lists, timers) && EnabledRun(Create(sys, lists, timers, now), before)
    requires var j := Run(Create(sys, lists, timers, now), before);
      Enabled(j, DoNap(t, k)) && EnabledRun(Next(j, DoNap(t, k)), after)
    requires forall s :: s in after ==> NotOwn(s, t)
    ensures var j := Run(Create(sys, lists, timers, now), before);
      var j', due := Run(Next(j, DoNap(t, k)), after), j.wheel.now + Max(k, 1);
      && t in j'.core.sys.tcb
      && (j'.core.sys.tcb[t].stat == Suspended ==> j'.wheel.now < due)
      && (j'.core.sys.tcb[t].stat != Suspended ==> FiredAt(L.Last(j'.wheel.log, t), due) || StoppedBy(L.Last(j'.wheel.log, t), due))
      && ((forall s :: s in after ==> LetSleep(s, t)) ==>
            && (j'.core.sys.tcb[t].stat == Ready <==> j'.wheel.now >= due)
            && (j'.core.sys.tcb[t].stat == Ready ==> FiredAt(L.Last(j'.wheel.log, t), due)))
  {
    hide Create, Run, EnabledRun, Inv, NotOwn, LetSleep, Sleeps, Nap, L.Last;
    CreateInv(sys, lists, timers, now);
    RunKeeps(Create(sys, lists, timers, now), before);
    var j := Run(Create(sys, lists, timers, now), before);
    var j1 := Next(j, DoNap(t, k));
    NextKeeps(j, DoNap(t, k));
    NapSleeps(j, t, k);
    RunSleeps(j1, after, t, j1.wheel.plan[t], false);
    SleepFacts(Run(j1, after), t, j1.wheel.plan[t], false);
    if forall s :: s in after ==> LetSleep(s, t) {
      RunSleeps(j1, after, t, j1.wheel.plan[t], true);
      SleepFacts(Run(j1, after), t, j1.wheel.plan[t], true);
    }
  }

  predicate FiredAt(e: Option<T.Event>, due: int) {
    e.Some? && e.value.Fired? && e.value.at == due
  }

  predicate StoppedBy(e: Option<T.Event>, due: int) {
    e.Some? && e.value.Stopped? && (e.value.at < due || (e.value.at == due && e.value.inside))
  }

  lemma NapSleeps(j: Timed, t: Tid, k: int)
    requires Inv(j) && Enabled(j, DoNap(t, k))
    ensures var j1 := Nap(j, t, k);
      && t in j1.wheel.plan && Sleeps(j1, t, j1.wheel.plan[t], true) && Sleeps(j1, t, j1.wheel.plan[t], false)
      && FiringTick(j1.wheel.plan[t]) == j.wheel.now + Max(k, 1) && t !in j1.core.blocked
  {
    hide Inv, Nap, T.Shape, Awake, SameTimer, Without;
    SleepOutcome(j, t, k);
    NotInside(j, t, k);
  }

  lemma NotInside(j: Timed, t: Tid, k: int)
    requires Inv(j) && Enabled(j, DoNap(t, k))
    ensures t in Nap(j, t, k).wheel.plan && !Nap(j, t, k).wheel.plan[t].inside
  {
    Unarmed(j, t);
    InvMid(j);
    hide CoreInv, Matched, L.Good, L.TimersOk, Sleep, T.Place, Insert;
    Idle(j.wheel, t, None);
  }

  lemma SleepFacts(j: Timed, t: Tid, p: T.Plan, alone: bool)
    requires Inv(j) && Sleeps(j, t, p, alone)
    ensures t in j.core.sys.tcb && (j.core.sys.tcb[t].stat == Suspended || j.core.sys.tcb[t].stat == Ready)
    ensures j.core.sys.tcb[t].stat == Suspended ==> j.wheel.now < FiringTick(p)
    ensures j.core.sys.tcb[t].stat == Ready ==>
      FiredAt(L.Last(j.wheel.log, t), FiringTick(p)) || (!alone && StoppedBy(L.Last(j.wheel.log, t), FiringTick(p)))
    ensures j.core.sys.tcb[t].stat == Ready && alone ==> j.wheel.now >= FiringTick(p)
  {}

  // ---- Waiting for ever ----------------------------------------------------------------------

  /** Thread t is in a call without a timeout: no timer of its runs, and it has not timed out. */
  ghost predicate Untimed(c: Core, t: Tid) {
    t in c.blocked && t in c.sys.tcb && !c.sys.tcb[t].armed && c.sys.tcb[t].error != ETIMEOUT
  }

  lemma WakeUntimed(c: Core, q: nat, t: Tid)
    requires CoreInv(c) && q < |c.sys.wait| && Untimed(c, t)
    ensures InRange(c.sys, c.sys.wait[q]) && Untimed(Wake(c, q), t)
  {
    hide CoreInv, InRange, Wake, Sleeper, Resumed, Joined;
    WakeKeeps(c, q);
    WakeBlocked(c, q);
  }

  lemma WakeBlocked(c: Core, q: nat)
    requires q < |c.sys.wait| && InRange(c.sys, c.sys.wait[q])
    ensures Wake(c, q).blocked == c.blocked
  {}

  lemma KickUntimed(c: Core, q: nat, t: Tid)
    requires CoreInv(c) && q < |c.sys.wait| && Untimed(c, t)
    ensures InRange(c.sys, c.sys.wait[q]) && Untimed(KickAll(c, q), t)
  {
    hide CoreInv, InRange, KickAll, SameResumed;
    KickAllKeeps(c, q);
  }

  lemma RouseUntimed(c: Core, u: Tid, t: Tid)
    requires CoreInv(c) && u in c.sys.tcb && c.sys.tcb[u].stat == Suspended && Untimed(c, t)
    ensures c.sys.tcb[u].prio < |c.sys.ready| && Untimed(Rouse(c, u), t)
  {
    hide CoreInv, Rouse, Without;
    RouseEffect(c, u);
  }

  lemma DoUntimed(j: Timed, d: Deed, fired: Option<nat>, t: Tid)
    requires Mid(j, fired) && Untimed(j.core, t)
    ensures T.Shape(j.wheel) && Untimed(Do(j, d).core, t)
  {
    hide Mid, CoreInv, WheelOk, Wake, KickAll, Rouse, InRange, Untimed, Unarm, UnarmAll, T.Act;
    WheelIs(j, fired);
    match d {
      case Timing(a) =>
      case Serving(q) => if q < |j.core.sys.wait| { WakeUntimed(j.core, q, t); }
      case Resetting(q) => if q < |j.core.sys.wait| { KickUntimed(j.core, q, t); }
      case Stirring(u) =>
        if u in j.core.sys.tcb && j.core.sys.tcb[u].stat == Suspended { RouseUntimed(j.core, u, t); }
    }
  }

  lemma {:induction false} DoAllUntimed(j: Timed, ds: seq<Deed>, f: nat, t: Tid)
    requires Mid(j, Some(f)) && (forall d :: d in ds ==> DeedOk(j.wheel.timers, j.core.sys.tcb, d)) && Untimed(j.core, t)
    ensures T.Shape(j.wheel) && Untimed(DoAll(j, ds).core, t)
    decreases |ds|
  {
    hide Mid, Do, DeedOk, L.MarkOf, T.Track, Untimed;
    WheelIs(j, Some(f));
    if ds != [] {
      var j1 := Do(j, ds[0]);
      DoKeeps(j, ds[0], f);
      DoUntimed(j, ds[0], Some(f), t);
      forall d | d in ds[1..] ensures DeedOk(j1.wheel.timers, j1.core.sys.tcb, d) {
        DeedKinds(j.wheel.timers, j1.wheel.timers, j.core.sys.tcb, j1.core.sys.tcb, d);
      }
      DoAllUntimed(j1, ds[1..], f, t);
    }
  }

  /** The thread of the timer that fires is armed, so it is another one. */
  lemma FireOneUntimed(j: Timed, deeds: Deeds, t: Tid)
    requires Mid(j, None) && j.wheel.checking && T.Shape(j.wheel) && T.HeadDue(j.wheel)
    requires DeedsOk(j.wheel.timers, j.core.sys.tcb, deeds) && Untimed(j.core, t)
    ensures Untimed(FireOne(j, deeds).core, t)
  {
    hide CoreInv, WheelOk, Matched, T.NotBefore, SameTimer, NoDup, L.MarkOf, T.Pop, T.Renew, T.Restarts, DeedOk, InStep,
      CallOk, Expire, Without, SameResumed;
    var f, w := j.wheel.list[0], j.wheel;
    WheelShape(w, None);
    HeadPops(w);
    if f in j.core.sys.tcb {
      assert DeedsOf(deeds, f) == [];
      HeadThread(j);
      ExpireKeeps(j.core, f);
      ArmedHead(j, f);
      assert FireOne(j, deeds).core == Expire(j.core, f);
    } else {
      hide DeedsOk, DoAll;
      var j1, ds := j.(wheel := T.Pop(w)), DeedsOf(deeds, f);
      forall u | u in j.core.sys.tcb ensures SameTimer(w, j1.wheel, u) { PopOthers(w, u); }
      NoThread(j, j1);
      assert Popped1(j) == j1;
      OwnDeeds(j.wheel.timers, j.core.sys.tcb, deeds, f);
      DoAllUntimed(j1, ds, f, t);
    }
  }

  lemma ArmedHead(j: Timed, f: nat)
    requires f in j.core.sys.tcb && f in j.wheel.list && InStep(j.core.sys.tcb[f], j.wheel, f)
    ensures j.core.sys.tcb[f].armed
  {}

  lemma {:induction false} FireAllUntimed(j: Timed, deeds: Deeds, n: nat, t: Tid)
    requires Mid(j, None) && j.wheel.checking && T.Shape(j.wheel) && DeedsOk(j.wheel.timers, j.core.sys.tcb, deeds)
    requires EndsIn(j, deeds, n) && Untimed(j.core, t)
    ensures Untimed(FireAll(j, deeds, n).core, t)
    decreases n
  {
    hide Mid, FireOne, DeedsOk, T.NotBefore, Untimed;
    if n > 0 {
      FireOneKeeps(j, deeds);
      FireOneUntimed(j, deeds, t);
      FireAllUntimed(FireOne(j, deeds), deeds, n - 1, t);
    }
  }

  lemma TickUntimed(j: Timed, deeds: Deeds, n: nat, t: Tid)
    requires Inv(j) && Enabled(j, DoTick(deeds, n)) && Untimed(j.core, t)
    ensures Untimed(Next(j, DoTick(deeds, n)).core, t)
  {
    hide CoreInv, L.Between, L.Good, L.Ripe, Matched, EndsIn, DeedsOk, FireAll, L.DueIds, T.HeadDue, Untimed;
    L.AdvanceGood(j.wheel);
    AdvanceMatched(j);
    FireAllUntimed(Advance(j), deeds, n, t);
  }

  /** The call of t neither returns nor is it a new one. */
  predicate SameCall(s: Step, t: Tid) {
    s.DoWait? || s.DoReturn? ==> s.t != t
  }

  lemma StepUntimed(j: Timed, s: Step, t: Tid)
    requires Inv(j) && Enabled(j, s) && SameCall(s, t) && Untimed(j.core, t) && t !in j.calls
    ensures Untimed(Next(j, s).core, t) && t !in Next(j, s).calls
  {
    hide Inv, Untimed, CoreInv, T.Act, Serve, Reset, Stirred, Tick, Aside, InRange, DeedsOk, EndsIn, Timeouts.Left, Wait, Again,
      Return, Nap, OtherEnabled, T.Shape, Advance;
    CoreOf(j);
    match s {
      case DoWait(q, u, flag, k) => OtherUntimed(j, s, t);
      case DoAgain(u, flag) => OtherUntimed(j, s, t);
      case DoReturn(u) => OtherUntimed(j, s, t);
      case DoNap(u, k) => OtherUntimed(j, s, t);
      case DoAside(o) => OtherUntimed(j, s, t);
      case DoError(u, e) => OtherUntimed(j, s, t);
      case DoServe(q) => DeedUntimed(j, s, t);
      case DoReset(q) => DeedUntimed(j, s, t);
      case DoStir(u) => DeedUntimed(j, s, t);
      case DoTimer(a) =>
      case DoTick(deeds, n) => TickUntimed(j, deeds, n, t);
    }
    CallsStay(j, s, t);
  }

  lemma DeedUntimed(j: Timed, s: Step, t: Tid)
    requires Inv(j) && Enabled(j, s) && (s.DoServe? || s.DoReset? || s.DoStir?) && Untimed(j.core, t)
    ensures Untimed(Next(j, s).core, t)
  {
    hide Inv, Untimed, CoreInv, Wake, KickAll, Rouse, InRange, T.Shape, Unarm, UnarmAll;
    CoreOf(j);
    match s {
      case DoServe(q) => WakeUntimed(j.core, q, t);
      case DoReset(q) => KickUntimed(j.core, q, t);
      case DoStir(u) => RouseUntimed(j.core, u, t);
    }
  }

  lemma CallsStay(j: Timed, s: Step, t: Tid)
    requires Inv(j) && Enabled(j, s) && SameCall(s, t) && t !in j.calls
    ensures t !in Next(j, s).calls
  {
    hide Inv, CoreInv, T.Act, Wake, KickAll, Rouse, Aside, InRange, DeedsOk, EndsIn, OtherEnabled, T.Shape, Enter, Leave, Sleep;
    if s.DoAgain? && s.t == t { Forever(j, t); }
  }

  lemma OtherUntimed(j: Timed, s: Step, t: Tid)
    requires Inv(j) && Enabled(j, s) && SameCall(s, t) && Untimed(j.core, t) && t !in j.calls
    requires s.DoWait? || s.DoAgain? || s.DoReturn? || s.DoNap? || s.DoAside? || s.DoError?
    ensures Untimed(Next(j, s).core, t)
  {
    hide Inv, CoreInv, T.Act, OtherEnabled, T.Shape, SameTimer, Nap, Asleep, Aside, Timeouts.Left;
    CoreOf(j);
    match s {
      case DoWait(q, u, flag, k) => AsleepOthers(j, q, u, flag, k, t);
      case DoAgain(u, flag) =>
        if u != t {
          AsleepOthers(j, j.core.blocked[u], u, flag, Timeouts.Left(j, u), t);
        } else {
          Forever(j, t);
          AsleepUntimed(j, j.core.blocked[t], t, flag, Timeouts.Left(j, t));
        }
      case DoReturn(_) =>
      case DoNap(u, k) => NapOthers(j, u, k, t);
      case DoAside(o) => AsideErrors(j.core, o);
      case DoError(_, _) =>
    }
  }

  lemma AsleepUntimed(j: Timed, q: nat, t: Tid, flag: Flag, k: int)
    requires CoreInv(j.core) && T.Shape(j.wheel) && IsReady(j, t) && q < |j.core.sys.wait| && k <= 0
    ensures Untimed(Asleep(j, q, t, flag, k).core, t)
  {
    hide CoreInv, T.Act, T.Shape, Enter, Less, Joined;
    EnterKeeps(j.core, q, t, flag, false);
    EnterBlocked(j.core, q, t, flag, false);
  }

  lemma AsideErrors(c: Core, o: Other)
    requires CoreInv(c) && OtherEnabled(c, o) && (o.Spin? || o.Rank?)
    ensures var c' := Aside(c, o);
      && c'.blocked == c.blocked && c'.sys.tcb.Keys == c.sys.tcb.Keys
      && forall t :: t in c.sys.tcb ==> c'.sys.tcb[t].error == c.sys.tcb[t].error && c'.sys.tcb[t].armed == c.sys.tcb[t].armed
  {
    AsideTcbs(c, o);
    hide CoreInv, ChangePriority, Yield;
  }

  lemma {:induction false} RunUntimed(j: Timed, ss: seq<Step>, t: Tid)
    requires Inv(j) && EnabledRun(j, ss) && (forall s :: s in ss ==> SameCall(s, t)) && Untimed(j.core, t) && t !in j.calls
    ensures Inv(Run(j, ss)) && Untimed(Run(j, ss).core, t)
    decreases |ss|
  {
    hide Inv, Next, Enabled, SameCall, Untimed;
    if ss != [] {
      assert ss[0] in ss && forall s :: s in ss[1..] ==> s in ss;
      NextKeeps(j, ss[0]);
      StepUntimed(j, ss[0], t);
      RunUntimed(Next(j, ss[0]), ss[1..], t);
    }
  }

  /** Over every run: a call that waits without a timeout, however often it is resumed and sleeps again, never ends
      with -RT_ETIMEOUT, and no timer of its thread runs meanwhile. */
  lemma ForeverNeverTimesOut(sys: Sys, lists: seq<seq<Tid>>, timers: map<nat, T.Timer>, now: int, before: seq<Step>,
                             q: nat, t: Tid, flag: Flag, k: int, after: seq<Step>)
    requires Fresh(sys, lists, timers) && EnabledRun(Create(sys, lists, timers, now), before) && k <= 0
    requires var j := Run(Create(sys, lists, timers, now), before);
      Enabled(j, DoWait(q, t, flag, k)) && EnabledRun(Next(j, DoWait(q, t, flag, k)), after)
    requires forall s :: s in after ==> SameCall(s, t)
    ensures var j := Run(Create(sys, lists, timers, now), before); var j' := Run(Next(j, DoWait(q, t, flag, k)), after);
      t in j'.core.sys.tcb && j'.core.sys.tcb[t].error != ETIMEOUT && t !in j'.wheel.list
  {
    hide Create, Run, EnabledRun, Inv, SameCall, CoreInv, Asleep;
    CreateInv(sys, lists, timers, now);
    RunKeeps(Create(sys, lists, timers, now), before);
    var j := Run(Create(sys, lists, timers, now), before);
    var j1 := Next(j, DoWait(q, t, flag, k));
    NextKeeps(j, DoWait(q, t, flag, k));
    CoreOf(j);
    AsleepUntimed(j, q, t, flag, k);
    AsleepCalls(j, q, t, flag, k);
    RunUntimed(j1, after, t);
    Unlisted(Run(j1, after), t);
  }

  lemma Unlisted(j: Timed, t: Tid)
    requires Inv(j) && Untimed(j.core, t)
    ensures t !in j.wheel.list
  {
    MatchedStep(j, t);
    hide CoreInv, L.Between, Matched;
  }
}
