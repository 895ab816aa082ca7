/** The thread timers and the timer list together: a blocking call with a timeout of k ticks that
    nobody serves ends exactly k ticks later, and the timer of one that is served never fires
    (software/src/ipc.c:361-367, software/src/thread.c:395-423, 585-631, software/src/timer.c:216-414,
    software/src/clock.c:72-94). */
module Timeouts {
  import opened Base
  import opened Threads
  import opened ThreadLemmas
  import opened Waiters
  import T = TimerSpec
  import L = TimerLemmas

  /** The timer of thread t has number t. `calls` records for each timed call in progress when it last
      went to sleep and when it is due, `first` the same for the first time it did. */
  datatype Timed = Timed(core: Core, wheel: T.Wheel, calls: map<Tid, T.Plan>, first: map<Tid, T.Plan>)

  // ---- Sections ------------------------------------------------------------------------------

  /** The thread of a call goes to sleep, with a timeout of k ticks if k is positive. */
  function Asleep(j: Timed, q: nat, t: Tid, flag: Flag, k: int): Timed
    requires t in j.core.sys.tcb && q < |j.core.sys.wait| && T.Shape(j.wheel) && t in j.wheel.timers
  {
    var w := if k > 0 then T.Act(j.wheel, T.Start(t, k)) else j.wheel;
    j.(core := Enter(j.core, q, t, flag, k > 0), wheel := w,
       calls := if k > 0 && t in w.plan then j.calls[t := w.plan[t]] else j.calls - {t})
  }

  /** A new blocking call goes to sleep. */
  function Wait(j: Timed, q: nat, t: Tid, flag: Flag, k: int): Timed
    requires t in j.core.sys.tcb && q < |j.core.sys.wait| && T.Shape(j.wheel) && t in j.wheel.timers
  {
    var j' := Asleep(j, q, t, flag, k);
    j'.(first := if t in j'.calls then j.first[t := j'.calls[t]] else j.first - {t})
  }

  /** What a call that has been resumed computes to be left of its timeout, -1 if it waits forever. */
  function Left(j: Timed, t: Tid): int {
    if t in j.calls then TimeLeft(j.calls[t].due - j.calls[t].since, j.calls[t].since % TICKS, j.wheel.tick) else -1
  }

  /** A call of a mailbox or a message queue that has been resumed finds nothing and sleeps again. */
  function Again(j: Timed, t: Tid, flag: Flag): Timed
    requires t in j.core.sys.tcb && t in j.core.blocked && j.core.blocked[t] < |j.core.sys.wait|
    requires T.Shape(j.wheel) && t in j.wheel.timers
  {
    Asleep(j, j.core.blocked[t], t, flag, Left(j, t))
  }

  /** The call of t returns. */
  function Return(j: Timed, t: Tid): Timed {
    j.(core := Leave(j.core, t), calls := j.calls - {t}, first := j.first - {t})
  }

  /** rt_thread_resume takes the timer of a thread off the list. */
  function Unarm(w: T.Wheel, t: Tid): (r: T.Wheel)
    requires T.Shape(w)
    ensures T.Shape(r) && r.timers.Keys == w.timers.Keys
  {
    if t in w.timers then T.Act(w, T.Stop(t)) else w
  }

  /** The first waiting thread of list q is resumed. */
  function Serve(j: Timed, q: nat): Timed
    requires q < |j.core.sys.wait| && InRange(j.core.sys, j.core.sys.wait[q]) && T.Shape(j.wheel)
  {
    var l := j.core.sys.wait[q];
    j.(core := Wake(j.core, q), wheel := if l == [] then j.wheel else Unarm(j.wheel, l[0]))
  }

  function UnarmAll(w: T.Wheel, l: seq<Tid>): (r: T.Wheel)
    requires T.Shape(w)
    ensures T.Shape(r) && r.timers.Keys == w.timers.Keys
    decreases |l|
  {
    if l == [] then w else UnarmAll(Unarm(w, l[0]), l[1..])
  }

  function Reset(j: Timed, q: nat): Timed
    requires q < |j.core.sys.wait| && InRange(j.core.sys, j.core.sys.wait[q]) && T.Shape(j.wheel)
  {
    j.(core := KickAll(j.core, q), wheel := UnarmAll(j.wheel, j.core.sys.wait[q]))
  }

  /** rt_thread_resume from outside, on a waiting or sleeping thread */
  function Stirred(j: Timed, t: Tid): Timed
    requires t in j.core.sys.tcb && j.core.sys.tcb[t].prio < |j.core.sys.ready| && T.Shape(j.wheel)
  {
    j.(core := Rouse(j.core, t), wheel := Unarm(j.wheel, t))
  }

  /** rt_thread_sleep for k ticks */
  function Nap(j: Timed, t: Tid, k: int): Timed
    requires t in j.core.sys.tcb && T.Shape(j.wheel) && t in j.wheel.timers
  {
    j.(core := j.core.(sys := Sleep(j.core.sys, t)), wheel := T.Act(j.wheel, T.Start(t, k)))
  }

  /** What the timeout function of another timer does: it handles timers, resumes the first waiting
      thread of a list, resets an object, or calls rt_thread_resume. */
  datatype Deed = Timing(a: T.Action) | Serving(q: nat) | Resetting(q: nat) | Stirring(t: Tid)

  type Deeds = map<nat, seq<Deed>>

  function DeedsOf(deeds: Deeds, id: nat): seq<Deed> {
    if id in deeds then deeds[id] else []
  }

  function Do(j: Timed, d: Deed): (r: Timed)
    requires T.Shape(j.wheel)
    ensures T.Shape(r.wheel) && r.wheel.timers.Keys == j.wheel.timers.Keys && r.calls == j.calls && r.first == j.first
  {
    match d
    case Timing(a) => if a.id in j.wheel.timers then j.(wheel := T.Act(j.wheel, a)) else j
    case Serving(q) =>
      if q < |j.core.sys.wait| && InRange(j.core.sys, j.core.sys.wait[q]) then Serve(j, q) else j
    case Resetting(q) =>
      if q < |j.core.sys.wait| && InRange(j.core.sys, j.core.sys.wait[q]) then Reset(j, q) else j
    case Stirring(t) =>
      if t in j.core.sys.tcb && j.core.sys.tcb[t].stat == Suspended && j.core.sys.tcb[t].prio < |j.core.sys.ready|
      then Stirred(j, t) else j
  }

  function DoAll(j: Timed, ds: seq<Deed>): (r: Timed)
    requires T.Shape(j.wheel)
    ensures T.Shape(r.wheel) && r.wheel.timers.Keys == j.wheel.timers.Keys && r.calls == j.calls && r.first == j.first
    decreases |ds|
  {
    if ds == [] then j else DoAll(Do(j, ds[0]), ds[1..])
  }

  /** A fired timer leaves the list; the timeout function of a thread's timer is rt_thread_timeout. */
  function Popped1(j: Timed): (r: Timed)
    requires T.Shape(j.wheel) && j.wheel.list != []
    ensures T.Shape(r.wheel) && r.wheel.timers == j.wheel.timers && r.calls == j.calls && r.first == j.first
  {
    var t := j.wheel.list[0];
    var c := if t in j.core.sys.tcb && j.core.sys.tcb[t].prio < |j.core.sys.ready| then Expire(j.core, t) else j.core;
    j.(core := c, wheel := T.Pop(j.wheel))
  }

  /** One round of rt_timer_check */
  function FireOne(j: Timed, deeds: Deeds): (r: Timed)
    requires T.Shape(j.wheel) && j.wheel.list != []
    ensures T.Shape(r.wheel) && r.calls == j.calls && r.first == j.first
  {
    var t := j.wheel.list[0];
    assert t in j.wheel.list;
    var j' := DoAll(Popped1(j), DeedsOf(deeds, t));
    j'.(wheel := T.Renew(j'.wheel, t))
  }

  /** The loop of rt_timer_check ends after n rounds. */
  predicate EndsIn(j: Timed, deeds: Deeds, n: nat)
    requires T.Shape(j.wheel)
    decreases n
  {
    if T.HeadDue(j.wheel) then n > 0 && EndsIn(FireOne(j, deeds), deeds, n - 1) else n == 0
  }

  function FireAll(j: Timed, deeds: Deeds, n: nat): (r: Timed)
    requires T.Shape(j.wheel) && EndsIn(j, deeds, n)
    ensures T.Shape(r.wheel) && r.calls == j.calls && r.first == j.first
    decreases n
  {
    if n == 0 then j else FireAll(FireOne(j, deeds), deeds, n - 1)
  }

  function Advance(j: Timed): Timed {
    j.(wheel := T.Advance(j.wheel))
  }

  function Done(j: Timed): Timed {
    j.(wheel := j.wheel.(checking := false))
  }

  /** rt_tick_increase, when its rt_timer_check returns after n rounds */
  function Tick(j: Timed, deeds: Deeds, n: nat): Timed
    requires T.Shape(j.wheel) && EndsIn(Advance(j), deeds, n)
  {
    Done(FireAll(Advance(j), deeds, n))
  }

  // ---- The invariant -------------------------------------------------------------------------

  /** A thread timer is one-shot and in the list exactly while the thread is armed. */
  ghost predicate InStep(c: Tcb, w: T.Wheel, t: Tid) {
    t in w.timers && !w.timers[t].periodic && (c.armed <==> t in w.list)
  }

  /** Stopped before p is due, or by another timeout function of the very tick. */
  predicate StoppedInTime(e: Option<T.Event>, p: T.Plan) {
    && e.Some? && e.value.Stopped?
    && (e.value.at < p.due || (e.value.at == p.due && e.value.inside))
  }

  /** A timed call is waiting for its timer, has timed out exactly at its due time, or was resumed in
      time, with its timer stopped since. */
  ghost predicate CallOk(c: Tcb, w: T.Wheel, p: T.Plan, t: Tid) {
    && p.since < p.due < p.since + T.HALF && p.since <= w.now
    && (c.stat == Suspended ==> c.armed && t in w.plan && w.plan[t] == p)
    && (c.stat != Suspended && c.error == ETIMEOUT ==> L.Last(w.log, t) == Some(T.Fired(t, p, p.due)))
    && (c.stat != Suspended && c.error != ETIMEOUT ==>
          StoppedInTime(L.Last(w.log, t), p))
  }

  ghost predicate Matched(tcb: map<Tid, Tcb>, blocked: map<Tid, nat>, w: T.Wheel, calls: map<Tid, T.Plan>) {
    && (forall t :: t in tcb ==> InStep(tcb[t], w, t))
    && (forall t :: t in calls ==> t in tcb && t in blocked && CallOk(tcb[t], w, calls[t], t))
  }

  ghost predicate Inv(j: Timed) {
    CoreInv(j.core) && L.Between(j.wheel) && Matched(j.core.sys.tcb, j.core.blocked, j.wheel, j.calls)
  }

  /** The timers between two ticks, and while rt_timer_check runs, perhaps with a timer just fired. */
  ghost predicate WheelOk(w: T.Wheel, fired: Option<nat>) {
    if w.checking then L.Good(w, fired) && L.Ripe(w) else L.Between(w) && fired.None?
  }

  /** The invariant at any time; a timer that is being fired is no thread's. */
  ghost predicate Mid(j: Timed, fired: Option<nat>) {
    && CoreInv(j.core) && WheelOk(j.wheel, fired) && Matched(j.core.sys.tcb, j.core.blocked, j.wheel, j.calls)
    && (fired.Some? ==> fired.value !in j.core.sys.tcb && fired.value in j.wheel.timers)
  }

  lemma InvMid(j: Timed)
    requires Inv(j)
    ensures Mid(j, None) && !j.wheel.checking
  {
    hide CoreInv, Matched, L.Good;
  }

  lemma MidInv(j: Timed)
    requires Mid(j, None) && !j.wheel.checking
    ensures Inv(j)
  {}

  lemma BetweenOk(w: T.Wheel)
    requires L.Between(w)
    ensures WheelOk(w, None) && !w.checking
  {
    hide L.Good;
  }

  lemma WheelShape(w: T.Wheel, fired: Option<nat>)
    requires WheelOk(w, fired)
    ensures T.Shape(w) && w.tick == w.now % TICKS && NoDup(w.list)
  {
    hide NoDup, L.InOrder, L.LogOk, L.TimersOk, L.Pending, L.Ripe;
    assert L.Good(w, fired);
    L.GoodShape(w, fired);
  }

  lemma ActWheel(w: T.Wheel, a: T.Action, fired: Option<nat>)
    requires WheelOk(w, fired) && L.ActionOk(w.timers, a)
    ensures T.Shape(w) && a.id in w.timers && WheelOk(T.Act(w, a), fired)
    ensures var w' := T.Act(w, a); w'.now == w.now && w'.checking == w.checking && L.SameKinds(w.timers, w'.timers)
  {
    WheelShape(w, fired);
    hide L.Good, L.Ripe, L.Between, T.Act;
    L.ActKinds(w, a);
    if w.checking {
      L.ActGood(w, a, fired);
      L.RipeAct(w, a);
    } else {
      L.ActBetween(w, a);
    }
  }

  // ---- One timer at a time -------------------------------------------------------------------

  predicate SameMode(c: T.Timer, c': T.Timer) {
    c'.periodic == c.periodic && c'.active == c.active
  }

  ghost predicate SameTimer(w: T.Wheel, w': T.Wheel, t: Tid) {
    && (t in w'.list <==> t in w.list)
    && (t in w'.plan <==> t in w.plan) && (t in w.plan ==> w'.plan[t] == w.plan[t])
    && (t in w'.timers <==> t in w.timers) && (t in w.timers ==> SameMode(w.timers[t], w'.timers[t]))
    && w'.now >= w.now && L.Last(w'.log, t) == L.Last(w.log, t)
  }

  lemma ActOthers(w: T.Wheel, a: T.Action, t: Tid)
    requires T.Shape(w) && a.id in w.timers && a.id != t
    ensures SameTimer(w, T.Act(w, a), t)
  {
    hide T.Shape, L.Last, T.Place, Without, Insert;
    match a
    case SetTime(id, k) =>
    case Start(id, k) =>
      if !w.timers[id].active {
        var w1 := T.SetInit(w, id, k);
        assert T.Shape(w1) by { SetShape(w, id, k); }
        L.LaunchMembers(w1, id);
        var w2 := T.Launch(w1, id);
        L.LastOther(w.log, w2.log[|w.log|], t);
      }
    case Stop(id) =>
      if w.timers[id].active {
        L.LastOther(w.log, T.Stopped(id, w.now, w.checking), t);
      }
  }

  lemma SetShape(w: T.Wheel, id: nat, k: int)
    requires T.Shape(w) && id in w.timers
    ensures T.Shape(T.SetInit(w, id, k))
  {}

  lemma StartOwn(w: T.Wheel, t: Tid, k: int)
    requires L.Between(w) && L.ActionOk(w.timers, T.Start(t, k)) && t !in w.list
    ensures T.Shape(w) && L.Between(T.Act(w, T.Start(t, k)))
    ensures var w' := T.Act(w, T.Start(t, k));
      && t in w'.list && t in w'.plan && w'.plan[t].since == w.now && w'.plan[t].due == w.now + k
      && t in w'.timers && w'.timers[t].periodic == w.timers[t].periodic && w'.now == w.now
  {
    hide L.Between, L.Good, T.Place, Insert;
    L.BetweenShape(w);
    BetweenOk(w);
    Idle(w, t, None);
    L.ActBetween(w, T.Start(t, k));
    L.LaunchMembers(T.SetInit(w, t, k), t);
  }

  lemma Idle(w: T.Wheel, t: Tid, fired: Option<nat>)
    requires WheelOk(w, fired) && t in w.timers && fired != Some(t)
    ensures w.timers[t].active <==> t in w.list
  {
    hide NoDup, L.InOrder, L.LogOk, L.TimersOk, L.Ripe;
    assert L.Good(w, fired);
  }

  lemma StopOwn(w: T.Wheel, t: Tid, fired: Option<nat>)
    requires WheelOk(w, fired) && t in w.timers && fired != Some(t)
    ensures T.Shape(w) && WheelOk(Unarm(w, t), fired)
    ensures var w' := Unarm(w, t);
      && t !in w'.list && t in w'.timers && w'.timers[t].periodic == w.timers[t].periodic
      && w'.now == w.now && w'.checking == w.checking
      && (t in w.list ==> L.Last(w'.log, t) == Some(T.Stopped(t, w.now, w.checking)))
  {
    hide WheelOk, Without, L.Last, NoDup;
    WheelShape(w, fired);
    Idle(w, t, fired);
    ActWheel(w, T.Stop(t), fired);
    if w.timers[t].active { L.LastOwn(w.log, T.Stopped(t, w.now, w.checking)); }
  }

  /** A waiting timed call is not due yet, or due in the check that is running. */
  lemma NotDueYet(w: T.Wheel, c: Tcb, p: T.Plan, t: Tid, fired: Option<nat>)
    requires WheelOk(w, fired) && InStep(c, w, t) && CallOk(c, w, p, t) && c.stat == Suspended
    ensures w.now < p.due || (w.checking && w.now == p.due)
    ensures t in w.list && L.Last(w.log, t) == Some(T.Armed(t, p))
  {
    hide NoDup, L.InOrder, L.TimersOk, L.Last, L.OnTime, L.Ripe;
    assert L.Good(w, fired);
    assert L.Pending(w.timers, w.plan, w.now, t);
  }

  // ---- One thread at a time ------------------------------------------------------------------

  /** Only thread x and its timer have changed. */
  lemma OneThread(tcb: map<Tid, Tcb>, tcb': map<Tid, Tcb>, b: map<Tid, nat>, b': map<Tid, nat>,
                  w: T.Wheel, w': T.Wheel, c: map<Tid, T.Plan>, c': map<Tid, T.Plan>, x: Tid)
    requires Matched(tcb, b, w, c) && tcb'.Keys == tcb.Keys && x in tcb
    requires forall t :: t in tcb && t != x ==> tcb'[t] == tcb[t] && SameTimer(w, w', t)
    requires forall t :: t in b && t != x ==> t in b'
    requires forall t :: t in c' && t != x ==> t in c && c'[t] == c[t]
    requires InStep(tcb'[x], w', x)
    requires x in c' ==> x in b' && CallOk(tcb'[x], w', c'[x], x)
    ensures Matched(tcb', b', w', c')
  {
    hide L.Last;
    forall t | t in tcb' ensures InStep(tcb'[t], w', t) {
      if t != x { assert InStep(tcb[t], w, t); }
    }
    forall t | t in c' ensures t in tcb' && t in b' && CallOk(tcb'[t], w', c'[t], t) {
      if t != x { assert CallOk(tcb[t], w, c[t], t); }
    }
  }

  lemma AsleepKeeps(j: Timed, q: nat, t: Tid, flag: Flag, k: int)
    requires Inv(j) && T.Shape(j.wheel) && IsReady(j, t) && q < |j.core.sys.wait| && k < T.HALF
    ensures Inv(Asleep(j, q, t, flag, k))
    ensures k > 0 ==> var j' := Asleep(j, q, t, flag, k);
      t in j'.calls && j'.calls[t].since == j.wheel.now && j'.calls[t].due == j.wheel.now + k
  {
    hide CoreInv, L.Between, Matched, Enter, Joined, Less, SameTimer, T.Act;
    Unarmed(j, t);
    EnterKeeps(j.core, q, t, flag, k > 0);
    var j' := Asleep(j, q, t, flag, k);
    EnterBlocked(j.core, q, t, flag, k > 0);
    if k > 0 {
      StartOwn(j.wheel, t, k);
      forall u: Tid | u != t ensures SameTimer(j.wheel, j'.wheel, u) { ActOthers(j.wheel, T.Start(t, k), u); }
    } else {
      forall u: Tid ensures SameTimer(j.wheel, j'.wheel, u) { SameItself(j.wheel, u); }
    }
    OneThread(j.core.sys.tcb, j'.core.sys.tcb, j.core.blocked, j'.core.blocked, j.wheel, j'.wheel, j.calls, j'.calls, t);
  }

  lemma WaitKeeps(j: Timed, q: nat, t: Tid, flag: Flag, k: int)
    requires Inv(j) && Enabled(j, DoWait(q, t, flag, k))
    ensures Inv(Wait(j, q, t, flag, k))
    ensures k > 0 ==> var j' := Wait(j, q, t, flag, k);
      && t in j'.calls && j'.calls[t].since == j.wheel.now && j'.calls[t].due == j.wheel.now + k
      && t in j'.first && j'.first[t] == j'.calls[t]
  {
    hide CoreInv, L.Between, Matched, Asleep, T.Shape;
    AsleepKeeps(j, q, t, flag, k);
  }

  lemma AgainKeeps(j: Timed, t: Tid, flag: Flag)
    requires Inv(j) && Enabled(j, DoAgain(t, flag))
    ensures Inv(Again(j, t, flag))
  {
    hide Inv, Asleep, T.Shape, Left;
    AsleepKeeps(j, j.core.blocked[t], t, flag, Left(j, t));
  }

  lemma SameItself(w: T.Wheel, t: Tid)
    ensures SameTimer(w, w, t)
  {}

  lemma EnterBlocked(c: Core, q: nat, t: Tid, flag: Flag, timed: bool)
    requires t in c.sys.tcb && q < |c.sys.wait|
    ensures Enter(c, q, t, flag, timed).blocked == c.blocked[t := q]
  {}

  /** A READY thread has no timer in the list. */
  lemma Unarmed(j: Timed, t: Tid)
    requires Inv(j) && t in j.core.sys.tcb && j.core.sys.tcb[t].stat == Ready
    ensures !j.core.sys.tcb[t].armed && InStep(j.core.sys.tcb[t], j.wheel, t) && t !in j.wheel.list
  {
    hide CallsOk, L.Between;
    ReadyUnarmed(j.core.sys, t);
    hide Placed;
  }

  lemma ReturnKeeps(j: Timed, t: Tid)
    requires Inv(j) && Enabled(j, DoReturn(t))
    ensures Inv(Return(j, t))
  {
    hide CoreInv, L.Between, Matched, SameTimer, Less;
    LeaveKeeps(j.core, t);
    MatchedStep(j, t);
    forall u: Tid ensures SameTimer(j.wheel, j.wheel, u) { SameItself(j.wheel, u); }
    OneThread(j.core.sys.tcb, j.core.sys.tcb, j.core.blocked, j.core.blocked - {t}, j.wheel, j.wheel, j.calls,
              j.calls - {t}, t);
  }

  lemma MatchedStep(j: Timed, t: Tid)
    requires Matched(j.core.sys.tcb, j.core.blocked, j.wheel, j.calls) && t in j.core.sys.tcb
    ensures InStep(j.core.sys.tcb[t], j.wheel, t)
    ensures t in j.calls ==> t in j.core.blocked && CallOk(j.core.sys.tcb[t], j.wheel, j.calls[t], t)
  {
    hide L.Last;
  }

  /** What a resumed thread finds: its timer is stopped, in time if it was in a timed call. */
  lemma Resumed1(j: Timed, t: Tid, e: Err, fired: Option<nat>)
    requires Mid(j, fired) && t in j.core.sys.tcb && j.core.sys.tcb[t].stat == Suspended
    requires t in j.calls ==> e != ETIMEOUT
    ensures T.Shape(j.wheel) && WheelOk(Unarm(j.wheel, t), fired)
    ensures var x := j.core.sys.tcb[t].(stat := Ready, error := e, armed := false);
      && InStep(x, Unarm(j.wheel, t), t)
      && (t in j.calls ==> t in j.core.blocked && CallOk(x, Unarm(j.wheel, t), j.calls[t], t))
    ensures forall u: Tid :: u != t ==> SameTimer(j.wheel, Unarm(j.wheel, t), u)
    ensures Unarm(j.wheel, t).checking == j.wheel.checking && Unarm(j.wheel, t).now == j.wheel.now
    ensures Unarm(j.wheel, t).timers.Keys == j.wheel.timers.Keys
  {
    hide CoreInv, WheelOk, Matched, SameTimer, L.Last, T.Act;
    MatchedStep(j, t);
    StopOwn(j.wheel, t, fired);
    if t in j.calls { NotDueYet(j.wheel, j.core.sys.tcb[t], j.calls[t], t, fired); }
    forall u: Tid | u != t ensures SameTimer(j.wheel, Unarm(j.wheel, t), u) { ActOthers(j.wheel, T.Stop(t), u); }
  }

  /** What a deed leaves alone while a timer is fired. */
  ghost predicate Steady(j: Timed, j': Timed) {
    && j'.core.sys.tcb.Keys == j.core.sys.tcb.Keys && j'.core.blocked == j.core.blocked
    && j'.wheel.checking == j.wheel.checking && j'.wheel.now == j.wheel.now
    && L.SameKinds(j.wheel.timers, j'.wheel.timers)
  }

  ghost predicate Elsewhere(j: Timed, j': Timed) {
    forall id: nat :: id !in j.core.sys.tcb ==> SameTimer(j.wheel, j'.wheel, id)
  }

  lemma ElsewhereItself(j: Timed, j': Timed)
    requires j'.wheel == j.wheel
    ensures Elsewhere(j, j')
  {}

  lemma UnarmKinds(w: T.Wheel, t: Tid)
    requires T.Shape(w)
    ensures L.SameKinds(w.timers, Unarm(w, t).timers)
  {
    hide T.Act, T.Shape;
    if t in w.timers { L.ActKinds(w, T.Stop(t)); }
  }

  lemma ServeKeeps(j: Timed, q: nat, fired: Option<nat>)
    requires Mid(j, fired) && q < |j.core.sys.wait|
    ensures InRange(j.core.sys, j.core.sys.wait[q]) && T.Shape(j.wheel)
    ensures Mid(Serve(j, q), fired) && Steady(j, Serve(j, q)) && Elsewhere(j, Serve(j, q))
  {
    hide CoreInv, WheelOk, Matched, SameTimer, Wake, Popped, InStep, CallOk, Unarm, InRange;
    WheelShape(j.wheel, fired);
    WakeKeeps(j.core, q);
    var j' := Serve(j, q);
    if j.core.sys.wait[q] != [] {
      var t := j.core.sys.wait[q][0];
      Resumed1(j, t, j.core.sys.tcb[t].error, fired);
      UnarmKinds(j.wheel, t);
      OneThread(j.core.sys.tcb, j'.core.sys.tcb, j.core.blocked, j'.core.blocked, j.wheel, j'.wheel, j.calls, j.calls, t);
    } else {
      ElsewhereItself(j, j');
    }
  }

  lemma StirredKeeps(j: Timed, t: Tid, fired: Option<nat>)
    requires Mid(j, fired) && t in j.core.sys.tcb && j.core.sys.tcb[t].stat == Suspended
    ensures j.core.sys.tcb[t].prio < |j.core.sys.ready| && T.Shape(j.wheel)
    ensures Mid(Stirred(j, t), fired) && Steady(j, Stirred(j, t)) && Elsewhere(j, Stirred(j, t))
  {
    hide CoreInv, WheelOk, Matched, SameTimer, Rouse, InStep, CallOk, Unarm, Resumed, Without, SameResumed;
    RouseEffect(j.core, t);
    var x := j.core.sys.tcb[t];
    if t in j.core.blocked {
      SleeperError(j.core, t);
      RouseKeeps(j.core, t);
    } else {
      NotCalled(j, t);
      assert OtherEnabled(j.core, Stir(t));
      AsideKeeps(j.core, Stir(t));
    }
    Resumed1(j, t, x.error, fired);
    UnarmKinds(j.wheel, t);
    var j' := Stirred(j, t);
    OneThread(j.core.sys.tcb, j'.core.sys.tcb, j.core.blocked, j'.core.blocked, j.wheel, j'.wheel, j.calls, j.calls, t);
  }

  lemma NapKeeps(j: Timed, t: Tid, k: int)
    requires Inv(j) && Enabled(j, DoNap(t, k))
    ensures Inv(Nap(j, t, k))
  {
    hide CoreInv, L.Between, Matched, SameTimer, T.Act, SameResumed, Sleep;
    Unarmed(j, t);
    SleepTcb(j.core, t);
    AsideKeeps(j.core, Doze(t));
    StartOwn(j.wheel, t, k);
    var j' := Nap(j, t, k);
    assert j'.core == Aside(j.core, Doze(t));
    NotCalled(j, t);
    forall u: Tid | u != t ensures SameTimer(j.wheel, j'.wheel, u) { ActOthers(j.wheel, T.Start(t, k), u); }
    OneThread(j.core.sys.tcb, j'.core.sys.tcb, j.core.blocked, j'.core.blocked, j.wheel, j'.wheel, j.calls, j.calls, t);
  }

  lemma SleepTcb(c: Core, t: Tid)
    requires CoreInv(c) && t in c.sys.tcb && c.sys.tcb[t].stat == Ready
    ensures Sleep(c.sys, t).tcb == c.sys.tcb[t := c.sys.tcb[t].(stat := Suspended, armed := true)]
  {
    SleepPlaced(c.sys, t);
  }

  lemma NotCalled(j: Timed, t: Tid)
    requires Matched(j.core.sys.tcb, j.core.blocked, j.wheel, j.calls) && t !in j.core.blocked
    ensures t !in j.calls
  {}

  // ---- Reset ---------------------------------------------------------------------------------

  lemma UnarmOthers(w: T.Wheel, t: Tid, u: Tid)
    requires T.Shape(w) && u != t
    ensures SameTimer(w, Unarm(w, t), u)
  {
    hide SameTimer, T.Act;
    SameItself(w, u);
    if t in w.timers { ActOthers(w, T.Stop(t), u); }
  }

  lemma SameChain(w: T.Wheel, w1: T.Wheel, w2: T.Wheel, t: Tid)
    requires SameTimer(w, w1, t) && SameTimer(w1, w2, t)
    ensures SameTimer(w, w2, t)
  {}

  lemma {:induction false} UnarmAllOther(w: T.Wheel, l: seq<Tid>, t: Tid)
    requires T.Shape(w) && t !in l
    ensures SameTimer(w, UnarmAll(w, l), t)
    decreases |l|
  {
    hide SameTimer, Unarm;
    SameItself(w, t);
    if l != [] {
      UnarmOthers(w, l[0], t);
      UnarmAllOther(Unarm(w, l[0]), l[1..], t);
      SameChain(w, Unarm(w, l[0]), UnarmAll(w, l), t);
    }
  }

  /** Unarming the threads of l, each of them once. */
  lemma {:induction false} UnarmAllOwn(w: T.Wheel, l: seq<Tid>, t: Tid, fired: Option<nat>)
    requires WheelOk(w, fired) && t in l && NoDup(l) && t in w.timers && (fired.Some? ==> fired.value !in l)
    ensures T.Shape(w)
    ensures var w' := UnarmAll(w, l);
      && t !in w'.list && t in w'.timers && w'.timers[t].periodic == w.timers[t].periodic
      && (t in w.list ==> L.Last(w'.log, t) == Some(T.Stopped(t, w.now, w.checking)))
    decreases |l|
  {
    hide WheelOk, Unarm, L.Last, NoDup, SameTimer;
    WheelShape(w, fired);
    NoDupTail(l);
    assert l[0] in l;
    UnarmWheel(w, l[0], fired);
    if l[0] == t {
      StopOwn(w, t, fired);
      UnarmAllOther(Unarm(w, t), l[1..], t);
      SameFacts(Unarm(w, t), UnarmAll(w, l), t);
    } else {
      UnarmOthers(w, l[0], t);
      SameFacts(w, Unarm(w, l[0]), t);
      UnarmAllOwn(Unarm(w, l[0]), l[1..], t, fired);
    }
  }

  lemma SameFacts(w: T.Wheel, w': T.Wheel, t: Tid)
    requires SameTimer(w, w', t) && t in w.timers
    ensures (t in w'.list <==> t in w.list) && t in w'.timers && w'.timers[t].periodic == w.timers[t].periodic
    ensures w'.timers[t].active == w.timers[t].active && L.Last(w'.log, t) == L.Last(w.log, t)
  {}

  lemma UnarmWheel(w: T.Wheel, t: Tid, fired: Option<nat>)
    requires WheelOk(w, fired)
    ensures T.Shape(w) && WheelOk(Unarm(w, t), fired) && L.SameKinds(w.timers, Unarm(w, t).timers)
    ensures Unarm(w, t).now == w.now && Unarm(w, t).checking == w.checking
  {
    hide WheelOk, T.Act;
    WheelShape(w, fired);
    if t in w.timers { ActWheel(w, T.Stop(t), fired); }
  }

  lemma {:induction false} UnarmAllWheel(w: T.Wheel, l: seq<Tid>, fired: Option<nat>)
    requires WheelOk(w, fired)
    ensures T.Shape(w) && WheelOk(UnarmAll(w, l), fired) && L.SameKinds(w.timers, UnarmAll(w, l).timers)
    ensures UnarmAll(w, l).now == w.now && UnarmAll(w, l).checking == w.checking
    decreases |l|
  {
    hide WheelOk, Unarm;
    WheelShape(w, fired);
    if l != [] {
      UnarmWheel(w, l[0], fired);
      UnarmAllWheel(Unarm(w, l[0]), l[1..], fired);
    }
  }

  lemma ResetKeeps(j: Timed, q: nat, fired: Option<nat>)
    requires Mid(j, fired) && q < |j.core.sys.wait|
    ensures InRange(j.core.sys, j.core.sys.wait[q]) && T.Shape(j.wheel)
    ensures Mid(Reset(j, q), fired) && Steady(j, Reset(j, q)) && Elsewhere(j, Reset(j, q))
  {
    hide CoreInv, WheelOk, Matched, KickAll, SameResumed, UnarmAll, InRange, SameTimer;
    WheelShape(j.wheel, fired);
    KickAllKeeps(j.core, q);
    UnarmAllWheel(j.wheel, j.core.sys.wait[q], fired);
    ResetMatched(j, q, fired);
    forall id: nat | id !in j.core.sys.tcb ensures SameTimer(j.wheel, Reset(j, q).wheel, id) {
      if id in j.core.sys.wait[q] { WaitsOnce(j.core, q, id); }
      UnarmAllOther(j.wheel, j.core.sys.wait[q], id);
    }
  }

  lemma ResetMatched(j: Timed, q: nat, fired: Option<nat>)
    requires Mid(j, fired) && q < |j.core.sys.wait| && T.Shape(j.wheel)
    requires InRange(j.core.sys, j.core.sys.wait[q]) && KickedAll(j.core, KickAll(j.core, q), q)
    ensures var j' := Reset(j, q); Matched(j'.core.sys.tcb, j'.core.blocked, j'.wheel, j'.calls)
  {
    hide CoreInv, WheelOk, Matched, KickAll, InStep, CallOk, SameTimer, UnarmAll, Kicked, L.Last;
    var j' := Reset(j, q);
    forall t | t in j.core.sys.tcb
      ensures InStep(j'.core.sys.tcb[t], j'.wheel, t)
      ensures t in j.calls ==> CallOk(j'.core.sys.tcb[t], j'.wheel, j.calls[t], t)
    {
      MatchedStep(j, t);
      if t in j.core.sys.wait[q] {
        KickedOk(j, q, t, fired);
      } else {
        UnarmAllOther(j.wheel, j.core.sys.wait[q], t);
        StayOk(j.core.sys.tcb[t], j.wheel, j'.wheel, t);
        if t in j.calls { StayCall(j.core.sys.tcb[t], j.wheel, j'.wheel, j.calls[t], t); }
      }
    }
    MatchedFrom(j, j');
  }

  lemma MatchedFrom(j: Timed, j': Timed)
    requires Matched(j.core.sys.tcb, j.core.blocked, j.wheel, j.calls) && j'.core.blocked == j.core.blocked
    requires j'.calls == j.calls && j'.core.sys.tcb.Keys == j.core.sys.tcb.Keys
    requires forall t :: t in j.core.sys.tcb ==> InStep(j'.core.sys.tcb[t], j'.wheel, t)
    requires forall t :: t in j.core.sys.tcb && t in j.calls ==> CallOk(j'.core.sys.tcb[t], j'.wheel, j.calls[t], t)
    ensures Matched(j'.core.sys.tcb, j'.core.blocked, j'.wheel, j'.calls)
  {
    hide InStep, CallOk;
  }

  lemma StayOk(c: Tcb, w: T.Wheel, w': T.Wheel, t: Tid)
    requires InStep(c, w, t) && SameTimer(w, w', t)
    ensures InStep(c, w', t)
  {}

  lemma StayCall(c: Tcb, w: T.Wheel, w': T.Wheel, p: T.Plan, t: Tid)
    requires CallOk(c, w, p, t) && SameTimer(w, w', t)
    ensures CallOk(c, w', p, t)
  {
    hide L.Last;
  }

  lemma KickedOk(j: Timed, q: nat, t: Tid, fired: Option<nat>)
    requires Mid(j, fired) && q < |j.core.sys.wait| && t in j.core.sys.wait[q] && t in j.core.sys.tcb
    ensures T.Shape(j.wheel)
    ensures var w' := UnarmAll(j.wheel, j.core.sys.wait[q]);
      && InStep(Kicked(j.core.sys.tcb[t]), w', t)
      && (t in j.calls ==> CallOk(Kicked(j.core.sys.tcb[t]), w', j.calls[t], t))
  {
    hide CoreInv, WheelOk, Matched, UnarmAll, L.Last, NoDup;
    MatchedStep(j, t);
    WaitsOnce(j.core, q, t);
    if fired.Some? && fired.value in j.core.sys.wait[q] { WaitsOnce(j.core, q, fired.value); }
    UnarmAllOwn(j.wheel, j.core.sys.wait[q], t, fired);
    UnarmAllWheel(j.wheel, j.core.sys.wait[q], fired);
    if t in j.calls { NotDueYet(j.wheel, j.core.sys.tcb[t], j.calls[t], t, fired); }
  }

  lemma WaitsOnce(c: Core, q: nat, t: Tid)
    requires CoreInv(c) && q < |c.sys.wait| && t in c.sys.wait[q]
    ensures NoDup(c.sys.wait[q]) && t in c.sys.tcb && c.sys.tcb[t].stat == Suspended
  {
    hide CallsOk, ReadyPlaced, NoDup;
  }

  // ---- The tick ------------------------------------------------------------------------------

  /** The timer operations among some deeds */
  function Actions(ds: seq<Deed>): seq<T.Action>
    decreases |ds|
  {
    if ds == [] then [] else (if ds[0].Timing? then [ds[0].a] else []) + Actions(ds[1..])
  }

  /** A timeout function of another timer handles no thread timer itself. */
  ghost predicate DeedOk(timers: map<nat, T.Timer>, tcb: map<Tid, Tcb>, d: Deed) {
    d.Timing? ==> L.ActionOk(timers, d.a) && d.a.id !in tcb
  }

  ghost predicate DeedsOk(timers: map<nat, T.Timer>, tcb: map<Tid, Tcb>, deeds: Deeds) {
    forall id :: id in deeds ==>
      && id !in tcb && !T.Restarts(Actions(deeds[id]), id)
      && forall d :: d in deeds[id] ==> DeedOk(timers, tcb, d)
  }

  lemma TimingKeeps(j: Timed, a: T.Action, fired: Option<nat>)
    requires Mid(j, fired) && L.ActionOk(j.wheel.timers, a) && a.id !in j.core.sys.tcb
    ensures T.Shape(j.wheel) && a.id in j.wheel.timers
    ensures var j' := j.(wheel := T.Act(j.wheel, a)); Mid(j', fired) && Steady(j, j')
  {
    hide CoreInv, WheelOk, Matched, SameTimer, T.Act;
    ActWheel(j.wheel, a, fired);
    forall t | t in j.core.sys.tcb ensures SameTimer(j.wheel, T.Act(j.wheel, a), t) { ActOthers(j.wheel, a, t); }
    NoThread(j, j.(wheel := T.Act(j.wheel, a)));
  }

  /** One deed of the timeout function of timer f. */
  lemma DoKeeps(j: Timed, d: Deed, f: nat)
    requires Mid(j, Some(f)) && DeedOk(j.wheel.timers, j.core.sys.tcb, d)
    ensures T.Shape(j.wheel) && f in Do(j, d).wheel.timers
    ensures Mid(Do(j, d), Some(f)) && Steady(j, Do(j, d))
    ensures L.MarkOf(Do(j, d).wheel, f)
         == if d.Timing? then T.Track(d.a, f, L.MarkOf(j.wheel, f)) else L.MarkOf(j.wheel, f)
  {
    hide CoreInv, WheelOk, Matched, Serve, Reset, Stirred, T.Act, InRange, T.Track, L.ActionOk, SameTimer;
    WheelShape(j.wheel, Some(f));
    match d {
      case Timing(a) =>
        TimingKeeps(j, a, Some(f));
        Tracks(j.wheel, a, f);
      case Serving(q) =>
        if q < |j.core.sys.wait| {
          ServeKeeps(j, q, Some(f));
          SameMark(j, Serve(j, q), f);
        }
      case Resetting(q) =>
        if q < |j.core.sys.wait| {
          ResetKeeps(j, q, Some(f));
          SameMark(j, Reset(j, q), f);
        }
      case Stirring(t) =>
        if t in j.core.sys.tcb && j.core.sys.tcb[t].stat == Suspended {
          StirredKeeps(j, t, Some(f));
          SameMark(j, Stirred(j, t), f);
        }
    }
  }

  lemma Tracks(w: T.Wheel, a: T.Action, f: nat)
    requires WheelOk(w, Some(f)) && L.ActionOk(w.timers, a) && f in w.timers && T.Shape(w) && a.id in w.timers
    ensures f in T.Act(w, a).timers && L.MarkOf(T.Act(w, a), f) == T.Track(a, f, L.MarkOf(w, f))
  {
    hide L.Good, L.Ripe, T.Act, T.Track, L.MarkOf;
    L.ActTracks(w, a, f);
  }

  lemma SameMark(j: Timed, j': Timed, f: nat)
    requires Elsewhere(j, j') && f !in j.core.sys.tcb && f in j.wheel.timers
    ensures f in j'.wheel.timers && L.MarkOf(j'.wheel, f) == L.MarkOf(j.wheel, f)
  {
    assert SameTimer(j.wheel, j'.wheel, f);
  }

  lemma DeedKinds(timers: map<nat, T.Timer>, timers': map<nat, T.Timer>, tcb: map<Tid, Tcb>, tcb': map<Tid, Tcb>, d: Deed)
    requires DeedOk(timers, tcb, d) && L.SameKinds(timers, timers') && tcb'.Keys == tcb.Keys
    ensures DeedOk(timers', tcb', d)
  {}

  lemma DeedsKinds(timers: map<nat, T.Timer>, timers': map<nat, T.Timer>, tcb: map<Tid, Tcb>, tcb': map<Tid, Tcb>,
                   deeds: Deeds)
    requires DeedsOk(timers, tcb, deeds) && L.SameKinds(timers, timers') && tcb'.Keys == tcb.Keys
    ensures DeedsOk(timers', tcb', deeds)
  {
    hide DeedOk, T.Restarts, L.SameKinds;
    forall id, d | id in deeds && d in deeds[id] ensures DeedOk(timers', tcb', d) {
      DeedKinds(timers, timers', tcb, tcb', d);
    }
  }

  lemma {:induction false} DoAllKeeps(j: Timed, ds: seq<Deed>, f: nat)
    requires Mid(j, Some(f)) && forall d :: d in ds ==> DeedOk(j.wheel.timers, j.core.sys.tcb, d)
    ensures T.Shape(j.wheel)
    ensures Mid(DoAll(j, ds), Some(f)) && Steady(j, DoAll(j, ds))
    ensures L.MarkOf(DoAll(j, ds).wheel, f) == T.TrackAll(Actions(ds), f, L.MarkOf(j.wheel, f))
    decreases |ds|
  {
    hide CoreInv, WheelOk, Matched, Do, DeedOk, L.MarkOf, T.Track;
    WheelShape(j.wheel, Some(f));
    if ds != [] {
      assert ds[0] in ds && forall d :: d in ds[1..] ==> d in ds;
      DoKeeps(j, ds[0], f);
      var j1 := Do(j, ds[0]);
      forall d | d in ds[1..] ensures DeedOk(j1.wheel.timers, j1.core.sys.tcb, d) {
        DeedKinds(j.wheel.timers, j1.wheel.timers, j.core.sys.tcb, j1.core.sys.tcb, d);
      }
      DoAllKeeps(j1, ds[1..], f);
      TrackCons(ds, f, L.MarkOf(j.wheel, f));
    }
  }

  lemma TrackCons(ds: seq<Deed>, f: nat, m: T.Mark)
    requires ds != []
    ensures T.TrackAll(Actions(ds), f, m)
         == T.TrackAll(Actions(ds[1..]), f, if ds[0].Timing? then T.Track(ds[0].a, f, m) else m)
  {
    hide T.Track;
    var rest := Actions(ds[1..]);
    if ds[0].Timing? { assert ([ds[0].a] + rest)[1..] == rest; } else { assert [] + rest == rest; }
  }

  lemma PopOthers(w: T.Wheel, t: Tid)
    requires w.list != [] && w.list[0] != t && NoDup(w.list)
    ensures SameTimer(w, T.Pop(w), t)
  {
    hide L.Last;
    var id := w.list[0];
    assert w.list == [id] + w.list[1..];
    if id in w.plan { L.LastOther(w.log, T.Fired(id, w.plan[id], w.now), t); } else { assert w.log + [] == w.log; }
  }

  lemma RenewOthers(w: T.Wheel, id: nat, t: Tid)
    requires T.Shape(w) && id in w.timers && id != t
    ensures SameTimer(w, T.Renew(w, id), t)
  {
    hide L.Last, T.Place, Insert, T.Shape;
    var c := w.timers[id];
    var off := w.(timers := w.timers[id := c.(active := false)]);
    assert T.Shape(off) by { OffShape(w, id); }
    if c.periodic && c.active {
      L.LaunchMembers(off, id);
      L.LastOther(w.log, T.Launch(off, id).log[|w.log|], t);
    }
  }

  lemma OffShape(w: T.Wheel, id: nat)
    requires T.Shape(w) && id in w.timers
    ensures T.Shape(w.(timers := w.timers[id := w.timers[id].(active := false)]))
  {}

  // ---- One round of the check ----------------------------------------------------------------

  /** The head of the list, due in the check that is running, leaves it. */
  lemma HeadPops(w: T.Wheel)
    requires WheelOk(w, None) && w.checking && T.Shape(w) && T.HeadDue(w)
    ensures var t := w.list[0];
      && t in w.timers && t in w.plan && w.plan[t].due <= w.now && T.Shape(T.Pop(w)) && T.Pop(w).timers == w.timers
      && WheelOk(T.Pop(w), Some(t)) && L.MarkOf(T.Pop(w), t) == T.Mark(true, false)
      && T.Pop(w).checking && T.Pop(w).now == w.now
  {
    hide L.Good, L.Ripe, T.NotBefore, L.MarkOf, NoDup;
    L.HeadDueIs(w);
    L.OnceListed(w, None);
    L.PopGood(w);
    L.PopDue(w);
    L.PopShape(w);
  }

  /** What rt_timer_check does with a fired timer after its timeout function. */
  lemma Renewed(w: T.Wheel, t: nat)
    requires WheelOk(w, Some(t)) && w.checking && t in w.timers && t !in w.list
    ensures T.Shape(w) && WheelOk(T.Renew(w, t), None) && T.Renew(w, t).checking && T.Renew(w, t).now == w.now
    ensures L.SameKinds(w.timers, T.Renew(w, t).timers)
  {
    hide L.Good, L.Ripe, T.Renew;
    L.RenewGood(w, t);
    L.RenewKinds(w, t);
    RenewChecking(w, t);
  }

  lemma RenewChecking(w: T.Wheel, t: nat)
    requires T.Shape(w) && t in w.timers
    ensures T.Renew(w, t).checking == w.checking
  {}

  /** The timer of a thread fires: the thread is suspended, on time, and times out. */
  lemma FireThread(j: Timed, deeds: Deeds)
    requires Mid(j, None) && j.wheel.checking && T.Shape(j.wheel) && T.HeadDue(j.wheel)
    requires j.wheel.list[0] in j.core.sys.tcb && j.wheel.list[0] !in deeds
    ensures var j' := FireOne(j, deeds);
      && Mid(j', None) && j'.wheel.checking && L.SameKinds(j.wheel.timers, j'.wheel.timers)
      && j'.core.sys.tcb.Keys == j.core.sys.tcb.Keys && j'.wheel.now == j.wheel.now
  {
    hide CoreInv, WheelOk, Matched, Expire, T.NotBefore, SameTimer, InStep, CallOk, SameResumed, Without, NoDup, L.MarkOf,
      T.Pop, T.Renew;
    var t, w := j.wheel.list[0], j.wheel;
    WheelShape(w, None);
    HeadPops(w);
    HeadThread(j);
    PopOff(w);
    var w' := T.Renew(T.Pop(w), t);
    Renewed(T.Pop(w), t);
    ExpireKeeps(j.core, t);
    FireOwn(w, t);
    var j' := FireOne(j, deeds);
    assert j'.wheel == w' && j'.core == Expire(j.core, t);
    forall u | u in j.core.sys.tcb && u != t ensures SameTimer(w, w', u) {
      PopOthers(w, u);
      RenewOthers(T.Pop(w), t, u);
      SameChain(w, T.Pop(w), w', u);
    }
    OwnOk(j, w');
    OneThread(j.core.sys.tcb, j'.core.sys.tcb, j.core.blocked, j'.core.blocked, w, w', j.calls, j.calls, t);
  }

  lemma PopOff(w: T.Wheel)
    requires NoDup(w.list) && w.list != []
    ensures w.list[0] !in T.Pop(w).list
  {
    NoDupTail(w.list);
    hide NoDup;
  }

  /** The timer of a thread that is due finds the thread suspended. */
  lemma HeadThread(j: Timed)
    requires Mid(j, None) && j.wheel.list != [] && j.wheel.list[0] in j.core.sys.tcb
    ensures var t := j.wheel.list[0];
      && j.core.sys.tcb[t].stat == Suspended && j.core.sys.tcb[t].prio < |j.core.sys.ready|
      && InStep(j.core.sys.tcb[t], j.wheel, t) && t in j.wheel.timers && !j.wheel.timers[t].periodic
      && (t in j.calls ==> t in j.core.blocked && CallOk(j.core.sys.tcb[t], j.wheel, j.calls[t], t))
  {
    hide CoreInv, WheelOk, Matched, CallOk;
    var t := j.wheel.list[0];
    assert t in j.wheel.list;
    MatchedStep(j, t);
    ArmedSuspended(j.core, t);
    CoreRanges(j.core);
  }

  /** Firing the timer of thread t: it leaves the list and the log says when. */
  lemma FireOwn(w: T.Wheel, t: Tid)
    requires T.Shape(w) && w.list != [] && w.list[0] == t && NoDup(w.list) && t in w.plan && t in w.timers
    requires !w.timers[t].periodic && T.Shape(T.Pop(w))
    ensures t in T.Pop(w).timers
    ensures var w' := T.Renew(T.Pop(w), t);
      && t !in w'.list && t in w'.timers && !w'.timers[t].periodic
      && L.Last(w'.log, t) == Some(T.Fired(t, w.plan[t], w.now))
  {
    hide L.Last, NoDup;
    NoDupTail(w.list);
    L.LastOwn(w.log, T.Fired(t, w.plan[t], w.now));
  }

  lemma OwnOk(j: Timed, w': T.Wheel)
    requires WheelOk(j.wheel, None) && j.wheel.checking && j.wheel.list != [] && j.wheel.list[0] in j.core.sys.tcb
    requires var t := j.wheel.list[0];
      && t in j.wheel.plan && j.wheel.plan[t].due <= j.wheel.now && j.core.sys.tcb[t].stat == Suspended
      && InStep(j.core.sys.tcb[t], j.wheel, t)
      && (t in j.calls ==> CallOk(j.core.sys.tcb[t], j.wheel, j.calls[t], t))
      && t !in w'.list && t in w'.timers && !w'.timers[t].periodic && w'.now == j.wheel.now
      && L.Last(w'.log, t) == Some(T.Fired(t, j.wheel.plan[t], j.wheel.now))
    ensures var t := j.wheel.list[0]; var x := j.core.sys.tcb[t].(stat := Ready, error := ETIMEOUT, armed := false);
      InStep(x, w', t) && (t in j.calls ==> CallOk(x, w', j.calls[t], t))
  {
    hide L.Good, L.Last;
    var t := j.wheel.list[0];
    assert t in j.wheel.list;
    RipeNow(j.wheel, t);
  }

  lemma RipeNow(w: T.Wheel, t: Tid)
    requires L.Ripe(w) && t in w.list && t in w.plan && w.plan[t].due <= w.now
    ensures w.plan[t].since < w.plan[t].due ==> w.now == w.plan[t].due
  {
    assert L.IsDue(w, t);
  }

  /** Another timer fires: its timeout function may resume threads and handle timers. */
  lemma FireOther(j: Timed, deeds: Deeds)
    requires Mid(j, None) && j.wheel.checking && T.Shape(j.wheel) && T.HeadDue(j.wheel)
    requires j.wheel.list[0] !in j.core.sys.tcb && DeedsOk(j.wheel.timers, j.core.sys.tcb, deeds)
    ensures var j' := FireOne(j, deeds);
      && Mid(j', None) && j'.wheel.checking && L.SameKinds(j.wheel.timers, j'.wheel.timers)
      && j'.core.sys.tcb.Keys == j.core.sys.tcb.Keys && j'.wheel.now == j.wheel.now
  {
    hide CoreInv, WheelOk, Matched, T.NotBefore, SameTimer, NoDup, L.MarkOf, T.Pop, T.Renew, DeedsOk, DoAll, T.Restarts;
    var t, w := j.wheel.list[0], j.wheel;
    WheelShape(w, None);
    HeadPops(w);
    var j1, ds := j.(wheel := T.Pop(w)), DeedsOf(deeds, t);
    assert Popped1(j) == j1;
    forall u | u in j.core.sys.tcb ensures SameTimer(w, j1.wheel, u) { PopOthers(w, u); }
    NoThread(j, j1);
    OwnDeeds(j.wheel.timers, j.core.sys.tcb, deeds, t);
    DoAllKeeps(j1, ds, t);
    var j2 := DoAll(j1, ds);
    NotBack(j2.wheel, ds, t);
    Renewed(j2.wheel, t);
    forall u | u in j2.core.sys.tcb ensures SameTimer(j2.wheel, T.Renew(j2.wheel, t), u) { RenewOthers(j2.wheel, t, u); }
    NoThread(j2, j2.(wheel := T.Renew(j2.wheel, t)));
    KindsChain(w.timers, j2.wheel.timers, T.Renew(j2.wheel, t).timers);
  }

  lemma OwnDeeds(timers: map<nat, T.Timer>, tcb: map<Tid, Tcb>, deeds: Deeds, t: nat)
    requires DeedsOk(timers, tcb, deeds)
    ensures !T.Restarts(Actions(DeedsOf(deeds, t)), t) && forall d :: d in DeedsOf(deeds, t) ==> DeedOk(timers, tcb, d)
  {
    hide DeedOk;
    if t !in deeds { assert Actions([]) == []; }
  }

  lemma NotBack(w: T.Wheel, ds: seq<Deed>, t: nat)
    requires t in w.timers && L.MarkOf(w, t) == T.TrackAll(Actions(ds), t, T.Mark(true, false))
    requires !T.Restarts(Actions(ds), t)
    ensures t !in w.list
  {}

  lemma KindsChain(a: map<nat, T.Timer>, b: map<nat, T.Timer>, c: map<nat, T.Timer>)
    requires L.SameKinds(a, b) && L.SameKinds(b, c)
    ensures L.SameKinds(a, c)
  {}

  lemma FireOneKeeps(j: Timed, deeds: Deeds)
    requires Mid(j, None) && j.wheel.checking && T.Shape(j.wheel) && T.HeadDue(j.wheel)
    requires DeedsOk(j.wheel.timers, j.core.sys.tcb, deeds)
    ensures var j' := FireOne(j, deeds);
      && Mid(j', None) && j'.wheel.checking && DeedsOk(j'.wheel.timers, j'.core.sys.tcb, deeds)
      && j'.wheel.now == j.wheel.now
  {
    hide CoreInv, WheelOk, Matched, FireOne, L.SameKinds, T.NotBefore;
    if j.wheel.list[0] in j.core.sys.tcb {
      assert j.wheel.list[0] !in deeds by { hide DeedOk, T.Restarts; }
      hide DeedsOk;
      FireThread(j, deeds);
    } else {
      hide DeedsOk;
      FireOther(j, deeds);
    }
    var j' := FireOne(j, deeds);
    DeedsKinds(j.wheel.timers, j'.wheel.timers, j.core.sys.tcb, j'.core.sys.tcb, deeds);
  }

  lemma NoThread(j: Timed, j': Timed)
    requires Matched(j.core.sys.tcb, j.core.blocked, j.wheel, j.calls)
    requires j'.core == j.core && j'.calls == j.calls
    requires forall t :: t in j.core.sys.tcb ==> SameTimer(j.wheel, j'.wheel, t)
    ensures Matched(j'.core.sys.tcb, j'.core.blocked, j'.wheel, j'.calls)
  {
    hide Matched, InStep, CallOk, SameTimer;
    forall t | t in j.core.sys.tcb
      ensures InStep(j'.core.sys.tcb[t], j'.wheel, t)
      ensures t in j.calls ==> CallOk(j'.core.sys.tcb[t], j'.wheel, j.calls[t], t)
    {
      MatchedStep(j, t);
      StayOk(j.core.sys.tcb[t], j.wheel, j'.wheel, t);
      if t in j.calls { StayCall(j.core.sys.tcb[t], j.wheel, j'.wheel, j.calls[t], t); }
    }
    MatchedFrom(j, j');
  }

  /** When the check returns nothing is due. */
  lemma {:induction false} FireAllKeeps(j: Timed, deeds: Deeds, n: nat)
    requires Mid(j, None) && j.wheel.checking && T.Shape(j.wheel) && DeedsOk(j.wheel.timers, j.core.sys.tcb, deeds)
    requires EndsIn(j, deeds, n)
    ensures var j' := FireAll(j, deeds, n);
      Mid(j', None) && j'.wheel.checking && !T.HeadDue(j'.wheel) && j'.wheel.now == j.wheel.now
    decreases n
  {
    hide Mid, FireOne, DeedsOk, T.NotBefore;
    if n > 0 {
      FireOneKeeps(j, deeds);
      FireAllKeeps(FireOne(j, deeds), deeds, n - 1);
    }
  }

  lemma TickKeeps(j: Timed, deeds: Deeds, n: nat)
    requires Inv(j) && Enabled(j, DoTick(deeds, n))
    ensures Inv(Tick(j, deeds, n)) && Tick(j, deeds, n).wheel.now == j.wheel.now + 1
  {
    hide CoreInv, L.Between, L.Good, L.Ripe, Matched, EndsIn, DeedsOk, FireAll, L.DueIds, T.HeadDue;
    L.AdvanceGood(j.wheel);
    AdvanceMatched(j);
    FireAllKeeps(Advance(j), deeds, n);
    var j2 := FireAll(Advance(j), deeds, n);
    L.NothingDue(j2.wheel);
    DoneMatched(j2);
  }

  /** A tick whose timeout functions handle timers only is a tick of the timer list. */
  ghost predicate TimersOnly(deeds: Deeds, scripts: T.Scripts) {
    deeds.Keys == scripts.Keys && forall id :: id in scripts ==> deeds[id] == Timings(scripts[id])
  }

  function Timings(script: seq<T.Action>): seq<Deed> {
    seq(|script|, i requires 0 <= i < |script| => Timing(script[i]))
  }

  lemma {:induction false} DoTimings(j: Timed, script: seq<T.Action>)
    requires T.Shape(j.wheel) && T.Names(j.wheel.timers, script)
    ensures DoAll(j, Timings(script)) == j.(wheel := T.ActAll(j.wheel, script))
    decreases |script|
  {
    hide T.Act;
    if script != [] {
      assert script[0] in script && Timings(script)[0] == Timing(script[0]);
      assert Timings(script)[1..] == Timings(script[1..]);
      DoTimings(j.(wheel := T.Act(j.wheel, script[0])), script[1..]);
    }
  }

  lemma FireTimers(j: Timed, deeds: Deeds, scripts: T.Scripts)
    requires T.Shape(j.wheel) && j.wheel.list != [] && TimersOnly(deeds, scripts) && T.NamesAll(j.wheel.timers, scripts)
    ensures FireOne(j, deeds).wheel == T.Fire(j.wheel, scripts)
  {
    hide T.ActAll, T.Renew, T.Pop;
    var t := j.wheel.list[0];
    L.PopShape(j.wheel);
    assert DeedsOf(deeds, t) == Timings(T.ScriptOf(scripts, t));
    DoTimings(Popped1(j), T.ScriptOf(scripts, t));
  }

  lemma {:induction false} FireAllTimers(j: Timed, deeds: Deeds, scripts: T.Scripts, n: nat)
    requires T.Shape(j.wheel) && TimersOnly(deeds, scripts) && T.NamesAll(j.wheel.timers, scripts)
    requires EndsIn(j, deeds, n)
    ensures T.EndsIn(j.wheel, scripts, n) && FireAll(j, deeds, n).wheel == T.Rounds(j.wheel, scripts, n)
    decreases n
  {
    hide FireOne, T.Fire, TimersOnly, T.NotBefore;
    if n > 0 {
      FireTimers(j, deeds, scripts);
      FireAllTimers(FireOne(j, deeds), deeds, scripts, n - 1);
    }
  }

  lemma TickTimers(j: Timed, deeds: Deeds, scripts: T.Scripts, n: nat)
    requires Inv(j) && T.Shape(j.wheel) && EndsIn(Advance(j), deeds, n)
    requires TimersOnly(deeds, scripts) && L.ScriptsOk(j.wheel.timers, scripts)
    ensures L.Enabled(j.wheel, L.DoTick(scripts, n))
    ensures Tick(j, deeds, n).wheel == L.Next(j.wheel, L.DoTick(scripts, n))
  {
    hide CoreInv, L.Between, Matched, EndsIn, DeedsOk, FireAll, TimersOnly, L.ScriptsOk, T.EndsIn, T.Rounds;
    L.AdvanceGood(j.wheel);
    L.ScriptsShape(j.wheel.timers, scripts);
    FireAllTimers(Advance(j), deeds, scripts, n);
  }

  lemma AdvanceMatched(j: Timed)
    requires Matched(j.core.sys.tcb, j.core.blocked, j.wheel, j.calls)
    ensures var j' := Advance(j); Matched(j'.core.sys.tcb, j'.core.blocked, j'.wheel, j'.calls)
  {
    hide Matched, SameTimer;
    forall t: Tid ensures SameTimer(j.wheel, T.Advance(j.wheel), t) { AdvanceSame(j.wheel, t); }
    NoThread(j, Advance(j));
  }

  lemma AdvanceSame(w: T.Wheel, t: Tid)
    ensures SameTimer(w, T.Advance(w), t) && SameTimer(w, w.(checking := false), t)
  {}

  lemma DoneMatched(j: Timed)
    requires Matched(j.core.sys.tcb, j.core.blocked, j.wheel, j.calls)
    ensures Matched(j.core.sys.tcb, j.core.blocked, j.wheel.(checking := false), j.calls)
  {
    hide Matched, SameTimer;
    forall t: Tid ensures SameTimer(j.wheel, j.wheel.(checking := false), t) { AdvanceSame(j.wheel, t); }
    NoThread(j, j.(wheel := j.wheel.(checking := false)));
  }

  // ---- The other steps -----------------------------------------------------------------------

  /** A change of threads that leaves their states, error codes and timers alone. */
  lemma SameThreads(j: Timed, c: Core)
    requires Inv(j) && CoreInv(c) && c.blocked == j.core.blocked && c.sys.tcb.Keys == j.core.sys.tcb.Keys
    requires forall t :: t in c.sys.tcb ==>
      && c.sys.tcb[t].armed == j.core.sys.tcb[t].armed
      && (t in j.core.blocked ==> c.sys.tcb[t].stat == j.core.sys.tcb[t].stat && c.sys.tcb[t].error == j.core.sys.tcb[t].error)
    ensures Inv(j.(core := c))
  {
    hide CoreInv, L.Between, Matched, L.Last;
    forall t | t in j.core.sys.tcb
      ensures InStep(c.sys.tcb[t], j.wheel, t)
      ensures t in j.calls ==> CallOk(c.sys.tcb[t], j.wheel, j.calls[t], t)
    {
      MatchedStep(j, t);
    }
    MatchedFrom(j, j.(core := c));
  }

  lemma AsideTcbs(c: Core, o: Other)
    requires CoreInv(c) && OtherEnabled(c, o) && (o.Spin? || o.Rank?)
    ensures var c' := Aside(c, o);
      && c'.sys.tcb.Keys == c.sys.tcb.Keys
      && forall t :: t in c'.sys.tcb ==>
           && c'.sys.tcb[t].armed == c.sys.tcb[t].armed && c'.sys.tcb[t].stat == c.sys.tcb[t].stat
           && c'.sys.tcb[t].error == c.sys.tcb[t].error
  {
    hide CallsOk, ChangePriority, Placed;
    if o.Rank? { RankShape(c.sys, o.t, o.p); }
  }

  lemma AsideInv(j: Timed, o: Other)
    requires Inv(j) && OtherEnabled(j.core, o) && (o.Spin? || o.Rank?)
    ensures Inv(j.(core := Aside(j.core, o)))
  {
    hide Inv, CoreInv, Aside, SameResumed, OtherEnabled;
    CoreOf(j);
    AsideKeeps(j.core, o);
    AsideTcbs(j.core, o);
    SameThreads(j, Aside(j.core, o));
  }

  lemma CoreOf(j: Timed)
    requires Inv(j)
    ensures CoreInv(j.core)
  {}

  lemma ErrorInv(j: Timed, t: Tid, e: Err)
    requires Inv(j) && t in j.core.sys.tcb && t !in j.core.blocked
    ensures Inv(j.(core := Fail(j.core, t, e)))
  {
    hide Inv, CoreInv, SameResumed;
    CoreOf(j);
    FailKeeps(j.core, t, e);
    SameThreads(j, Fail(j.core, t, e));
  }

  // ---- The protocol --------------------------------------------------------------------------

  datatype Step =
    | DoWait(q: nat, t: Tid, flag: Flag, k: int) | DoAgain(t: Tid, flag: Flag) | DoReturn(t: Tid)
    | DoServe(q: nat) | DoReset(q: nat)
    | DoStir(t: Tid) | DoNap(t: Tid, k: int) | DoAside(o: Other) | DoError(t: Tid, e: Err)
    | DoTimer(a: T.Action) | DoTick(deeds: Deeds, n: nat)

  predicate IsReady(j: Timed, t: Tid) {
    t in j.core.sys.tcb && j.core.sys.tcb[t].stat == Ready && t in j.wheel.timers
  }

  ghost predicate Enabled(j: Timed, s: Step) {
    && T.Shape(j.wheel)
    && match s
       case DoWait(q, t, _, k) => IsReady(j, t) && q < |j.core.sys.wait| && k < T.HALF && t !in j.core.blocked
       case DoAgain(t, _) =>
         && IsReady(j, t) && t in j.core.blocked && j.core.blocked[t] < |j.core.sys.wait|
         && j.core.sys.tcb[t].error == EOK && Left(j, t) != 0 && Left(j, t) < T.HALF
       case DoReturn(t) => IsReady(j, t)
       case DoServe(q) => q < |j.core.sys.wait| && InRange(j.core.sys, j.core.sys.wait[q])
       case DoReset(q) => q < |j.core.sys.wait| && InRange(j.core.sys, j.core.sys.wait[q])
       case DoStir(t) => t in j.core.sys.tcb && j.core.sys.tcb[t].stat == Suspended
                         && j.core.sys.tcb[t].prio < |j.core.sys.ready|
       case DoNap(t, k) => IsReady(j, t) && t !in j.core.blocked && 0 <= k < T.HALF
       case DoAside(o) => OtherEnabled(j.core, o) && (o.Spin? || o.Rank?)
       case DoError(t, _) => t in j.core.sys.tcb && t !in j.core.blocked
       case DoTimer(a) => a.id !in j.core.sys.tcb && L.ActionOk(j.wheel.timers, a)
       case DoTick(deeds, n) => DeedsOk(j.wheel.timers, j.core.sys.tcb, deeds) && EndsIn(Advance(j), deeds, n)
  }

  ghost function Next(j: Timed, s: Step): Timed
    requires Enabled(j, s)
  {
    match s
    case DoWait(q, t, flag, k) => Wait(j, q, t, flag, k)
    case DoAgain(t, flag) => Again(j, t, flag)
    case DoReturn(t) => Return(j, t)
    case DoServe(q) => Serve(j, q)
    case DoReset(q) => Reset(j, q)
    case DoStir(t) => Stirred(j, t)
    case DoNap(t, k) => Nap(j, t, k)
    case DoAside(o) => j.(core := Aside(j.core, o))
    case DoError(t, e) => j.(core := Fail(j.core, t, e))
    case DoTimer(a) => j.(wheel := T.Act(j.wheel, a))
    case DoTick(deeds, n) => Tick(j, deeds, n)
  }

  lemma NextKeeps(j: Timed, s: Step)
    requires Inv(j) && Enabled(j, s)
    ensures Inv(Next(j, s))
  {
    hide Inv, Wait, Again, Return, Serve, Reset, Stirred, Nap, Aside, Fail, Tick, T.Act, OtherEnabled, DeedsOk, Left,
      T.Shape, EndsIn, InRange, Mid;
    match s
    case DoWait(q, t, flag, k) => WaitKeeps(j, q, t, flag, k);
    case DoAgain(t, flag) => AgainKeeps(j, t, flag);
    case DoReturn(t) => ReturnKeeps(j, t);
    case DoServe(q) =>
      InvMid(j);
      ServeKeeps(j, q, None);
      MidInv(Serve(j, q));
    case DoReset(q) =>
      InvMid(j);
      ResetKeeps(j, q, None);
      MidInv(Reset(j, q));
    case DoStir(t) =>
      InvMid(j);
      StirredKeeps(j, t, None);
      MidInv(Stirred(j, t));
    case DoNap(t, k) => NapKeeps(j, t, k);
    case DoAside(o) => AsideInv(j, o);
    case DoError(t, e) => ErrorInv(j, t, e);
    case DoTimer(a) =>
      InvMid(j);
      TimingKeeps(j, a, None);
      MidInv(j.(wheel := T.Act(j.wheel, a)));
    case DoTick(deeds, n) => TickKeeps(j, deeds, n);
  }

  ghost predicate EnabledRun(j: Timed, ss: seq<Step>)
    decreases |ss|
  {
    ss == [] || (Enabled(j, ss[0]) && EnabledRun(Next(j, ss[0]), ss[1..]))
  }

  ghost function Run(j: Timed, ss: seq<Step>): Timed
    requires EnabledRun(j, ss)
    decreases |ss|
  {
    if ss == [] then j else Run(Next(j, ss[0]), ss[1..])
  }

  lemma {:induction false} RunKeeps(j: Timed, ss: seq<Step>)
    requires Inv(j) && EnabledRun(j, ss)
    ensures Inv(Run(j, ss))
    decreases |ss|
  {
    hide Inv, Next, Enabled;
    if ss != [] {
      NextKeeps(j, ss[0]);
      RunKeeps(Next(j, ss[0]), ss[1..]);
    }
  }

  /** Threads that are in no call and have no armed timer, and timers none of which is started. */
  function Create(sys: Sys, lists: seq<seq<Tid>>, timers: map<nat, T.Timer>, now: int): Timed {
    Timed(Core(sys.(wait := lists), map[]), L.Create(timers, now), map[], map[])
  }

  ghost predicate Fresh(sys: Sys, lists: seq<seq<Tid>>, timers: map<nat, T.Timer>) {
    && Placed(sys) && (forall q :: 0 <= q < |lists| ==> lists[q] == [])
    && L.TimersOk(timers) && (forall id :: id in timers ==> !timers[id].active)
    && (forall t :: t in sys.tcb ==> t in timers && !timers[t].periodic && !sys.tcb[t].armed)
  }

  lemma CreateInv(sys: Sys, lists: seq<seq<Tid>>, timers: map<nat, T.Timer>, now: int)
    requires Fresh(sys, lists, timers)
    ensures Inv(Create(sys, lists, timers, now))
  {
    hide Placed, L.Between, L.TimersOk;
    NobodyWaits(sys, lists);
    L.CreateBetween(timers, now);
    var j := Create(sys, lists, timers, now);
    assert CallsOk(j.core.sys.tcb, j.core.sys.wait, j.core.blocked);
  }

  // ---- One call, one due tick ----------------------------------------------------------------

  /** The due tick of a timed call is set when it goes to sleep and stays what it is until it sleeps
      again or returns. */
  lemma PlanStays(j: Timed, s: Step, t: Tid)
    requires Enabled(j, s) && t in j.calls && (s.DoWait? || s.DoAgain? || s.DoReturn? ==> s.t != t)
    ensures t in Next(j, s).calls && Next(j, s).calls[t] == j.calls[t]
  {
    hide T.Act, Enter, Unarm, UnarmAll, FireAll, EndsIn, DeedsOk, InRange, Left;
  }

  /** A call that sleeps again keeps its due tick if and only if its thread runs at most half the tick
      range after it. */
  lemma AgainExactly(j: Timed, t: Tid, flag: Flag)
    requires Inv(j) && Enabled(j, DoAgain(t, flag)) && t in j.calls
    ensures t in Again(j, t, flag).calls
    ensures Again(j, t, flag).calls[t].due == j.calls[t].due <==> j.wheel.now <= j.calls[t].due + TICKS / 2
  {
    hide Inv, Asleep, T.Shape, Left;
    AsleepKeeps(j, j.core.blocked[t], t, flag, Left(j, t));
    TimedLeft(j, t);
  }

  lemma TimedLeft(j: Timed, t: Tid)
    requires Inv(j) && t in j.calls && Left(j, t) != 0
    ensures Left(j, t) > 0
    ensures j.wheel.now + Left(j, t) == j.calls[t].due <==> j.wheel.now <= j.calls[t].due + TICKS / 2
  {
    hide Inv, TimeLeft;
    CallPast(j, t);
    var p := j.calls[t];
    LeftOf(p.due - p.since, p.since, j.wheel.now);
  }

  lemma CallPast(j: Timed, t: Tid)
    requires Inv(j) && t in j.calls
    ensures var p := j.calls[t]; p.since < p.due < p.since + T.HALF && p.since <= j.wheel.now
    ensures j.wheel.tick == j.wheel.now % TICKS
  {
    hide CoreInv, L.LogOk, L.InOrder, L.Listed;
    assert CallOk(j.core.sys.tcb[t], j.wheel, j.calls[t], t);
  }

  /** The arithmetic of it, in true time. */
  lemma LeftOf(k: int, since: int, now: int)
    requires 0 < k < TICKS / 2 && since <= now && TimeLeft(k, since % TICKS, now % TICKS) != 0
    ensures TimeLeft(k, since % TICKS, now % TICKS) > 0
    ensures now + TimeLeft(k, since % TICKS, now % TICKS) == since + k <==> now <= since + k + TICKS / 2
  {
    hide TimeLeft;
    Elapsed(since, now);
    TimeLeftIs(k, since % TICKS, now % TICKS);
  }

  lemma Elapsed(since: int, now: int)
    ensures (now % TICKS - since % TICKS) % TICKS == (now - since) % TICKS
    ensures 0 <= now - since < TICKS ==> (now - since) % TICKS == now - since
  {}

  /** The sleeps of thread t are all in time for AgainExactly. */
  ghost predicate Punctual(j: Timed, ss: seq<Step>, t: Tid)
    requires EnabledRun(j, ss)
    decreases |ss|
  {
    ss == [] ||
    ((ss[0].DoAgain? && ss[0].t == t && t in j.calls ==> j.wheel.now <= j.calls[t].due + TICKS / 2)
     && Punctual(Next(j, ss[0]), ss[1..], t))
  }

  ghost predicate OneDue(j: Timed, t: Tid) {
    t in j.calls ==> t in j.first && j.first[t].due == j.calls[t].due
  }

  lemma OneDueStep(j: Timed, s: Step, t: Tid)
    requires Inv(j) && Enabled(j, s) && OneDue(j, t)
    requires s.DoAgain? && s.t == t && t in j.calls ==> j.wheel.now <= j.calls[t].due + TICKS / 2
    ensures OneDue(Next(j, s), t)
  {
    hide Inv, Asleep, T.Act, Wake, KickAll, Rouse, Sleep, Unarm, UnarmAll, FireAll, EndsIn, DeedsOk, InRange, Left, T.Shape;
    match s {
      case DoWait(q, u, flag, k) => AsleepCalls(j, q, u, flag, k);
      case DoAgain(u, flag) =>
        AsleepCalls(j, j.core.blocked[u], u, flag, Left(j, u));
        if u == t {
          if t in j.calls { AgainExactly(j, t, flag); } else { Forever(j, t); }
        }
      case _ =>
    }
  }

  lemma AsleepCalls(j: Timed, q: nat, t: Tid, flag: Flag, k: int)
    requires t in j.core.sys.tcb && q < |j.core.sys.wait| && T.Shape(j.wheel) && t in j.wheel.timers
    ensures var j' := Asleep(j, q, t, flag, k);
      && j'.first == j.first && (forall u :: u != t && u in j'.calls ==> u in j.calls && j'.calls[u] == j.calls[u])
      && (k <= 0 ==> t !in j'.calls)
  {
    hide T.Act, Enter;
  }

  lemma Forever(j: Timed, t: Tid)
    requires t !in j.calls
    ensures Left(j, t) < 0
  {}

  lemma {:induction false} OneDueRun(j: Timed, ss: seq<Step>, t: Tid)
    requires Inv(j) && EnabledRun(j, ss) && OneDue(j, t) && Punctual(j, ss, t)
    ensures OneDue(Run(j, ss), t)
    decreases |ss|
  {
    hide Inv, Next, Enabled, OneDue;
    if ss != [] {
      NextKeeps(j, ss[0]);
      OneDueStep(j, ss[0], t);
      OneDueRun(Next(j, ss[0]), ss[1..], t);
    }
  }

  /** Over every run: however often it sleeps, a timed call has the due tick of its first sleep, as long
      as its thread is never more than half the tick range late. */
  lemma OneDeadline(sys: Sys, lists: seq<seq<Tid>>, timers: map<nat, T.Timer>, now: int, ss: seq<Step>, t: Tid)
    requires Fresh(sys, lists, timers) && EnabledRun(Create(sys, lists, timers, now), ss)
    requires Punctual(Create(sys, lists, timers, now), ss, t) && t in Run(Create(sys, lists, timers, now), ss).calls
    ensures var j := Run(Create(sys, lists, timers, now), ss);
      t in j.first && j.calls[t].due == j.first[t].due
  {
    hide Create, Run, EnabledRun, Inv, Punctual;
    CreateInv(sys, lists, timers, now);
    NoCalls(sys, lists, timers, now, t);
    OneDueRun(Create(sys, lists, timers, now), ss, t);
  }

  lemma NoCalls(sys: Sys, lists: seq<seq<Tid>>, timers: map<nat, T.Timer>, now: int, t: Tid)
    ensures OneDue(Create(sys, lists, timers, now), t)
  {}

  /** Over every run: a timed call that still waits is not due; one that has timed out did so exactly at
      its due tick, which is when its timer fired; one that was resumed otherwise was so before its due
      tick, or at it by another timeout function that ran before its own, and its timer has not fired
      since. */
  lemma TimeoutsOnTime(sys: Sys, lists: seq<seq<Tid>>, timers: map<nat, T.Timer>, now: int, ss: seq<Step>, t: Tid)
    requires Fresh(sys, lists, timers) && EnabledRun(Create(sys, lists, timers, now), ss)
    requires t in Run(Create(sys, lists, timers, now), ss).calls
    ensures var j := Run(Create(sys, lists, timers, now), ss); var p := j.calls[t];
      && t in j.core.sys.tcb && p.since < p.due
      && var c, last := j.core.sys.tcb[t], L.Last(j.wheel.log, t);
      && (c.stat == Suspended ==> j.wheel.now < p.due && last == Some(T.Armed(t, p)))
      && (c.stat != Suspended ==> (c.error == ETIMEOUT <==> last == Some(T.Fired(t, p, p.due))))
      && (c.stat != Suspended && c.error != ETIMEOUT ==> StoppedInTime(last, p))
  {
    hide Create, Run, EnabledRun, Inv, L.Last;
    CreateInv(sys, lists, timers, now);
    RunKeeps(Create(sys, lists, timers, now), ss);
    CallFacts(Run(Create(sys, lists, timers, now), ss), t);
  }

  lemma CallFacts(j: Timed, t: Tid)
    requires Inv(j) && t in j.calls
    ensures t in j.core.sys.tcb && InStep(j.core.sys.tcb[t], j.wheel, t)
    ensures CallOk(j.core.sys.tcb[t], j.wheel, j.calls[t], t)
    ensures j.core.sys.tcb[t].stat == Suspended ==>
      j.wheel.now < j.calls[t].due && L.Last(j.wheel.log, t) == Some(T.Armed(t, j.calls[t]))
  {
    InvMid(j);
    hide CoreInv, L.Between, WheelOk, CallOk, L.Last;
    assert t in j.core.sys.tcb;
    MatchedStep(j, t);
    if j.core.sys.tcb[t].stat == Suspended { NotDueYet(j.wheel, j.core.sys.tcb[t], j.calls[t], t, None); }
  }

  /** Over every run a thread is armed exactly while its timer is in the list; so nothing but a waiting or
      sleeping thread can time out. */
  lemma ArmedIsListed(sys: Sys, lists: seq<seq<Tid>>, timers: map<nat, T.Timer>, now: int, ss: seq<Step>, t: Tid)
    requires Fresh(sys, lists, timers) && EnabledRun(Create(sys, lists, timers, now), ss)
    requires t in Run(Create(sys, lists, timers, now), ss).core.sys.tcb
    ensures var j := Run(Create(sys, lists, timers, now), ss);
      && (j.core.sys.tcb[t].armed <==> t in j.wheel.list)
      && (t in j.wheel.list ==> j.core.sys.tcb[t].stat == Suspended)
  {
    hide Create, Run, EnabledRun, CoreInv, L.Between, Matched;
    CreateInv(sys, lists, timers, now);
    RunKeeps(Create(sys, lists, timers, now), ss);
    var j := Run(Create(sys, lists, timers, now), ss);
    MatchedStep(j, t);
    if j.core.sys.tcb[t].armed { ArmedSuspended(j.core, t); }
  }
}
