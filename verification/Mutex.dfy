/** The mutex protocol for one RT_IPC_FLAG_PRIO mutex (software/src/ipc.c:603-807): recursive takes,
    hand-off on release and priority inheritance. */
module MutexSpec {
  import opened Base
  import opened Threads
  import opened Waiters

  const WAITERS: nat := 0
  const NO_PRIORITY: nat := 0xFF
  const HOLD_LIMIT: nat := 0x100

  /** `original` is the priority to go back to, `hold` an 8-bit count. `takes` counts the takes of
      the owner it has not released, and `bases` are the priorities threads have by themselves. */
  datatype Mutex = Mutex(core: Core, value: nat, owner: Option<Tid>, original: nat, hold: nat,
                         takes: int, bases: map<Tid, nat>)

  datatype Outcome = Blocked | Returned(err: Err)

  predicate Shape(m: Mutex) {
    && |m.core.sys.wait| == 1 && InRange(m.core.sys, m.core.sys.wait[WAITERS])
    && (m.owner.Some? ==> Knows(m, m.owner.value) && m.original < |m.core.sys.ready|)
  }

  predicate Knows(m: Mutex, t: Tid) {
    t in m.core.sys.tcb && m.core.sys.tcb[t].prio < |m.core.sys.ready|
  }

  /** An 8-bit hold count going up. */
  function Up(hold: nat): (r: nat)
    ensures hold < HOLD_LIMIT ==> r == if hold + 1 == HOLD_LIMIT then 0 else hold + 1
  {
    (hold + 1) % HOLD_LIMIT
  }

  /** An 8-bit hold count going down. */
  function Down(hold: nat): (r: nat)
    ensures 0 < hold < HOLD_LIMIT ==> r == hold - 1
    ensures hold == 0 ==> r == HOLD_LIMIT - 1
  {
    (hold + HOLD_LIMIT - 1) % HOLD_LIMIT
  }

  /** rt_thread_control with RT_THREAD_CTRL_CHANGE_PRIORITY */
  function SetPriority(c: Core, t: Tid, p: nat): (r: Core)
    requires t in c.sys.tcb && p < |c.sys.ready|
    ensures |r.sys.ready| == |c.sys.ready|
  {
    c.(sys := ChangePriority(c.sys, t, p))
  }

  lemma SetPriorityRange(c: Core, t: Tid, p: nat)
    requires t in c.sys.tcb && p < |c.sys.ready| && |c.sys.wait| == 1 && InRange(c.sys, c.sys.wait[WAITERS])
    ensures var c' := SetPriority(c, t, p);
      && |c'.sys.wait| == 1 && InRange(c'.sys, c'.sys.wait[WAITERS]) && c'.sys.tcb.Keys == c.sys.tcb.Keys
      && |c'.sys.ready| == |c.sys.ready|
  {}

  /** The owner inherits the priority of a waiting thread if that is the higher one. */
  function Boost(c: Core, o: Tid, p: nat): (r: Core)
    requires o in c.sys.tcb && p < |c.sys.ready|
    ensures |r.sys.ready| == |c.sys.ready|
  {
    if p < c.sys.tcb[o].prio then SetPriority(c, o, p) else c
  }

  /** rt_mutex_take up to its rt_schedule */
  function Take(m: Mutex, t: Tid, time: int): (Mutex, Outcome)
    requires Shape(m) && Knows(m, t) && (m.owner.Some? || m.value > 0)
  {
    if m.owner == Some(t) then
      (m.(core := Fail(m.core, t, EOK), hold := Up(m.hold), takes := m.takes + 1), Returned(EOK))
    else if m.value > 0 then
      (m.(core := Fail(m.core, t, EOK), value := m.value - 1, owner := Some(t),
          original := m.core.sys.tcb[t].prio, hold := Up(m.hold), takes := m.takes + 1), Returned(EOK))
    else if time == 0 then
      (m.(core := Fail(m.core, t, ETIMEOUT)), Returned(ETIMEOUT))
    else
      var p := m.core.sys.tcb[t].prio;
      SetPriorityRange(m.core, m.owner.value, p);
      (m.(core := Enter(Boost(m.core, m.owner.value, p), WAITERS, t, PRIO, time > 0)), Blocked)
  }

  /** A waiting thread goes on after rt_schedule. */
  function Continue(m: Mutex, t: Tid): (Mutex, Outcome)
    requires Knows(m, t)
  {
    (m.(core := Leave(m.core, t)), Returned(m.core.sys.tcb[t].error))
  }

  /** The owner goes back to the priority it had when it got the mutex. */
  function Restore(c: Core, o: Tid, p: nat): (r: Core)
    requires o in c.sys.tcb && p < |c.sys.ready|
    ensures |r.sys.ready| == |c.sys.ready|
  {
    if p != c.sys.tcb[o].prio then SetPriority(c, o, p) else c
  }

  /** The last release: to the first waiting thread, or to nobody. */
  function HandOff(m: Mutex): Mutex
    requires |m.core.sys.wait| == 1 && InRange(m.core.sys, m.core.sys.wait[WAITERS])
  {
    var l := m.core.sys.wait[WAITERS];
    if l == [] then
      m.(value := m.value + 1, owner := None, original := NO_PRIORITY)
    else
      assert l[0] in l;
      m.(owner := Some(l[0]), original := m.core.sys.tcb[l[0]].prio, hold := Up(m.hold),
         takes := m.takes + 1, core := Wake(m.core, WAITERS))
  }

  /** rt_mutex_release up to its rt_schedule */
  function Release(m: Mutex, t: Tid): (Mutex, Outcome)
    requires Shape(m) && Knows(m, t)
  {
    if m.owner != Some(t) then (m.(core := Fail(m.core, t, ERROR)), Returned(ERROR))
    else
      var m1 := m.(hold := Down(m.hold), takes := m.takes - 1);
      if m1.hold != 0 then (m1, Returned(EOK))
      else
        SetPriorityRange(m.core, t, m.original);
        (HandOff(m1.(core := Restore(m.core, t, m.original))), Returned(EOK))
  }

  // ---- The protocol --------------------------------------------------------------------------

  datatype Step =
    | DoTake(t: Tid, time: int) | DoRelease(t: Tid) | DoContinue(t: Tid) | DoExpire(t: Tid)
    | DoRouse(t: Tid) | DoSleep(t: Tid) | DoYield(t: Tid)

  predicate Running(m: Mutex, t: Tid) {
    Knows(m, t) && m.core.sys.tcb[t].stat == Ready && t !in m.core.blocked
  }

  predicate Enabled(m: Mutex, s: Step) {
    && Shape(m)
    && match s
       case DoTake(t, _) => Running(m, t) && (m.owner.Some? || m.value > 0)
       case DoRelease(t) => Running(m, t)
       case DoContinue(t) => Knows(m, t) && m.core.sys.tcb[t].stat == Ready && t in m.core.blocked
       case DoExpire(t) => Knows(m, t) && m.core.sys.tcb[t].armed
       case DoRouse(t) => Knows(m, t) && m.core.sys.tcb[t].stat == Suspended
       case DoSleep(t) => OtherEnabled(m.core, Doze(t))
       case DoYield(t) => OtherEnabled(m.core, Spin(t))
  }

  function Next(m: Mutex, s: Step): Mutex
    requires Enabled(m, s)
  {
    match s
    case DoTake(t, time) => Take(m, t, time).0
    case DoRelease(t) => Release(m, t).0
    case DoContinue(t) => Continue(m, t).0
    case DoExpire(t) => m.(core := Expire(m.core, t))
    case DoRouse(t) => m.(core := Rouse(m.core, t))
    case DoSleep(t) => m.(core := Aside(m.core, Doze(t)))
    case DoYield(t) => m.(core := Aside(m.core, Spin(t)))
  }

  /** The owner's 256th nested take, which wraps the hold count. */
  predicate Overflows(m: Mutex, s: Step) {
    s.DoTake? && m.owner == Some(s.t) && m.hold + 1 == HOLD_LIMIT
  }

  /** Somebody else calls rt_thread_resume on a thread that waits for the mutex. */
  predicate Strays(m: Mutex, s: Step) {
    s.DoRouse? && s.t in m.core.blocked
  }

  predicate EnabledRun(m: Mutex, ss: seq<Step>)
    decreases |ss|
  {
    ss == [] || (Enabled(m, ss[0]) && EnabledRun(Next(m, ss[0]), ss[1..]))
  }

  function Run(m: Mutex, ss: seq<Step>): Mutex
    requires EnabledRun(m, ss)
    decreases |ss|
  {
    if ss == [] then m else Run(Next(m, ss[0]), ss[1..])
  }

  /** No step of the run overflows the hold count or takes a waiting thread out of its wait. */
  predicate RunFits(m: Mutex, ss: seq<Step>)
    requires EnabledRun(m, ss)
    decreases |ss|
  {
    ss == [] || (!Overflows(m, ss[0]) && !Strays(m, ss[0]) && RunFits(Next(m, ss[0]), ss[1..]))
  }

  function Create(sys: Sys): Mutex {
    Mutex(Core(sys.(wait := [[]]), map[]), 1, None, NO_PRIORITY, 0, 0,
          map t | t in sys.tcb :: sys.tcb[t].prio)
  }
}

/** One owner at a time, and no waiting thread outranks it. */
module MutexLemmas {
  import opened Base
  import opened Threads
  import opened ThreadLemmas
  import opened Waiters
  import opened MutexSpec

  // ---- The invariant -------------------------------------------------------------------------

  /** Free: value 1, no owner, no hold and nobody waiting. Taken: an owner with its count. */
  ghost predicate Accounts(m: Mutex) {
    && |m.core.sys.wait| == 1 && m.hold == m.takes
    && (m.owner.None? ==> m.value == 1 && m.hold == 0 && m.core.sys.wait[WAITERS] == [])
    && (m.owner.Some? ==> m.value == 0 && 0 < m.hold < HOLD_LIMIT && m.original < |m.core.sys.ready|)
  }

  ghost predicate OwnerIs(owner: Option<Tid>, t: Tid) {
    owner == Some(t)
  }

  /** Only the owner may differ from its own priority, upwards; it outranks every waiting thread. */
  ghost predicate Ranks(tcb: map<Tid, Tcb>, l: seq<Tid>, owner: Option<Tid>, original: nat, bases: map<Tid, nat>) {
    && bases.Keys == tcb.Keys
    && (forall t :: t in tcb && !OwnerIs(owner, t) ==> tcb[t].prio == bases[t])
    && (forall t :: t in l ==> t in tcb && !OwnerIs(owner, t))
    && (owner.Some? ==> var o := owner.value;
          && o in tcb && original == bases[o] && tcb[o].prio <= bases[o]
          && forall u :: u in l ==> tcb[o].prio <= tcb[u].prio)
  }

  /** A thread that was resumed and has not run yet has been given the mutex. */
  ghost predicate Given(c: Core, owner: Option<Tid>) {
    forall t :: t in Resumed(c, WAITERS) ==> OwnerIs(owner, t)
  }

  ghost predicate Inv(m: Mutex) {
    && CoreInv(m.core) && Accounts(m) && Given(m.core, m.owner)
    && Ranks(m.core.sys.tcb, m.core.sys.wait[WAITERS], m.owner, m.original, m.bases)
    && Sorted(m.core.sys.tcb, m.core.sys.wait[WAITERS])
  }

  lemma InvShape(m: Mutex)
    requires Inv(m)
    ensures Shape(m) && (m.owner.Some? || m.value > 0)
    ensures forall t :: t in m.core.sys.tcb ==> Knows(m, t)
  {
    CoreRanges(m.core);
    hide CoreInv, Given, Sorted, InRange;
  }

  // ---- Priorities ----------------------------------------------------------------------------

  lemma SetPriorityKeeps(c: Core, t: Tid, p: nat)
    requires CoreInv(c) && t in c.sys.tcb && p < |c.sys.ready|
    ensures var c' := SetPriority(c, t, p);
      && CoreInv(c') && SameResumed(c, c') && c'.blocked == c.blocked && c'.sys.wait == c.sys.wait
      && c'.sys.tcb == c.sys.tcb[t := c.sys.tcb[t].(prio := p)]
  {
    CoreRanges(c);
    hide Placed, CallsOk, ChangePriority, Resumed;
    AsideKeeps(c, Rank(t, p));
    RankShape(c.sys, t, p);
  }

  lemma SortedSame(tcb: map<Tid, Tcb>, tcb': map<Tid, Tcb>, l: seq<Tid>)
    requires Sorted(tcb, l) && forall t :: t in l ==> t in tcb' && tcb'[t].prio == tcb[t].prio
    ensures Sorted(tcb', l)
  {
    forall i, j | 0 <= i < j < |l| ensures tcb'[l[i]].prio <= tcb'[l[j]].prio {
      assert l[i] in l && l[j] in l;
    }
  }

  lemma SortedTail(tcb: map<Tid, Tcb>, l: seq<Tid>)
    requires Sorted(tcb, l) && l != []
    ensures Sorted(tcb, l[1..])
    ensures forall t :: t in l[1..] ==> t in l && l[0] in tcb && tcb[l[0]].prio <= tcb[t].prio
  {
    forall t | t in l[1..] ensures t in l && l[0] in tcb && tcb[l[0]].prio <= tcb[t].prio {
      var i :| 0 <= i < |l[1..]| && l[1..][i] == t;
      assert l[i + 1] == t && l[0] in l;
    }
    forall i, j | 0 <= i < j < |l[1..]| ensures tcb[l[1..][i]].prio <= tcb[l[1..][j]].prio {
      assert l[1..][i] == l[i + 1] && l[1..][j] == l[j + 1];
    }
  }

  lemma {:induction false} SortedWithout(tcb: map<Tid, Tcb>, l: seq<Tid>, t: Tid)
    requires Sorted(tcb, l)
    ensures Sorted(tcb, Without(l, t))
    decreases |l|
  {
    if l != [] {
      SortedTail(tcb, l);
      SortedWithout(tcb, l[1..], t);
      if l[0] != t {
        var r := Without(l[1..], t);
        assert forall u :: u in r ==> u in l[1..];
        SortedCons(tcb, l[0], r);
      }
    }
  }

  lemma SortedCons(tcb: map<Tid, Tcb>, t: Tid, l: seq<Tid>)
    requires Sorted(tcb, l) && t in tcb && forall u :: u in l ==> tcb[t].prio <= tcb[u].prio
    ensures Sorted(tcb, [t] + l)
  {
    var r := [t] + l;
    forall i, j | 0 <= i < j < |r| ensures tcb[r[i]].prio <= tcb[r[j]].prio {
      assert r[j] == l[j - 1] && l[j - 1] in l;
      if i > 0 { assert r[i] == l[i - 1]; }
    }
  }

  /** The waiting thread is put where its priority belongs. */
  lemma EnterSorted(c: Core, t: Tid, timed: bool)
    requires CoreInv(c) && |c.sys.wait| == 1 && t in c.sys.tcb && c.sys.tcb[t].stat == Ready
    requires Sorted(c.sys.tcb, c.sys.wait[WAITERS])
    ensures var c' := Enter(c, WAITERS, t, PRIO, timed);
      && CoreInv(c') && |c'.sys.wait| == 1 && Less(c, c', t) && Sorted(c'.sys.tcb, c'.sys.wait[WAITERS])
      && c'.sys.tcb == c.sys.tcb[t := c.sys.tcb[t].(stat := Suspended, error := EOK, armed := timed)]
      && (forall u :: u in c'.sys.wait[WAITERS] ==> u == t || u in c.sys.wait[WAITERS])
  {
    hide CoreInv, Less, Enter, Joined, Sorted, PrioPosition, Insert;
    EnterKeeps(c, WAITERS, t, PRIO, timed);
    EnterList(c, t, timed);
    var c' := Enter(c, WAITERS, t, PRIO, timed);
    JoinedMembers(c.sys.wait, c'.sys.wait, t);
    var x := c.sys.tcb[t].(stat := Suspended, error := EOK);
    InsertSorted(c.sys.tcb, c.sys.wait[WAITERS], t, x, x.(armed := timed));
  }

  lemma JoinedMembers(w: seq<seq<Tid>>, w': seq<seq<Tid>>, t: Tid)
    requires |w| == 1 && Joined(w, w', WAITERS, t)
    ensures |w'| == 1 && forall u :: u in w'[WAITERS] ==> u == t || u in w[WAITERS]
  {}

  lemma InsertSorted(tcb: map<Tid, Tcb>, l: seq<Tid>, t: Tid, x: Tcb, y: Tcb)
    requires Sorted(tcb, l) && t in tcb && x.prio == tcb[t].prio && y.prio == x.prio
    ensures Sorted(tcb[t := y], Insert(l, PrioPosition(tcb[t := x], l, x.prio), t))
  {
    hide PrioPosition, Insert, Sorted;
    SortedMembers(tcb, l);
    SortedSame(tcb, tcb[t := x], l);
    var r := Insert(l, PrioPosition(tcb[t := x], l, x.prio), t);
    assert Sorted(tcb[t := x], r) by { PrioInsert(tcb[t := x], l, t); }
    SortedMembers(tcb[t := x], r);
    SortedSame(tcb[t := x], tcb[t := y], r);
  }

  lemma EnterList(c: Core, t: Tid, timed: bool)
    requires CoreInv(c) && |c.sys.wait| == 1 && t in c.sys.tcb && c.sys.tcb[t].stat == Ready
    ensures var l, x := c.sys.wait[WAITERS], c.sys.tcb[t].(stat := Suspended, error := EOK);
      |Enter(c, WAITERS, t, PRIO, timed).sys.wait| == 1 &&
      Enter(c, WAITERS, t, PRIO, timed).sys.wait[WAITERS]
        == Insert(l, PrioPosition(c.sys.tcb[t := x], l, x.prio), t)
  {
    hide Placed, CallsOk, PrioPosition, WithoutAll, Insert;
    var s1 := SetError(c.sys, t, EOK);
    ErrorPlaced(c.sys, t, EOK);
    SuspendPlaced(s1, t);
    assert Suspend(s1, t).tcb == c.sys.tcb[t := c.sys.tcb[t].(stat := Suspended, error := EOK)];
  }

  // ---- Take ----------------------------------------------------------------------------------

  lemma FailInv(m: Mutex, t: Tid, e: Err)
    requires Inv(m) && t in m.core.sys.tcb && t !in m.core.blocked
    ensures Inv(m.(core := Fail(m.core, t, e)))
  {
    hide CoreInv, Resumed, Sorted;
    FailKeeps(m.core, t, e);
    SortedSame(m.core.sys.tcb, Fail(m.core, t, e).sys.tcb, m.core.sys.wait[WAITERS]);
  }

  /** A nested take by the owner keeps everything exactly when the hold count does not wrap. */
  lemma AgainExactly(m: Mutex, t: Tid, time: int)
    requires Inv(m) && Enabled(m, DoTake(t, time)) && m.owner == Some(t)
    ensures Inv(Take(m, t, time).0) <==> m.hold + 1 < HOLD_LIMIT
  {
    hide CoreInv, Resumed, Sorted, Ranks, Fail, Shape, Given;
    FailInv(m, t, EOK);
  }

  lemma FirstTake(m: Mutex, t: Tid, time: int)
    requires Inv(m) && Enabled(m, DoTake(t, time)) && m.owner != Some(t) && m.value > 0
    ensures Inv(Take(m, t, time).0)
  {
    hide CoreInv, Resumed, Sorted, Shape, InRange;
    FailInv(m, t, EOK);
    CoreRanges(m.core);
  }

  lemma BoostKeeps(c: Core, o: Tid, p: nat)
    requires CoreInv(c) && o in c.sys.tcb && p < |c.sys.ready|
    ensures var c' := Boost(c, o, p);
      && CoreInv(c') && SameResumed(c, c') && c'.blocked == c.blocked && c'.sys.wait == c.sys.wait
      && c'.sys.tcb == c.sys.tcb[o := c.sys.tcb[o].(prio := Min(p, c.sys.tcb[o].prio))]
  {
    hide CoreInv, Resumed, SetPriority;
    SetPriorityKeeps(c, o, p);
    assert c.sys.tcb == c.sys.tcb[o := c.sys.tcb[o]];
  }

  lemma WaitKeeps(m: Mutex, t: Tid, time: int)
    requires Inv(m) && Enabled(m, DoTake(t, time)) && m.owner != Some(t) && m.value == 0 && time != 0
    ensures Inv(Take(m, t, time).0)
  {
    hide CoreInv, Resumed, Sorted, Boost, Enter, Given, InRange;
    var o, p := m.owner.value, m.core.sys.tcb[t].prio;
    CoreRanges(m.core);
    BoostKeeps(m.core, o, p);
    var c1 := Boost(m.core, o, p);
    SortedSame(m.core.sys.tcb, c1.sys.tcb, m.core.sys.wait[WAITERS]);
    EnterSorted(c1, t, time > 0);
    var c2 := Enter(c1, WAITERS, t, PRIO, time > 0);
    WaitGiven(m.core, c1, c2, m.owner, t);
    hide Less, SameResumed;
    WaitRanks(m.core.sys.tcb, c2.sys.tcb, m.core.sys.wait[WAITERS], c2.sys.wait[WAITERS], o, m.original, m.bases, t);
  }

  lemma WaitGiven(c: Core, c1: Core, c2: Core, owner: Option<Tid>, t: Tid)
    requires Given(c, owner) && SameResumed(c, c1) && Less(c1, c2, t)
    ensures Given(c2, owner)
  {
    hide Resumed;
  }

  lemma WaitRanks(tcb: map<Tid, Tcb>, tcb': map<Tid, Tcb>, l: seq<Tid>, l': seq<Tid>, o: Tid, original: nat,
                  bases: map<Tid, nat>, t: Tid)
    requires Ranks(tcb, l, Some(o), original, bases) && t in tcb && t != o
    requires tcb'.Keys == tcb.Keys && tcb'[o].prio == Min(tcb[t].prio, tcb[o].prio)
    requires forall u :: u in tcb && u != o ==> tcb'[u].prio == tcb[u].prio
    requires forall u :: u in l' ==> u == t || u in l
    ensures Ranks(tcb', l', Some(o), original, bases)
  {}

  // ---- Release -------------------------------------------------------------------------------

  lemma NotOwner(m: Mutex, t: Tid)
    requires Inv(m) && Enabled(m, DoRelease(t)) && m.owner != Some(t)
    ensures Inv(Release(m, t).0) && Release(m, t).1 == Returned(ERROR)
  {
    hide Inv, Shape;
    FailInv(m, t, ERROR);
  }

  lemma RestoreKeeps(c: Core, o: Tid, p: nat)
    requires CoreInv(c) && o in c.sys.tcb && p < |c.sys.ready|
    ensures var c' := Restore(c, o, p);
      && CoreInv(c') && SameResumed(c, c') && c'.blocked == c.blocked && c'.sys.wait == c.sys.wait
      && c'.sys.tcb == c.sys.tcb[o := c.sys.tcb[o].(prio := p)]
  {
    hide CoreInv, Resumed, SetPriority;
    SetPriorityKeeps(c, o, p);
    assert c.sys.tcb == c.sys.tcb[o := c.sys.tcb[o]];
  }

  /** Everybody is at its own priority again. */
  ghost predicate Level(tcb: map<Tid, Tcb>, bases: map<Tid, nat>) {
    bases.Keys == tcb.Keys && forall t :: t in tcb ==> tcb[t].prio == bases[t]
  }

  /** What holds between the owner's last release and the hand-off. */
  ghost predicate Between(m: Mutex) {
    && CoreInv(m.core) && |m.core.sys.wait| == 1 && m.value == 0 && m.hold == 0 && m.takes == 0
    && Resumed(m.core, WAITERS) == {}
    && Level(m.core.sys.tcb, m.bases) && Sorted(m.core.sys.tcb, m.core.sys.wait[WAITERS])
  }

  lemma LastRelease(m: Mutex, t: Tid)
    requires Inv(m) && Running(m, t) && m.owner == Some(t) && m.hold == 1
    ensures Shape(m)
    ensures Between(m.(hold := 0, takes := m.takes - 1, core := Restore(m.core, t, m.original)))
  {
    hide CoreInv, Resumed, Sorted, Restore, InRange;
    InvShape(m);
    CoreRanges(m.core);
    RestoreKeeps(m.core, t, m.original);
    var c' := Restore(m.core, t, m.original);
    SortedSame(m.core.sys.tcb, c'.sys.tcb, m.core.sys.wait[WAITERS]);
    NotResumed(m.core, WAITERS, t);
    assert Resumed(c', WAITERS) == Resumed(m.core, WAITERS);
  }

  lemma HandOffNobody(m: Mutex)
    requires Between(m) && m.core.sys.wait[WAITERS] == []
    ensures InRange(m.core.sys, []) && Inv(HandOff(m))
  {
    hide CoreInv, Resumed;
  }

  lemma HandOffFirst(m: Mutex)
    requires Between(m) && m.core.sys.wait[WAITERS] != []
    ensures InRange(m.core.sys, m.core.sys.wait[WAITERS]) && Inv(HandOff(m))
    ensures HandOff(m).owner == Some(m.core.sys.wait[WAITERS][0])
  {
    hide CoreInv, Resumed, Sorted, Wake, InRange, Level, Given, Ranks;
    HeadLeaves(m.core);
    CoreRanges(m.core);
    WakeTail(m.core);
    var c', l := Wake(m.core, WAITERS), m.core.sys.wait[WAITERS];
    var t := l[0];
    SortedTail(m.core.sys.tcb, l);
    SortedMembers(m.core.sys.tcb, l[1..]);
    SortedSame(m.core.sys.tcb, c'.sys.tcb, l[1..]);
    HandRanks(m.core.sys.tcb, c'.sys.tcb, l[1..], t, m.bases);
  }

  lemma WakeTail(c: Core)
    requires CoreInv(c) && |c.sys.wait| == 1 && c.sys.wait[WAITERS] != [] && Resumed(c, WAITERS) == {}
    ensures InRange(c.sys, c.sys.wait[WAITERS])
    ensures var c', t := Wake(c, WAITERS), c.sys.wait[WAITERS][0];
      && CoreInv(c') && c'.sys.wait == [c.sys.wait[WAITERS][1..]] && Given(c', Some(t)) && t in c.sys.tcb
      && c'.sys.tcb == c.sys.tcb[t := c.sys.tcb[t].(stat := Ready, armed := false)]
  {
    hide CoreInv, Resumed, Wake, InRange, Popped;
    WakeKeeps(c, WAITERS);
    PoppedOne(c.sys.wait, Wake(c, WAITERS).sys.wait);
  }

  lemma PoppedOne(w: seq<seq<Tid>>, w': seq<seq<Tid>>)
    requires |w| == 1 && Popped(w, w', WAITERS)
    ensures w' == [w[WAITERS][1..]]
  {}

  lemma HeadLeaves(c: Core)
    requires CoreInv(c) && |c.sys.wait| == 1 && c.sys.wait[WAITERS] != []
    ensures c.sys.wait[WAITERS][0] !in c.sys.wait[WAITERS][1..]
  {
    HeadOnce(c.sys, WAITERS);
  }

  lemma HandRanks(tcb: map<Tid, Tcb>, tcb': map<Tid, Tcb>, l: seq<Tid>, t: Tid, bases: map<Tid, nat>)
    requires Level(tcb, bases) && t in tcb && tcb'.Keys == tcb.Keys
    requires forall u :: u in tcb ==> tcb'[u].prio == tcb[u].prio
    requires t !in l && forall u :: u in l ==> u in tcb && tcb[t].prio <= tcb[u].prio
    ensures Ranks(tcb', l, Some(t), tcb[t].prio, bases)
  {}

  lemma ReleaseKeeps(m: Mutex, t: Tid)
    requires Inv(m) && Enabled(m, DoRelease(t))
    ensures Inv(Release(m, t).0)
  {
    if m.owner != Some(t) {
      NotOwner(m, t);
    } else if m.hold > 1 {
      hide CoreInv, Resumed, Sorted, Ranks, Given, InRange;
    } else {
      assert m.hold == 1;
      hide Inv, Between, HandOff, Restore, Shape, InRange;
      LastRelease(m, t);
      var m1 := m.(hold := 0, takes := m.takes - 1, core := Restore(m.core, t, m.original));
      BetweenShape(m1);
      if m1.core.sys.wait[WAITERS] == [] {
        HandOffNobody(m1);
      } else {
        HandOffFirst(m1);
      }
    }
  }

  lemma BetweenShape(m: Mutex)
    requires Between(m)
    ensures |m.core.sys.wait| == 1 && InRange(m.core.sys, m.core.sys.wait[WAITERS])
  {
    CoreRanges(m.core);
  }

  // ---- The other steps -----------------------------------------------------------------------

  lemma ContinueKeeps(m: Mutex, t: Tid)
    requires Inv(m) && t in m.core.sys.tcb && m.core.sys.tcb[t].stat == Ready
    ensures Inv(m.(core := Leave(m.core, t)))
  {
    hide CoreInv, Resumed, Sorted, Ranks;
    LeaveKeeps(m.core, t);
  }

  lemma RanksFewer(tcb: map<Tid, Tcb>, tcb': map<Tid, Tcb>, l: seq<Tid>, l': seq<Tid>, owner: Option<Tid>,
                   original: nat, bases: map<Tid, nat>)
    requires Ranks(tcb, l, owner, original, bases) && tcb'.Keys == tcb.Keys
    requires forall u :: u in tcb ==> tcb'[u].prio == tcb[u].prio
    requires forall u :: u in l' ==> u in l
    ensures Ranks(tcb', l', owner, original, bases)
  {}

  lemma ExpireCore(c: Core, t: Tid, owner: Option<Tid>)
    requires CoreInv(c) && t in c.sys.tcb && c.sys.tcb[t].stat == Suspended && |c.sys.wait| == 1
    requires Given(c, owner)
    ensures c.sys.tcb[t].prio < |c.sys.ready|
    ensures var c' := Expire(c, t);
      && CoreInv(c') && Given(c', owner) && |c'.sys.wait| == 1
      && c'.sys.wait[WAITERS] == Without(c.sys.wait[WAITERS], t)
      && c'.sys.tcb == c.sys.tcb[t := c.sys.tcb[t].(stat := Ready, error := ETIMEOUT, armed := false)]
  {
    hide CoreInv, Resumed, Expire, Without;
    ExpireKeeps(c, t);
  }

  lemma GivenSame(c: Core, c': Core, owner: Option<Tid>)
    requires Given(c, owner) && SameResumed(c, c')
    ensures Given(c', owner)
  {
    hide Resumed;
  }

  lemma ArmedKnown(m: Mutex, t: Tid)
    requires Inv(m) && t in m.core.sys.tcb && m.core.sys.tcb[t].armed
    ensures Knows(m, t) && m.core.sys.tcb[t].stat == Suspended
  {
    hide CoreInv, Inv;
    InvShape(m);
    InvParts(m);
    ArmedSuspended(m.core, t);
  }

  lemma AccountsFewer(m: Mutex, m': Mutex)
    requires Accounts(m) && m' == m.(core := m'.core) && |m'.core.sys.wait| == 1
    requires |m'.core.sys.ready| == |m.core.sys.ready|
    requires m.core.sys.wait[WAITERS] == [] ==> m'.core.sys.wait[WAITERS] == []
    ensures Accounts(m')
  {}

  lemma WithoutMembers(l: seq<Tid>, t: Tid)
    ensures l == [] ==> Without(l, t) == []
    ensures forall u :: u in Without(l, t) ==> u in l
  {}

  /** A thread that leaves the list takes nobody's place or priority. */
  lemma ExpireOrder(tcb: map<Tid, Tcb>, t: Tid, x: Tcb, l: seq<Tid>, owner: Option<Tid>, original: nat,
                    bases: map<Tid, nat>)
    requires Sorted(tcb, l) && Ranks(tcb, l, owner, original, bases) && t in tcb && x.prio == tcb[t].prio
    ensures Sorted(tcb[t := x], Without(l, t)) && Ranks(tcb[t := x], Without(l, t), owner, original, bases)
  {
    hide Sorted, Ranks, Without;
    WithoutMembers(l, t);
    SortedMembers(tcb, l);
    SortedWithout(tcb, l, t);
    SortedSame(tcb, tcb[t := x], Without(l, t));
    RanksFewer(tcb, tcb[t := x], l, Without(l, t), owner, original, bases);
  }

  lemma InvParts(m: Mutex)
    requires Inv(m)
    ensures CoreInv(m.core) && Accounts(m) && |m.core.sys.wait| == 1 && Given(m.core, m.owner)
    ensures Ranks(m.core.sys.tcb, m.core.sys.wait[WAITERS], m.owner, m.original, m.bases)
    ensures Sorted(m.core.sys.tcb, m.core.sys.wait[WAITERS])
  {
    hide CoreInv, Sorted, Ranks, Given;
  }

  lemma InvFrom(m: Mutex)
    requires CoreInv(m.core) && Accounts(m) && |m.core.sys.wait| == 1 && Given(m.core, m.owner)
    requires Ranks(m.core.sys.tcb, m.core.sys.wait[WAITERS], m.owner, m.original, m.bases)
    requires Sorted(m.core.sys.tcb, m.core.sys.wait[WAITERS])
    ensures Inv(m)
  {
    hide CoreInv, Sorted, Ranks, Given, Accounts;
  }

  lemma MutexExpireKeeps(m: Mutex, t: Tid)
    requires Inv(m) && t in m.core.sys.tcb && m.core.sys.tcb[t].armed
    ensures Knows(m, t) && m.core.sys.tcb[t].stat == Suspended && Inv(m.(core := Expire(m.core, t)))
  {
    hide CoreInv, Sorted, Expire, Without, InRange, Ranks, Given, Accounts, Inv;
    InvParts(m);
    ArmedKnown(m, t);
    ExpireCore(m.core, t, m.owner);
    var x := m.core.sys.tcb[t].(stat := Ready, error := ETIMEOUT, armed := false);
    ExpireOrder(m.core.sys.tcb, t, x, m.core.sys.wait[WAITERS], m.owner, m.original, m.bases);
    WithoutMembers(m.core.sys.wait[WAITERS], t);
    AccountsFewer(m, m.(core := Expire(m.core, t)));
    InvFrom(m.(core := Expire(m.core, t)));
  }

  /** A change that leaves the list, the priorities and the resumed threads alone. */
  lemma SameTcbs(m: Mutex, c: Core)
    requires Inv(m) && CoreInv(c) && SameResumed(m.core, c) && c.sys.wait == m.core.sys.wait
    requires |c.sys.ready| == |m.core.sys.ready| && c.sys.tcb.Keys == m.core.sys.tcb.Keys
    requires forall u :: u in m.core.sys.tcb ==> c.sys.tcb[u].prio == m.core.sys.tcb[u].prio
    ensures Inv(m.(core := c))
  {
    hide CoreInv, Sorted, Ranks, Given, SameResumed, Accounts, Inv;
    InvParts(m);
    var l := m.core.sys.wait[WAITERS];
    GivenSame(m.core, c, m.owner);
    SortedMembers(m.core.sys.tcb, l);
    SortedSame(m.core.sys.tcb, c.sys.tcb, l);
    RanksFewer(m.core.sys.tcb, c.sys.tcb, l, l, m.owner, m.original, m.bases);
    AccountsFewer(m, m.(core := c));
    InvFrom(m.(core := c));
  }

  lemma SleepKeeps(m: Mutex, t: Tid)
    requires Inv(m) && OtherEnabled(m.core, Doze(t))
    ensures Inv(m.(core := Aside(m.core, Doze(t))))
  {
    hide CoreInv, Sorted, Aside, Ranks, Given, SameResumed, Accounts, Inv, OtherEnabled;
    InvParts(m);
    SleepTcb(m.core, t);
    AsideKeeps(m.core, Doze(t));
    SameTcbs(m, Aside(m.core, Doze(t)));
  }

  lemma SortedMembers(tcb: map<Tid, Tcb>, l: seq<Tid>)
    requires Sorted(tcb, l)
    ensures forall u :: u in l ==> u in tcb
  {}

  lemma SleepTcb(c: Core, t: Tid)
    requires CoreInv(c) && OtherEnabled(c, Doze(t))
    ensures t in c.sys.tcb && Aside(c, Doze(t)).sys.wait == c.sys.wait
    ensures Aside(c, Doze(t)).sys.tcb == c.sys.tcb[t := c.sys.tcb[t].(stat := Suspended, armed := true)]
  {
    SleepPlaced(c.sys, t);
  }

  lemma YieldKeeps(m: Mutex, t: Tid)
    requires Inv(m) && OtherEnabled(m.core, Spin(t))
    ensures Inv(m.(core := Aside(m.core, Spin(t))))
  {
    hide CoreInv, Sorted, Aside, Ranks, Given, SameResumed, Accounts, Inv, OtherEnabled;
    InvParts(m);
    SpinTcb(m.core, t);
    AsideKeeps(m.core, Spin(t));
    SameTcbs(m, Aside(m.core, Spin(t)));
  }

  lemma SpinTcb(c: Core, t: Tid)
    requires OtherEnabled(c, Spin(t))
    ensures Aside(c, Spin(t)).sys.tcb == c.sys.tcb && Aside(c, Spin(t)).sys.wait == c.sys.wait
  {}

  lemma TakeKeeps(m: Mutex, t: Tid, time: int)
    requires Inv(m) && Enabled(m, DoTake(t, time)) && !Overflows(m, DoTake(t, time))
    ensures Inv(Take(m, t, time).0)
  {
    assert m.value <= 1 && (m.owner.Some? ==> m.value == 0 && m.hold < HOLD_LIMIT);
    hide Inv, Shape, Boost, Enter;
    if m.owner == Some(t) {
      AgainExactly(m, t, time);
    } else if m.value > 0 {
      FirstTake(m, t, time);
    } else if time == 0 {
      FailInv(m, t, ETIMEOUT);
    } else {
      WaitKeeps(m, t, time);
    }
  }

  lemma TakeExactly(m: Mutex, t: Tid, time: int)
    requires Inv(m) && Enabled(m, DoTake(t, time))
    ensures Inv(Take(m, t, time).0) <==> !Overflows(m, DoTake(t, time))
  {
    hide Inv, Take, Shape;
    if Overflows(m, DoTake(t, time)) {
      AgainExactly(m, t, time);
    } else {
      TakeKeeps(m, t, time);
    }
  }

  /** A sleeping thread that is in no call may be resumed by anybody. */
  lemma StirKeeps(m: Mutex, t: Tid)
    requires Inv(m) && Enabled(m, DoRouse(t)) && t !in m.core.blocked
    ensures Inv(m.(core := Rouse(m.core, t)))
  {
    hide CoreInv, Sorted, Rouse, Ranks, Given, SameResumed, Accounts, Inv, Shape, OtherEnabled, Aside;
    InvParts(m);
    StirTcb(m.core, t);
    AsideKeeps(m.core, Stir(t));
    SameTcbs(m, Rouse(m.core, t));
  }

  lemma StirTcb(c: Core, t: Tid)
    requires CoreInv(c) && t in c.sys.tcb && c.sys.tcb[t].stat == Suspended && t !in c.blocked
    ensures OtherEnabled(c, Stir(t)) && Aside(c, Stir(t)) == Rouse(c, t) && Rouse(c, t).sys.wait == c.sys.wait
    ensures Rouse(c, t).sys.tcb == c.sys.tcb[t := c.sys.tcb[t].(stat := Ready, armed := false)]
  {
    hide CoreInv, Without, Resume;
    RouseEffect(c, t);
    NotWaiting(c, t);
    assert Rouse(c, t).sys.wait == c.sys.wait;
  }

  /** A waiting thread that anybody else resumes takes itself for the owner. */
  lemma StrayBreaks(m: Mutex, t: Tid)
    requires Inv(m) && Enabled(m, DoRouse(t)) && t in m.core.blocked
    ensures m.owner.Some? && m.owner != Some(t) && !Inv(m.(core := Rouse(m.core, t)))
    ensures var m1 := m.(core := Rouse(m.core, t));
      Knows(m1, t) && Continue(m1, t).1 == Returned(EOK) && Continue(m1, t).0.owner == m.owner
  {
    hide CoreInv, Sorted, Rouse, Without, Resumed, Shape;
    SleeperError(m.core, t);
    RouseKeeps(m.core, t);
    var c := Rouse(m.core, t);
    assert t in m.core.sys.wait[WAITERS];
    assert !OwnerIs(m.owner, t);
    assert t in Resumed(c, WAITERS);
  }

  lemma RouseExactly(m: Mutex, t: Tid)
    requires Inv(m) && Enabled(m, DoRouse(t))
    ensures Inv(m.(core := Rouse(m.core, t))) <==> !Strays(m, DoRouse(t))
  {
    hide Inv, Shape, Rouse;
    if t in m.core.blocked { StrayBreaks(m, t); } else { StirKeeps(m, t); }
  }

  lemma NextKeeps(m: Mutex, s: Step)
    requires Inv(m) && Enabled(m, s) && !Overflows(m, s) && !Strays(m, s)
    ensures Inv(Next(m, s))
  {
    hide Inv, Take, Release, Expire, Rouse, Aside, Shape;
    match s
    case DoTake(t, time) => TakeKeeps(m, t, time);
    case DoRelease(t) => ReleaseKeeps(m, t);
    case DoContinue(t) => ContinueKeeps(m, t);
    case DoExpire(t) => MutexExpireKeeps(m, t);
    case DoRouse(t) => RouseExactly(m, t);
    case DoSleep(t) => SleepKeeps(m, t);
    case DoYield(t) => YieldKeeps(m, t);
  }

  /** One step of the protocol keeps the invariant if and only if it does not overflow the 8-bit
      hold count and does not resume a waiting thread from outside. */
  lemma NextExactly(m: Mutex, s: Step)
    requires Inv(m) && Enabled(m, s)
    ensures Inv(Next(m, s)) <==> !Overflows(m, s) && !Strays(m, s)
  {
    hide Inv, Take, Release, Expire, Aside, Rouse, Shape;
    if s.DoTake? {
      TakeExactly(m, s.t, s.time);
    } else if s.DoRouse? {
      RouseExactly(m, s.t);
    } else {
      NextKeeps(m, s);
    }
  }

  // ---- Over every run ------------------------------------------------------------------------

  lemma CreateInv(sys: Sys)
    requires Placed(sys)
    ensures Inv(Create(sys))
  {
    var m := Create(sys);
    hide Placed;
    NobodyWaits(sys, [[]]);
    assert Resumed(m.core, WAITERS) == {};
  }

  lemma {:induction false} RunKeeps(m: Mutex, ss: seq<Step>)
    requires Inv(m) && EnabledRun(m, ss) && RunFits(m, ss)
    ensures Inv(Run(m, ss))
    decreases |ss|
  {
    hide Inv, Next, Enabled, Overflows, Strays;
    if ss != [] {
      NextKeeps(m, ss[0]);
      RunKeeps(Next(m, ss[0]), ss[1..]);
    }
  }

  /** The owner takes the mutex n more times. */
  function Takes(t: Tid, n: nat): seq<Step> {
    if n == 0 then [] else [DoTake(t, 0)] + Takes(t, n - 1)
  }

  lemma NestedTake(m: Mutex, t: Tid)
    requires Inv(m) && Running(m, t) && m.owner == Some(t) && m.hold + 1 < HOLD_LIMIT
    ensures Enabled(m, DoTake(t, 0)) && !Overflows(m, DoTake(t, 0))
    ensures var m' := Next(m, DoTake(t, 0));
      Inv(m') && Running(m', t) && m'.owner == Some(t) && m'.hold == m.hold + 1
  {
    hide Inv;
    InvShape(m);
    NextKeeps(m, DoTake(t, 0));
    hide Shape;
  }

  lemma {:induction false} NestedTakes(m: Mutex, t: Tid, n: nat)
    requires Inv(m) && Running(m, t) && m.owner == Some(t) && m.hold + n < HOLD_LIMIT
    ensures EnabledRun(m, Takes(t, n)) && RunFits(m, Takes(t, n))
    ensures var m' := Run(m, Takes(t, n));
      Inv(m') && Running(m', t) && m'.owner == Some(t) && m'.hold == m.hold + n
    decreases n
  {
    hide Inv, Next, Enabled, Overflows, Running;
    if n > 0 {
      NestedTake(m, t);
      NestedTakes(Next(m, DoTake(t, 0)), t, n - 1);
    }
  }

  lemma TakenFirst(sys: Sys, t: Tid)
    requires Placed(sys) && t in sys.tcb && sys.tcb[t].stat == Ready
    ensures Inv(Create(sys)) && Enabled(Create(sys), DoTake(t, 0))
    ensures var m := Next(Create(sys), DoTake(t, 0));
      Inv(m) && Running(m, t) && m.owner == Some(t) && m.hold == 1
  {
    hide Inv, Placed;
    CreateInv(sys);
    InvShape(Create(sys));
    FirstTake(Create(sys), t, 0);
  }

  /** The wrap can be reached: after 255 takes the owner's next one leaves a hold count of 0. */
  lemma HoldWraps(sys: Sys, t: Tid)
    requires Placed(sys) && t in sys.tcb && sys.tcb[t].stat == Ready
    ensures EnabledRun(Create(sys), Takes(t, 255)) && RunFits(Create(sys), Takes(t, 255))
    ensures var m := Run(Create(sys), Takes(t, 255));
      && m.hold == 255 && Enabled(m, DoTake(t, 0)) && Overflows(m, DoTake(t, 0))
      && var m' := Next(m, DoTake(t, 0)); m'.owner == Some(t) && m'.hold == 0 && !Inv(m')
  {
    hide Inv, Create, Shape;
    TakenFirst(sys, t);
    var m1 := Next(Create(sys), DoTake(t, 0));
    FirstFits(sys, t);
    NestedTakes(m1, t, 254);
    assert Takes(t, 255) == [DoTake(t, 0)] + Takes(t, 254);
    var m := Run(m1, Takes(t, 254));
    InvShape(m);
    NextExactly(m, DoTake(t, 0));
  }

  lemma FirstFits(sys: Sys, t: Tid)
    requires Enabled(Create(sys), DoTake(t, 0))
    ensures !Overflows(Create(sys), DoTake(t, 0))
  {}

  /** Over every run of this kind: value 1, no owner and no hold go together, nobody waits
      then, and the hold count is the number of the owner's unreleased takes. */
  lemma OneOwner(sys: Sys, ss: seq<Step>)
    requires Placed(sys) && EnabledRun(Create(sys), ss) && RunFits(Create(sys), ss)
    ensures var m := Run(Create(sys), ss);
      && (m.value == 1 <==> m.owner.None?) && (m.owner.None? <==> m.hold == 0)
      && |m.core.sys.wait| == 1 && (m.owner.None? ==> m.core.sys.wait[WAITERS] == [])
      && m.hold == m.takes
  {
    CreateInv(sys);
    RunKeeps(Create(sys), ss);
    hide Run, Create, EnabledRun, RunFits, CoreInv, Ranks, Sorted, Given;
  }

  /** Over every run of this kind: no waiting thread has a higher priority than the owner,
      and everybody but the owner runs at its own priority. */
  lemma NoInversion(sys: Sys, ss: seq<Step>)
    requires Placed(sys) && EnabledRun(Create(sys), ss) && RunFits(Create(sys), ss)
    ensures var m := Run(Create(sys), ss);
      && |m.core.sys.wait| == 1
      && (forall u :: u in m.core.sys.wait[WAITERS] ==>
            (m.owner.Some? && m.owner.value in m.core.sys.tcb && u in m.core.sys.tcb
            && m.core.sys.tcb[m.owner.value].prio <= m.core.sys.tcb[u].prio))
      && (forall t :: t in m.core.sys.tcb && m.owner != Some(t) ==>
            t in m.bases && m.core.sys.tcb[t].prio == m.bases[t])
  {
    CreateInv(sys);
    RunKeeps(Create(sys), ss);
    hide Run, Create, EnabledRun, RunFits, CoreInv, Sorted, Given;
    var m := Run(Create(sys), ss);
    forall t | t in m.core.sys.tcb && m.owner != Some(t) ensures m.core.sys.tcb[t].prio == m.bases[t] {
      assert !OwnerIs(m.owner, t);
    }
  }

  /** A take reports success only to the owner, whether it found the mutex free or was resumed. */
  lemma SuccessIsOwnership(m: Mutex, t: Tid, time: int)
    requires Inv(m)
    ensures Enabled(m, DoTake(t, time)) && Take(m, t, time).1 == Returned(EOK) ==>
              Take(m, t, time).0.owner == Some(t)
    ensures Enabled(m, DoContinue(t)) && Continue(m, t).1 == Returned(EOK) ==>
              Continue(m, t).0.owner == Some(t)
  {
    if Enabled(m, DoContinue(t)) { GrantedOwns(m, t); }
    hide CoreInv, Resumed, Sorted, Ranks, Boost, Enter, Shape, OwnerIs;
  }

  lemma GrantedOwns(m: Mutex, t: Tid)
    requires Inv(m) && Enabled(m, DoContinue(t))
    ensures t in m.core.sys.tcb && (m.core.sys.tcb[t].error == EOK ==> m.owner == Some(t))
  {
    assert Caller(m.core.sys.tcb, m.core.sys.wait, m.core.blocked, t);
    hide Sorted, Ranks, Boost, Shape;
    if m.core.sys.tcb[t].error == EOK {
      assert t in Resumed(m.core, WAITERS);
      assert OwnerIs(m.owner, t);
    }
  }

  /** Nobody but the owner can end its ownership: every other step leaves the owner in place. */
  lemma OwnerStays(m: Mutex, s: Step)
    requires Inv(m) && Enabled(m, s) && m.owner.Some?
    requires Next(m, s).owner != m.owner
    ensures s == DoRelease(m.owner.value) && m.hold == 1
  {
    hide CoreInv, Resumed, Sorted, Ranks, Boost, Enter, Shape, Given, Aside, Expire, Rouse;
  }
}

/** struct rt_mutex, updated in place. */
module Mutex {
  import opened Base
  import opened Threads
  import opened ThreadLemmas
  import opened Waiters
  import S = MutexSpec
  import opened MutexSpec
  import opened MutexLemmas
  import K = Kernel

  class Mutex {
    const k: K.Kernel
    var value: nat
    var owner: Option<Tid>
    var original: nat
    var hold: nat
    /** The list the waiting call of a thread is about. */
    var calls: map<Tid, nat>
    ghost var takes: int
    ghost var bases: map<Tid, nat>

    ghost function View(): S.Mutex
      reads this, k, k.rq
    {
      S.Mutex(Core(k.View(), calls), value, owner, original, hold, takes, bases)
    }

    ghost predicate Valid()
      reads this, k, k.rq
    {
      k.Valid() && Inv(View())
    }

    /** rt_mutex_init on a kernel with one wait list nobody waits in. */
    constructor (kernel: K.Kernel)
      requires kernel.Valid() && kernel.wait == [[]]
      ensures Valid() && k == kernel && View() == Create(kernel.View())
    {
      k, value, owner, original, hold, calls := kernel, 1, None, NO_PRIORITY, 0, map[];
      takes, bases := 0, map t | t in kernel.tcb :: kernel.tcb[t].prio;
      new;
      hide K.BitsInOrder, Inv, Placed;
      CreateInv(kernel.View());
    }

    /** The successful branches of rt_mutex_take. */
    method Acquire(t: Tid)
      requires k.Valid() && Shape(View()) && t in k.tcb && (owner == Some(t) || value > 0)
      requires owner.Some? || value > 0
      modifies this, k`tcb
      ensures k.Valid() && Knows(old(View()), t) && View() == S.Take(old(View()), t, 0).0
      ensures S.Take(old(View()), t, 0).1 == Returned(EOK)
    {
      hide K.BitsInOrder, Placed, InRange;
      PlacedRanges(k.View());
      k.SetError(t, EOK);
      if owner != Some(t) {
        value := value - 1;
        owner := Some(t);
        original := k.tcb[t].prio;
      }
      hold := Up(hold);
      takes := takes + 1;
    }

    /** The owner inherits the priority of t, and t goes to sleep. */
    method Wait(t: Tid, time: int)
      requires k.Valid() && Shape(View()) && t in k.tcb && k.tcb[t].stat == Ready
      requires owner.Some? && owner.value != t && value == 0 && time != 0
      modifies this`calls, k`tcb, k`attr, k`wait, k.rq
      ensures k.Valid() && Knows(old(View()), t) && View() == S.Take(old(View()), t, time).0
      ensures S.Take(old(View()), t, time).1 == Blocked
    {
      hide K.BitsInOrder, Placed, InRange, ChangePriority, Threads.Block;
      PlacedRanges(k.View());
      var o, p := owner.value, k.tcb[t].prio;
      if p < k.tcb[o].prio {
        RankShape(k.View(), o, p);
        k.ChangePriority(o, p);
      }
      k.Block(WAITERS, t, PRIO, time > 0);
      calls := calls[t := WAITERS];
    }

    /** rt_mutex_take up to its rt_schedule. The object stays valid exactly when this is not the
        owner's 256th nested take. */
    method Take(t: Tid, time: int) returns (o: Outcome)
      requires Valid() && t in k.tcb && k.tcb[t].stat == Ready && t !in calls
      modifies this, k`tcb, k`attr, k`wait, k.rq
      ensures k.Valid() && Shape(old(View())) && Knows(old(View()), t)
      ensures Valid() <==> !old(owner == Some(t) && hold + 1 == HOLD_LIMIT)
      ensures old(owner).Some? || old(value) > 0
      ensures View() == S.Take(old(View()), t, time).0 && o == S.Take(old(View()), t, time).1
    {
      hide K.BitsInOrder, Inv, Placed, Shape, Boost, Enter;
      InvShape(View());
      TakeExactly(View(), t, time);
      OwnerOrValue(View());
      if owner == Some(t) || value > 0 {
        Acquire(t);
        return Returned(EOK);
      }
      if time == 0 {
        k.SetError(t, ETIMEOUT);
        return Returned(ETIMEOUT);
      }
      Wait(t, time);
      return Blocked;
    }

    lemma OwnerOrValue(m: S.Mutex)
      requires Inv(m)
      ensures m.owner.Some? ==> m.value == 0 && 0 < m.hold < HOLD_LIMIT
      ensures m.owner.None? ==> m.value == 1
    {
      hide CoreInv, Ranks, Sorted, Given;
    }

    /** A waiting thread goes on after rt_schedule. */
    method Continue(t: Tid) returns (o: Outcome)
      requires Valid() && t in k.tcb && k.tcb[t].stat == Ready && t in calls
      modifies this`calls
      ensures Valid() && Knows(old(View()), t)
      ensures View() == S.Continue(old(View()), t).0 && o == S.Continue(old(View()), t).1
    {
      hide K.BitsInOrder, Inv, Placed, Shape;
      InvShape(View());
      ContinueKeeps(View(), t);
      calls := calls - {t};
      o := Returned(k.tcb[t].error);
    }

    /** The mutex goes to the first waiting thread or becomes free. */
    method PassOn()
      requires k.Valid() && |k.wait| == 1
      modifies this, k`tcb, k`attr, k`wait, k.rq
      ensures k.Valid() && InRange(old(k.View()), old(k.wait[WAITERS]))
      ensures View() == HandOff(old(View()))
    {
      hide K.BitsInOrder, Placed, Threads.WakeFirst;
      PlacedRanges(k.View());
      if k.wait[WAITERS] != [] {
        var t := k.wait[WAITERS][0];
        assert t in k.wait[WAITERS];
        owner := Some(t);
        original := k.tcb[t].prio;
        hold := Up(hold);
        takes := takes + 1;
        k.WakeFirst(WAITERS);
      } else {
        value := value + 1;
        owner := None;
        original := NO_PRIORITY;
      }
    }

    /** rt_mutex_release up to its rt_schedule */
    method Release(t: Tid) returns (o: Outcome)
      requires Valid() && t in k.tcb && k.tcb[t].stat == Ready && t !in calls
      modifies this, k`tcb, k`attr, k`wait, k.rq
      ensures Valid() && Shape(old(View())) && Knows(old(View()), t)
      ensures View() == S.Release(old(View()), t).0 && o == S.Release(old(View()), t).1
    {
      hide K.BitsInOrder, Inv, Placed, HandOff, ChangePriority, InRange;
      InvShape(View());
      ReleaseKeeps(View(), t);
      if owner != Some(t) {
        k.SetError(t, ERROR);
        return Returned(ERROR);
      }
      hold := Down(hold);
      takes := takes - 1;
      if hold == 0 {
        SetPriorityRange(View().core, t, original);
        if original != k.tcb[t].prio {
          k.ChangePriority(t, original);
        }
        PassOn();
      }
      return Returned(EOK);
    }

    /** rt_thread_resume on any suspended thread: the object stays valid exactly when the thread does
        not wait for this mutex. */
    method Rouse(t: Tid)
      requires Valid() && t in k.tcb && k.tcb[t].stat == Suspended
      modifies k`tcb, k`attr, k`wait, k.rq
      ensures k.Valid() && Knows(old(View()), t) && (Valid() <==> t !in calls)
      ensures View() == old(View()).(core := Waiters.Rouse(old(View()).core, t))
    {
      hide K.BitsInOrder, Inv, Placed, Shape;
      InvShape(View());
      RouseExactly(View(), t);
      k.Resume(t);
    }

    /** The timer of a waiting thread fires. */
    method Expire(t: Tid)
      requires Valid() && t in k.tcb && k.tcb[t].armed
      modifies k`tcb, k`attr, k`wait, k.rq
      ensures Valid() && Knows(old(View()), t)
      ensures View() == old(View()).(core := Waiters.Expire(old(View()).core, t))
    {
      hide K.BitsInOrder, Inv, Placed;
      MutexExpireKeeps(View(), t);
      k.Timeout(t);
    }
  }
}
