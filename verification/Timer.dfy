/** Every timer fires at its tick, in order, across the wrap of the tick counter. */
module TimerLemmas {
  import opened Base
  import opened Threads
  import opened TimerSpec

  // ---- Wrapped and true time -----------------------------------------------------------------

  /** As long as two times are less than half a tick range apart, the unsigned comparison of their
      wrapped values decides which is first. */
  lemma WrappedOrder(a: int, b: int)
    requires -HALF - 1 <= a - b < HALF
    ensures NotBefore(a % TICKS, b % TICKS) <==> a >= b
  {
    assert (a % TICKS - b % TICKS) % TICKS == (a - b) % TICKS;
  }

  /** Of the differences a signed 32-bit number can hold, the comparison is wrong for exactly one: a time that
      has passed 0x7FFFFFFF ticks ago counts as one to come. */
  lemma WrappedExactly(a: int, b: int)
    requires -(TICKS / 2) <= a - b < TICKS / 2
    ensures (NotBefore(a % TICKS, b % TICKS) <==> a >= b) <==> a - b != HALF
  {
    assert (a % TICKS - b % TICKS) % TICKS == (a - b) % TICKS;
  }

  lemma WrapSum(tick: int, now: int, k: int)
    requires tick == now % TICKS
    ensures (tick + k) % TICKS == (now + k) % TICKS
  {}

  // ---- The invariant -------------------------------------------------------------------------

  ghost predicate TimersOk(timers: map<nat, Timer>) {
    forall id :: id in timers ==> 0 <= timers[id].init < HALF && (timers[id].periodic ==> timers[id].init > 0)
  }

  /** Armed for 0 ticks between two ticks, when the check of this tick is over already. */
  predicate Late(p: Plan) {
    p.since == p.due && !p.inside
  }

  /** Timer id of the list: activated, with the wrapped due time, not overdue by more than the one
      tick a late timer may have, and less than half a range ahead. */
  ghost predicate Pending(timers: map<nat, Timer>, plan: map<nat, Plan>, now: int, id: nat) {
    && id in timers && timers[id].active && id in plan
    && timers[id].timeout == plan[id].due % TICKS
    && plan[id].since <= plan[id].due < now + HALF && plan[id].since <= now
    && (now <= plan[id].due || (Late(plan[id]) && now == plan[id].due + 1))
  }

  /** All members of the list are pending, all activated timers but the one being fired are in it. */
  ghost predicate Listed(timers: map<nat, Timer>, plan: map<nat, Plan>, now: int, l: seq<nat>, fired: Option<nat>) {
    && NoDup(l) && (forall id :: id in l ==> Pending(timers, plan, now, id))
    && (forall id :: id in timers && timers[id].active && id !in l ==> fired == Some(id))
  }

  /** Due earlier, or at the same tick and armed later. */
  predicate Ahead(p: Plan, q: Plan) {
    p.due < q.due || (p.due == q.due && p.no > q.no)
  }

  ghost predicate InOrder(plan: map<nat, Plan>, l: seq<nat>) {
    && (forall id :: id in l ==> id in plan)
    && forall i, j :: 0 <= i < j < |l| ==> Ahead(plan[l[i]], plan[l[j]])
  }

  /** A timer armed at tick s for k ticks fires at tick s + k; with k == 0 between two ticks it fires
      at tick s + 1. */
  predicate OnTime(e: Event) {
    e.Fired? ==> e.at == (if Late(e.plan) then e.plan.due + 1 else e.plan.due)
  }

  /** The last event about a timer. */
  function Last(log: seq<Event>, id: nat): Option<Event>
    decreases |log|
  {
    if log == [] then None
    else if log[|log| - 1].id == id then Some(log[|log| - 1])
    else Last(log[..|log| - 1], id)
  }

  /** Exactly the timers of the list are armed and neither fired nor stopped since; their plans say
      when that was. */
  ghost predicate LogOk(s: Wheel) {
    && (forall i :: 0 <= i < |s.log| ==> OnTime(s.log[i]))
    && (forall id :: id in s.list && id in s.plan ==> Last(s.log, id) == Some(Armed(id, s.plan[id])))
    && (forall id :: id !in s.list ==> !ArmedLast(s.log, id))
    && (forall id :: id in s.plan ==> s.plan[id].no < |s.log| && s.log[s.plan[id].no] == Armed(id, s.plan[id]))
  }

  ghost predicate ArmedLast(log: seq<Event>, id: nat) {
    Last(log, id).Some? && Last(log, id).value.Armed?
  }

  ghost predicate Good(s: Wheel, fired: Option<nat>) {
    && s.tick == s.now % TICKS && TimersOk(s.timers)
    && Listed(s.timers, s.plan, s.now, s.list, fired) && InOrder(s.plan, s.list) && LogOk(s)
  }

  /** Between two ticks nothing is overdue; only a timer armed with 0 in this tick is due. */
  ghost predicate Between(s: Wheel) {
    && Good(s, None) && !s.checking
    && forall id :: id in s.list && id in s.plan ==>
         s.now < s.plan[id].due || (Late(s.plan[id]) && s.plan[id].due == s.now)
  }

  lemma GoodShape(s: Wheel, fired: Option<nat>)
    requires Good(s, fired)
    ensures Shape(s) && forall id :: id in s.list ==> id in s.plan
  {
    hide NoDup, InOrder, LogOk, TimersOk;
  }

  // ---- The log -------------------------------------------------------------------------------

  lemma LastOwn(log: seq<Event>, e: Event)
    ensures Last(log + [e], e.id) == Some(e)
  {}

  lemma LastOther(log: seq<Event>, e: Event, id: nat)
    requires e.id != id
    ensures Last(log + [e], id) == Last(log, id)
  {
    assert (log + [e])[..|log|] == log;
  }

  /** An event about x, after which x is in the list exactly if it was armed. */
  lemma LogStep(s: Wheel, s': Wheel, e: Event)
    requires LogOk(s) && s'.log == s.log + [e] && OnTime(e)
    requires forall id :: id != e.id ==> (id in s'.list <==> id in s.list)
    requires forall id :: (id != e.id || !e.Armed?) && id in s'.plan ==> id in s.plan && s'.plan[id] == s.plan[id]
    requires e.Armed? ==> e.id in s'.plan && s'.plan[e.id] == e.plan && e.id in s'.list && e.plan.no == |s.log|
    requires !e.Armed? ==> e.id !in s'.list
    ensures LogOk(s')
  {
    hide OnTime, Last;
    LastOwn(s.log, e);
    forall i | 0 <= i < |s'.log| ensures OnTime(s'.log[i]) {
      if i < |s.log| { assert s'.log[i] == s.log[i]; }
    }
    forall id | id in s'.list && id in s'.plan ensures Last(s'.log, id) == Some(Armed(id, s'.plan[id])) {
      if id != e.id { LastOther(s.log, e, id); }
    }
    forall id | id !in s'.list ensures !ArmedLast(s'.log, id) {
      if id != e.id {
        LastOther(s.log, e, id);
        assert !ArmedLast(s.log, id);
      }
    }
  }

  lemma PlansPast(s: Wheel)
    requires LogOk(s)
    ensures forall id :: id in s.plan ==> s.plan[id].no < |s.log|
  {
    hide OnTime, Last;
  }

  // ---- Arming --------------------------------------------------------------------------------

  lemma PlaceSplits(timers: map<nat, Timer>, plan: map<nat, Plan>, now: int, l: seq<nat>, due: int)
    requires Known(timers, l) && InOrder(plan, l) && forall id :: id in l ==> Pending(timers, plan, now, id)
    requires now <= due < now + HALF
    ensures var n := Place(timers, l, due % TICKS);
      && (forall i :: 0 <= i < n ==> plan[l[i]].due < due)
      && (forall i :: n <= i < |l| ==> due <= plan[l[i]].due)
    decreases |l|
  {
    if l != [] {
      assert l[0] in l;
      WrappedOrder(plan[l[0]].due, due);
      hide NotBefore;
      var t := l[1..];
      if plan[l[0]].due < due {
        assert forall i :: 0 <= i < |t| ==> t[i] == l[i + 1] && t[i] in l;
        hide Pending;
        PlaceSplits(timers, plan, now, t, due);
        var n := Place(timers, t, due % TICKS);
        forall i | 0 <= i < |l| ensures i < n + 1 ==> plan[l[i]].due < due
                                ensures i >= n + 1 ==> due <= plan[l[i]].due {
          if i > 0 { assert l[i] == t[i - 1]; }
        }
      }
    }
  }

  lemma OrderInsert(plan: map<nat, Plan>, l: seq<nat>, n: nat, id: nat, p: Plan)
    requires InOrder(plan, l) && n <= |l| && id !in l && forall x :: x in plan ==> plan[x].no < p.no
    requires forall i :: 0 <= i < n ==> plan[l[i]].due < p.due
    requires forall i :: n <= i < |l| ==> p.due <= plan[l[i]].due
    ensures InOrder(plan[id := p], Insert(l, n, id))
  {
    InsertMembers(l, n, id);
    var r, q := Insert(l, n, id), plan[id := p];
    hide Insert;
    InsertAt(l, n, id, 0);
    forall i | 0 <= i < |l| ensures l[i] in l && l[i] != id {}
    forall i, j | 0 <= i < j < |r| ensures Ahead(q[r[i]], q[r[j]]) {
      InsertAt(l, n, id, i);
      InsertAt(l, n, id, j);
    }
  }

  lemma OffList(s: Wheel, id: nat)
    requires Shape(s) && id in s.timers && !s.timers[id].active
    requires forall x :: x in s.list ==> Pending(s.timers, s.plan, s.now, x)
    ensures id !in s.list
  {}

  lemma ArmTimes(s: Wheel, id: nat)
    requires s.tick == s.now % TICKS && TimersOk(s.timers) && Shape(s) && id in s.timers
    ensures var s' := Launch(s, id); var due := s.now + s.timers[id].init;
      && TimersOk(s'.timers) && s'.timers[id].timeout == due % TICKS && s.now <= due < s.now + HALF
      && s'.plan == s.plan[id := Plan(s.now, due, |s.log|, s.checking)]
      && s'.list == Insert(s.list, Place(s.timers, s.list, due % TICKS), id)
      && s'.log == s.log + [Armed(id, s'.plan[id])] && s'.tick == s.tick && s'.now == s.now
  {
    WrapSum(s.tick, s.now, s.timers[id].init);
    hide Insert, Place, NoDup;
  }

  lemma ArmParts(s: Wheel, id: nat)
    requires s.tick == s.now % TICKS && TimersOk(s.timers) && Shape(s) && id in s.timers && id !in s.list
    requires forall x :: x in s.list ==> Pending(s.timers, s.plan, s.now, x)
    requires InOrder(s.plan, s.list) && LogOk(s)
    ensures var s' := Launch(s, id);
      && s'.tick == s'.now % TICKS && TimersOk(s'.timers) && InOrder(s'.plan, s'.list) && LogOk(s')
      && s'.timers[id].timeout == s'.plan[id].due % TICKS
  {
    hide NoDup, LogOk, Insert, Place, Pending, TimersOk, InOrder, Launch;
    ArmTimes(s, id);
    var s', due := Launch(s, id), s.now + s.timers[id].init;
    PlaceSplits(s.timers, s.plan, s.now, s.list, due);
    var n, p := Place(s.timers, s.list, due % TICKS), Plan(s.now, due, |s.log|, s.checking);
    PlansPast(s);
    OrderInsert(s.plan, s.list, n, id, p);
    InsertMembers(s.list, n, id);
    LogStep(s, s', Armed(id, p));
  }

  lemma ArmListed(s: Wheel, id: nat, fired: Option<nat>)
    requires Shape(s) && id in s.timers && id !in s.list && TimersOk(s.timers)
    requires s.tick == s.now % TICKS
    requires Listed(s.timers, s.plan, s.now, s.list, fired)
    ensures var s' := Launch(s, id); Listed(s'.timers, s'.plan, s'.now, s'.list, fired)
  {
    var t, s' := s.timers[id], Launch(s, id);
    WrapSum(s.tick, s.now, t.init);
    assert Pending(s'.timers, s'.plan, s'.now, id);
    var n := Place(s.timers, s.list, s'.timers[id].timeout);
    hide NoDup, Insert, Place, TimersOk;
    InsertNoDup(s.list, n, id);
    forall x | x in s'.list ensures Pending(s'.timers, s'.plan, s'.now, x) {
      assert x != id ==> Pending(s.timers, s.plan, s.now, x);
    }
  }

  /** Launching keeps the list in order, in front of the timers due at the same tick. */
  lemma ArmGood(s: Wheel, id: nat, fired: Option<nat>)
    requires Good(s, fired) && id in s.timers && !s.timers[id].active
    ensures Shape(s) && id !in s.list && Good(Launch(s, id), fired)
  {
    hide NoDup, InOrder, LogOk, Insert, Place, Pending, TimersOk;
    GoodShape(s, fired);
    OffList(s, id);
    ArmParts(s, id);
    ArmListed(s, id, fired);
  }

  lemma LaunchMembers(s: Wheel, id: nat)
    requires Shape(s) && id in s.timers
    ensures forall x :: x in Launch(s, id).list <==> x == id || x in s.list
  {
    InsertMembers(s.list, Place(s.timers, s.list, (s.tick + s.timers[id].init) % TICKS), id);
  }

  // ---- Actions -------------------------------------------------------------------------------

  /** What rt_timer_start asserts, and no period of 0. */
  predicate ActionOk(timers: map<nat, Timer>, a: Action) {
    && a.id in timers
    && (!a.Stop? ==> 0 <= a.k < HALF && (timers[a.id].periodic ==> a.k > 0))
  }

  ghost predicate SameKinds(timers: map<nat, Timer>, timers': map<nat, Timer>) {
    timers'.Keys == timers.Keys && forall id :: id in timers ==> timers'[id].periodic == timers[id].periodic
  }

  lemma ActKinds(s: Wheel, a: Action)
    requires Shape(s) && a.id in s.timers
    ensures SameKinds(s.timers, Act(s, a).timers)
    ensures Act(s, a).now == s.now && Act(s, a).tick == s.tick && Act(s, a).checking == s.checking
  {}

  lemma SetInitGood(s: Wheel, id: nat, k: int, fired: Option<nat>)
    requires Good(s, fired) && ActionOk(s.timers, SetTime(id, k))
    ensures Shape(s) && Good(SetInit(s, id, k), fired)
  {
    hide NoDup, InOrder;
    GoodShape(s, fired);
    var s' := SetInit(s, id, k);
    assert LogOk(s');
    hide LogOk;
    forall x | x in s.list ensures Pending(s'.timers, s'.plan, s'.now, x) {
      assert Pending(s.timers, s.plan, s.now, x);
    }
  }

  lemma {:induction false} OrderWithout(plan: map<nat, Plan>, l: seq<nat>, id: nat)
    requires InOrder(plan, l)
    ensures InOrder(plan, Without(l, id))
    decreases |l|
  {
    if l != [] {
      OrderTail(plan, l);
      OrderWithout(plan, l[1..], id);
      var r := Without(l[1..], id);
      if l[0] != id {
        hide Without;
        OrderCons(plan, l[0], r);
      }
    }
  }

  lemma OrderTail(plan: map<nat, Plan>, l: seq<nat>)
    requires InOrder(plan, l) && l != []
    ensures InOrder(plan, l[1..]) && l[0] in plan
    ensures forall x :: x in l[1..] ==> x in l && Ahead(plan[l[0]], plan[x])
  {
    hide Ahead;
    assert l[0] in l;
    forall x | x in l[1..] ensures x in l && Ahead(plan[l[0]], plan[x]) {
      var i :| 0 <= i < |l[1..]| && l[1..][i] == x;
      assert l[i + 1] == x;
    }
    forall i, j | 0 <= i < j < |l[1..]| ensures Ahead(plan[l[1..][i]], plan[l[1..][j]]) {
      assert l[1..][i] == l[i + 1] && l[1..][j] == l[j + 1];
    }
  }

  lemma OrderCons(plan: map<nat, Plan>, id: nat, l: seq<nat>)
    requires InOrder(plan, l) && id in plan && forall x :: x in l ==> Ahead(plan[id], plan[x])
    ensures InOrder(plan, [id] + l)
  {
    hide Ahead;
    var r := [id] + l;
    forall i, j | 0 <= i < j < |r| ensures Ahead(plan[r[i]], plan[r[j]]) {
      assert r[j] == l[j - 1] && l[j - 1] in l;
      if i > 0 { assert r[i] == l[i - 1]; }
    }
  }

  lemma DisarmListed(s: Wheel, id: nat, fired: Option<nat>)
    requires Listed(s.timers, s.plan, s.now, s.list, fired) && TimersOk(s.timers) && id in s.timers
    ensures var s' := Disarm(s, id);
      TimersOk(s'.timers) && Listed(s'.timers, s'.plan, s'.now, s'.list, fired) && NoDup(s.list)
      && Known(s.timers, s.list)
  {
    var s' := Disarm(s, id);
    hide Without;
    assert NoDup(s'.list);
    hide NoDup;
    forall x | x in s'.list ensures Pending(s'.timers, s'.plan, s'.now, x) {
      assert x != id && Pending(s.timers, s.plan, s.now, x);
    }
  }

  lemma DisarmGood(s: Wheel, id: nat, fired: Option<nat>)
    requires Good(s, fired) && id in s.timers
    ensures Good(Disarm(s, id), fired)
  {
    var s' := Disarm(s, id);
    hide NoDup, InOrder, LogOk, Without, TimersOk, Listed;
    DisarmListed(s, id, fired);
    OrderWithout(s.plan, s.list, id);
    LogStep(s, s', Stopped(id, s.now, s.checking));
  }

  lemma ActGood(s: Wheel, a: Action, fired: Option<nat>)
    requires Good(s, fired) && ActionOk(s.timers, a)
    ensures Shape(s) && Good(Act(s, a), fired)
  {
    hide Good, Launch, Disarm;
    GoodShape(s, fired);
    match a
    case SetTime(id, k) => SetInitGood(s, id, k, fired);
    case Start(id, k) =>
      if !s.timers[id].active {
        SetInitGood(s, id, k, fired);
        ArmGood(SetInit(s, id, k), id, fired);
      }
    case Stop(id) => if s.timers[id].active { DisarmGood(s, id, fired); }
  }

  // ---- What is due ---------------------------------------------------------------------------

  ghost predicate IsDue(s: Wheel, id: nat) {
    id in s.list && id in s.plan && s.plan[id].due <= s.now
  }

  /** Whatever is due during the check is exactly on time. */
  ghost predicate Ripe(s: Wheel) {
    s.checking && forall id :: IsDue(s, id) ==> OnTime(Fired(id, s.plan[id], s.now))
  }

  /** A timer that becomes due by an action has been started with 0 ticks. */
  lemma DueAct(s: Wheel, a: Action, id: nat)
    requires Shape(s) && a.id in s.timers && (!a.Stop? ==> a.k >= 0) && IsDue(Act(s, a), id)
    ensures (IsDue(s, id) && Act(s, a).plan[id] == s.plan[id])
         || (a == Start(id, 0) && Act(s, a).plan[id] == Plan(s.now, s.now, |s.log|, s.checking))
  {
    if a.Start? && !s.timers[a.id].active {
      LaunchMembers(SetInit(s, a.id, a.k), a.id);
      hide Insert, Place;
    }
  }

  lemma RipeAct(s: Wheel, a: Action)
    requires Shape(s) && ActionOk(s.timers, a) && Ripe(s)
    ensures Ripe(Act(s, a))
  {
    ActKinds(s, a);
    hide Act;
    forall id | IsDue(Act(s, a), id) ensures OnTime(Fired(id, Act(s, a).plan[id], s.now)) {
      DueAct(s, a, id);
    }
  }

  ghost predicate ScriptOk(timers: map<nat, Timer>, script: seq<Action>) {
    forall a :: a in script ==> ActionOk(timers, a)
  }

  /** What the fired timer is while its timeout function runs. */
  function MarkOf(s: Wheel, f: nat): Mark
    requires f in s.timers
  {
    Mark(s.timers[f].active, f in s.list)
  }

  lemma OffIfIdle(s: Wheel, f: nat)
    requires Good(s, Some(f)) && f in s.timers && !s.timers[f].active
    ensures f !in s.list
  {
    hide NoDup, InOrder, LogOk, TimersOk;
  }

  lemma OnceListed(s: Wheel, fired: Option<nat>)
    requires Good(s, fired)
    ensures NoDup(s.list)
  {
    hide NoDup, InOrder, LogOk, TimersOk, Pending;
  }

  lemma ActTracks(s: Wheel, a: Action, f: nat)
    requires Good(s, Some(f)) && ActionOk(s.timers, a) && f in s.timers && Shape(s)
    ensures MarkOf(Act(s, a), f) == Track(a, f, MarkOf(s, f))
  {
    hide Good, Place, Insert, Without, NoDup, NotBefore;
    if !s.timers[f].active { OffIfIdle(s, f); }
    OnceListed(s, Some(f));
    if a.Start? { LaunchMembers(SetInit(s, a.id, a.k), a.id); }
  }

  ghost function DueIds(s: Wheel): set<nat> {
    set id | id in s.list && IsDue(s, id)
  }

  /** The timers a timeout function may start with 0 ticks. */
  function ZeroIds(script: seq<Action>): set<nat> {
    set a | a in script && a.Start? && a.k == 0 :: a.id
  }

  lemma DueIdsAct(s: Wheel, a: Action)
    requires Shape(s) && ActionOk(s.timers, a)
    ensures DueIds(Act(s, a)) <= DueIds(s) + (if a.Start? && a.k == 0 then {a.id} else {})
  {
    hide Act, IsDue;
    forall id | id in Act(s, a).list && IsDue(Act(s, a), id)
      ensures IsDue(s, id) || a == Start(id, 0)
    {
      DueAct(s, a, id);
    }
    forall id | IsDue(s, id) ensures id in s.list { DueListed(s, id); }
  }

  lemma DueListed(s: Wheel, id: nat)
    requires IsDue(s, id)
    ensures id in s.list
  {}

  lemma {:induction false} ActAllGood(s: Wheel, script: seq<Action>, f: nat)
    requires Good(s, Some(f)) && Ripe(s) && ScriptOk(s.timers, script) && f in s.timers
    ensures Shape(s) && Names(s.timers, script)
    ensures var s' := ActAll(s, script);
      && Good(s', Some(f)) && Ripe(s') && SameKinds(s.timers, s'.timers) && s'.now == s.now && s'.tick == s.tick
      && MarkOf(s', f) == TrackAll(script, f, MarkOf(s, f)) && DueIds(s') <= DueIds(s) + ZeroIds(script)
    decreases |script|
  {
    hide Good, Act, DueIds, ActionOk, Ripe, Track, MarkOf;
    GoodShape(s, Some(f));
    ScriptNames(s.timers, script);
    if script != [] {
      var a, rest := script[0], script[1..];
      assert a in script && script == [a] + rest;
      ActGood(s, a, Some(f));
      RipeAct(s, a);
      ActTracks(s, a, f);
      DueIdsAct(s, a);
      ActKinds(s, a);
      KindsOk(s.timers, Act(s, a).timers, rest);
      ActAllGood(Act(s, a), rest, f);
      ZeroIdsCons(a, rest);
    }
  }

  lemma ZeroIdsCons(a: Action, rest: seq<Action>)
    ensures ZeroIds([a] + rest) == (if a.Start? && a.k == 0 then {a.id} else {}) + ZeroIds(rest)
  {
    assert forall b :: b in [a] + rest <==> b == a || b in rest;
    forall id ensures id in ZeroIds([a] + rest) <==> (a == Start(id, 0) || id in ZeroIds(rest)) {
      assert id in ZeroIds(rest) ==> Start(id, 0) in rest;
      if id in ZeroIds([a] + rest) { assert Start(id, 0) in [a] + rest; }
      if Start(id, 0) in [a] + rest { assert id in ZeroIds([a] + rest); }
      if Start(id, 0) in rest { assert id in ZeroIds(rest); }
    }
  }

  lemma ScriptNames(timers: map<nat, Timer>, script: seq<Action>)
    requires ScriptOk(timers, script)
    ensures Names(timers, script)
  {}

  lemma KindsOk(timers: map<nat, Timer>, timers': map<nat, Timer>, script: seq<Action>)
    requires SameKinds(timers, timers') && ScriptOk(timers, script)
    ensures ScriptOk(timers', script)
  {
    forall a | a in script ensures ActionOk(timers', a) {
      assert ActionOk(timers, a);
    }
  }

  // ---- Expiry --------------------------------------------------------------------------------

  /** The test of rt_timer_check holds exactly when the head is due. */
  lemma HeadDueIs(s: Wheel)
    requires Good(s, None) && s.list != []
    ensures Shape(s) && s.list[0] in s.plan
    ensures HeadDue(s) <==> s.plan[s.list[0]].due <= s.now
  {
    GoodShape(s, None);
    var id := s.list[0];
    assert id in s.list && Pending(s.timers, s.plan, s.now, id);
    hide NoDup, InOrder, LogOk, TimersOk;
    WrappedOrder(s.now, s.plan[id].due);
  }

  /** When the head is not due nothing is. */
  lemma AllAhead(s: Wheel)
    requires Good(s, None) && Shape(s) && !HeadDue(s)
    ensures forall id :: id in s.list && id in s.plan ==> s.now < s.plan[id].due
  {
    hide Good, HeadDue;
    if s.list != [] {
      HeadDueIs(s);
      assert InOrder(s.plan, s.list) by { GoodOrder(s, None); }
      OrderTail(s.plan, s.list);
      assert forall id :: id in s.list ==> id == s.list[0] || id in s.list[1..];
    }
  }

  lemma GoodOrder(s: Wheel, fired: Option<nat>)
    requires Good(s, fired)
    ensures InOrder(s.plan, s.list)
  {}

  lemma NotChecking(s: Wheel, fired: Option<nat>)
    requires Good(s, fired)
    ensures Good(s.(checking := false), fired)
  {
    hide NoDup, TimersOk, Pending, OnTime, Last, InOrder;
  }

  lemma NothingDue(s: Wheel)
    requires Good(s, None) && Shape(s) && !HeadDue(s)
    ensures DueIds(s) == {} && Between(s.(checking := false))
  {
    hide Good, HeadDue;
    AllAhead(s);
    NotChecking(s, None);
  }

  lemma PopGood(s: Wheel)
    requires Good(s, None) && s.list != [] && s.list[0] in s.plan && s.plan[s.list[0]].due <= s.now && Ripe(s)
    ensures Good(Pop(s), Some(s.list[0])) && s.list[0] in s.timers
    ensures MarkOf(Pop(s), s.list[0]) == Mark(true, false)
  {
    var id, s' := s.list[0], Pop(s);
    assert id in s.list && Pending(s.timers, s.plan, s.now, id);
    assert IsDue(s, id);
    NoDupTail(s.list);
    OrderTail(s.plan, s.list);
    hide NoDup, InOrder, LogOk, TimersOk, OnTime;
    LogStep(s, s', Fired(id, s.plan[id], s.now));
    forall x | x in s'.list ensures Pending(s'.timers, s'.plan, s'.now, x) {}
    forall x | x in s'.timers && s'.timers[x].active && x !in s'.list ensures x == id {
      assert x !in s.list || x == id;
    }
  }

  lemma PopDue(s: Wheel)
    requires NoDup(s.list) && s.list != []
    ensures DueIds(Pop(s)) == DueIds(s) - {s.list[0]} && (Ripe(s) ==> Ripe(Pop(s)))
  {
    NoDupTail(s.list);
    hide NoDup, OnTime;
    forall x ensures IsDue(Pop(s), x) <==> IsDue(s, x) && x != s.list[0] {}
  }

  lemma OffGood(s: Wheel, id: nat)
    requires Good(s, Some(id)) && id in s.timers && id !in s.list
    ensures Good(s.(timers := s.timers[id := s.timers[id].(active := false)]), None)
  {
    var s' := s.(timers := s.timers[id := s.timers[id].(active := false)]);
    assert LogOk(s') && TimersOk(s'.timers);
    hide NoDup, InOrder, LogOk, TimersOk;
    forall x | x in s.list ensures Pending(s'.timers, s'.plan, s'.now, x) {
      assert Pending(s.timers, s.plan, s.now, x);
    }
  }

  lemma PeriodicInit(s: Wheel, fired: Option<nat>, id: nat)
    requires Good(s, fired) && id in s.timers && s.timers[id].periodic
    ensures s.timers[id].init > 0
  {
    hide NoDup, InOrder, LogOk, Listed;
  }

  lemma RenewGood(s: Wheel, id: nat)
    requires Good(s, Some(id)) && Ripe(s) && id in s.timers && id !in s.list
    ensures Shape(s) && Good(Renew(s, id), None) && Ripe(Renew(s, id)) && DueIds(Renew(s, id)) <= DueIds(s)
  {
    hide Good, OnTime, Place, Insert;
    GoodShape(s, Some(id));
    var t := s.timers[id];
    var off := s.(timers := s.timers[id := t.(active := false)]);
    OffGood(s, id);
    if t.periodic && t.active {
      ArmGood(off, id, None);
      LaunchMembers(off, id);
      PeriodicInit(s, Some(id), id);
      forall x | IsDue(Launch(off, id), x) ensures IsDue(s, x) && Launch(off, id).plan[x] == s.plan[x] {
        assert x != id;
      }
    } else {
      forall x | IsDue(off, x) ensures IsDue(s, x) && off.plan[x] == s.plan[x] {}
    }
  }

  lemma NotListedTwice(s: Wheel, fired: Option<nat>)
    requires !NoDup(s.list)
    ensures !Good(s, fired)
  {
    hide NoDup, InOrder, LogOk, TimersOk, Pending;
  }

  lemma NotIdle(s: Wheel, id: nat, fired: Option<nat>)
    requires id in s.list && id in s.timers && !s.timers[id].active
    ensures !Good(s, fired)
  {
    hide NoDup, InOrder, LogOk, TimersOk;
    assert !Pending(s.timers, s.plan, s.now, id);
  }

  /** A fired timer that is in the list again is spoilt by what rt_timer_check does next: it is taken
      for not activated, or put into the list once more. */
  lemma RenewSpoils(s: Wheel, id: nat)
    requires Good(s, Some(id)) && id in s.timers && id in s.list
    ensures Shape(s) && !Good(Renew(s, id), None)
  {
    hide Good, Place, Insert, NoDup;
    GoodShape(s, Some(id));
    var off := s.(timers := s.timers[id := s.timers[id].(active := false)]);
    if s.timers[id].periodic && s.timers[id].active {
      Twice(off.list, Place(off.timers, off.list, (off.tick + off.timers[id].init) % TICKS), id);
      NotListedTwice(Launch(off, id), None);
    } else {
      NotIdle(off, id, None);
    }
  }

  lemma Twice(l: seq<nat>, n: nat, x: nat)
    requires x in l && n <= |l|
    ensures !NoDup(Insert(l, n, x))
  {
    var i :| 0 <= i < |l| && l[i] == x;
    var r := Insert(l, n, x);
    assert r[n] == x && r[if i < n then i else i + 1] == x;
  }

  lemma RenewKinds(s: Wheel, id: nat)
    requires Shape(s) && id in s.timers
    ensures SameKinds(s.timers, Renew(s, id).timers) && Renew(s, id).now == s.now && Renew(s, id).tick == s.tick
  {}

  lemma PopShape(s: Wheel)
    requires Shape(s) && s.list != []
    ensures s.list[0] in s.timers && Pop(s).timers == s.timers && Shape(Pop(s)) && Pop(s).now == s.now
    ensures Pop(s).tick == s.tick
  {
    assert s.list[0] in s.list;
  }

  /** Up to what rt_timer_check does with the fired timer after its timeout function. */
  lemma FiredGood(s: Wheel, scripts: Scripts)
    requires Good(s, None) && Ripe(s) && Shape(s) && HeadDue(s) && NamesAll(s.timers, scripts)
    requires ScriptOk(s.timers, ScriptOf(scripts, s.list[0]))
    ensures Shape(Pop(s)) && s.list[0] in DueIds(s) && Names(Pop(s).timers, ScriptOf(scripts, s.list[0]))
    ensures var id := s.list[0]; var s2 := ActAll(Pop(s), ScriptOf(scripts, id));
      && Good(s2, Some(id)) && Ripe(s2) && id in s2.timers && SameKinds(s.timers, s2.timers) && s2.now == s.now
      && s2.tick == s.tick && (id in s2.list <==> Restarts(ScriptOf(scripts, id), id))
      && DueIds(s2) <= DueIds(s) - {id} + ZeroIds(ScriptOf(scripts, id))
  {
    HeadDueIs(s);
    HeadIsDue(s);
    hide Good, DueIds, HeadDue, ScriptOk, ActAll, Shape, OnTime, Ripe, NoDup, TrackAll;
    OnceListed(s, None);
    PopGood(s);
    PopDue(s);
    PopShape(s);
    ActAllGood(Pop(s), ScriptOf(scripts, s.list[0]), s.list[0]);
  }

  lemma HeadIsDue(s: Wheel)
    requires s.list != [] && s.list[0] in s.plan && s.plan[s.list[0]].due <= s.now
    ensures s.list[0] in DueIds(s)
  {
    assert s.list[0] in s.list;
  }

  /** One round of the loop keeps the timers and the list in order if and only if the timeout function
      does not restart the fired timer itself. */
  lemma FireExactly(s: Wheel, scripts: Scripts)
    requires Good(s, None) && Ripe(s) && Shape(s) && HeadDue(s) && NamesAll(s.timers, scripts)
    requires ScriptOk(s.timers, ScriptOf(scripts, s.list[0]))
    ensures Good(Fire(s, scripts), None) <==> !Restarts(ScriptOf(scripts, s.list[0]), s.list[0])
  {
    hide Good, Ripe, NotBefore, ScriptOk, ActAll, Renew, Restarts, DueIds;
    FiredGood(s, scripts);
    var id := s.list[0];
    var s2 := ActAll(Pop(s), ScriptOf(scripts, id));
    if id in s2.list { RenewSpoils(s2, id); } else { RenewGood(s2, id); }
  }

  ghost predicate ScriptsOk(timers: map<nat, Timer>, scripts: Scripts) {
    forall id :: id in scripts ==> ScriptOk(timers, scripts[id]) && !Restarts(scripts[id], id)
  }

  lemma ScriptsShape(timers: map<nat, Timer>, scripts: Scripts)
    requires ScriptsOk(timers, scripts)
    ensures NamesAll(timers, scripts)
  {
    hide Restarts;
    forall id | id in scripts ensures Names(timers, scripts[id]) {
      ScriptNames(timers, scripts[id]);
    }
  }

  lemma ScriptsKinds(timers: map<nat, Timer>, timers': map<nat, Timer>, scripts: Scripts)
    requires SameKinds(timers, timers') && ScriptsOk(timers, scripts)
    ensures ScriptsOk(timers', scripts)
  {
    hide Restarts;
    forall id | id in scripts ensures ScriptOk(timers', scripts[id]) {
      KindsOk(timers, timers', scripts[id]);
    }
  }

  lemma ScriptOfOk(timers: map<nat, Timer>, scripts: Scripts, id: nat)
    requires ScriptsOk(timers, scripts)
    ensures ScriptOk(timers, ScriptOf(scripts, id)) && !Restarts(ScriptOf(scripts, id), id)
  {
    assert !Restarts([], id);
    hide Restarts;
  }

  lemma FireGood(s: Wheel, scripts: Scripts)
    requires Good(s, None) && Ripe(s) && Shape(s) && HeadDue(s) && ScriptsOk(s.timers, scripts)
    ensures NamesAll(s.timers, scripts)
    ensures var s' := Fire(s, scripts);
      && Good(s', None) && Ripe(s') && ScriptsOk(s'.timers, scripts) && s'.now == s.now && s'.tick == s.tick
      && s'.timers.Keys == s.timers.Keys && s.list[0] in DueIds(s)
      && DueIds(s') <= DueIds(s) - {s.list[0]} + ZeroIds(ScriptOf(scripts, s.list[0])) && s.list[0] !in DueIds(s')
  {
    hide Good, Ripe, NotBefore, ScriptOk, ActAll, Renew, Restarts, DueIds, ScriptsOk, ScriptOf;
    ScriptsShape(s.timers, scripts);
    var id := s.list[0];
    ScriptOfOk(s.timers, scripts, id);
    FiredGood(s, scripts);
    var s2 := ActAll(Pop(s), ScriptOf(scripts, id));
    RenewGood(s2, id);
    NotDue(s2, id);
    RenewKinds(s2, id);
    ScriptsKinds(s.timers, s2.timers, scripts);
    ScriptsKinds(s2.timers, Renew(s2, id).timers, scripts);
  }

  lemma NotDue(s: Wheel, id: nat)
    requires id !in s.list
    ensures id !in DueIds(s)
  {}

  // ---- The tick ------------------------------------------------------------------------------

  /** If rt_timer_check returns, nothing is due when it does. */
  lemma {:induction false} CheckGood(s: Wheel, scripts: Scripts, n: nat)
    requires Good(s, None) && Ripe(s) && ScriptsOk(s.timers, scripts) && Shape(s) && NamesAll(s.timers, scripts)
    requires EndsIn(s, scripts, n)
    ensures var r := Rounds(s, scripts, n);
      && Good(r, None) && DueIds(r) == {} && Between(r.(checking := false)) && !HeadDue(r)
      && r.now == s.now && r.tick == s.tick
    decreases n
  {
    hide Good, Ripe, NotBefore, ScriptsOk, Fire, Between, DueIds;
    if HeadDue(s) {
      FireGood(s, scripts);
      CheckGood(Fire(s, scripts), scripts, n - 1);
    } else {
      NothingDue(s);
    }
  }

  lemma AdvanceGood(s: Wheel)
    requires Between(s)
    ensures Good(Advance(s), None) && Ripe(Advance(s)) && Shape(s) && Shape(Advance(s))
  {
    var s' := Advance(s);
    assert s'.tick == s'.now % TICKS && LogOk(s');
    hide NoDup, InOrder, LogOk, TimersOk;
    forall x | x in s.list ensures Pending(s'.timers, s'.plan, s'.now, x) {
      assert Pending(s.timers, s.plan, s.now, x);
    }
  }

  // ---- Over every run ------------------------------------------------------------------------

  /** A tick whose rt_timer_check returns after the given number of rounds. */
  datatype Step = DoAct(a: Action) | DoTick(scripts: Scripts, rounds: nat)

  ghost predicate Enabled(s: Wheel, step: Step) {
    && Shape(s)
    && match step
       case DoAct(a) => ActionOk(s.timers, a)
       case DoTick(scripts, n) =>
         ScriptsOk(s.timers, scripts) && NamesAll(s.timers, scripts) && EndsIn(Advance(s), scripts, n)
  }

  ghost function Next(s: Wheel, step: Step): Wheel
    requires Enabled(s, step)
  {
    match step
    case DoAct(a) => Act(s, a)
    case DoTick(scripts, n) => Rounds(Advance(s), scripts, n).(checking := false)
  }

  lemma ArmBetween(s: Wheel, id: nat)
    requires Between(s) && id in s.timers && !s.timers[id].active && s.timers[id].init >= 0
    ensures Shape(s) && Between(Launch(s, id))
  {
    hide Good, Insert, Place;
    GoodShape(s, None);
    ArmGood(s, id, None);
    LaunchMembers(s, id);
  }

  lemma SetInitBetween(s: Wheel, id: nat, k: int)
    requires Between(s) && ActionOk(s.timers, SetTime(id, k))
    ensures Between(SetInit(s, id, k))
  {
    hide Good;
    SetInitGood(s, id, k, None);
  }

  lemma DisarmBetween(s: Wheel, id: nat)
    requires Between(s) && id in s.timers
    ensures Between(Disarm(s, id))
  {
    hide Good, Without;
    DisarmGood(s, id, None);
  }

  lemma ActBetween(s: Wheel, a: Action)
    requires Between(s) && ActionOk(s.timers, a)
    ensures Shape(s) && Between(Act(s, a))
  {
    hide Between, Launch, Disarm, Good;
    BetweenShape(s);
    match a {
      case SetTime(id, k) => SetInitBetween(s, id, k);
      case Start(id, k) =>
        if !s.timers[id].active {
          SetInitBetween(s, id, k);
          ArmBetween(SetInit(s, id, k), id);
        }
      case Stop(id) => if s.timers[id].active { DisarmBetween(s, id); }
    }
  }

  lemma NextKeeps(s: Wheel, step: Step)
    requires Between(s) && Enabled(s, step)
    ensures Between(Next(s, step))
  {
    hide Between, Act, Rounds, Advance, Good, ScriptsOk, Ripe, HeadDue;
    match step
    case DoAct(a) => ActBetween(s, a);
    case DoTick(scripts, n) =>
      AdvanceGood(s);
      AdvanceKinds(s);
      CheckGood(Advance(s), scripts, n);
  }

  lemma AdvanceKinds(s: Wheel)
    ensures Advance(s).timers == s.timers
  {}

  lemma BetweenShape(s: Wheel)
    requires Between(s)
    ensures Shape(s) && Good(s, None)
  {
    GoodShape(s, None);
  }

  ghost predicate EnabledRun(s: Wheel, steps: seq<Step>)
    decreases |steps|
  {
    steps == [] || (Enabled(s, steps[0]) && EnabledRun(Next(s, steps[0]), steps[1..]))
  }

  ghost function Run(s: Wheel, steps: seq<Step>): Wheel
    requires EnabledRun(s, steps)
    decreases |steps|
  {
    if steps == [] then s else Run(Next(s, steps[0]), steps[1..])
  }

  lemma {:induction false} RunKeeps(s: Wheel, steps: seq<Step>)
    requires Between(s) && EnabledRun(s, steps)
    ensures Between(Run(s, steps))
    decreases |steps|
  {
    hide Between, Next, Enabled;
    if steps != [] {
      NextKeeps(s, steps[0]);
      RunKeeps(Next(s, steps[0]), steps[1..]);
    }
  }

  /** No timer started yet, at any tick. */
  function Create(timers: map<nat, Timer>, now: int): Wheel {
    Wheel(now % TICKS, timers, [], now, map[], [], false)
  }

  lemma CreateBetween(timers: map<nat, Timer>, now: int)
    requires TimersOk(timers) && forall id :: id in timers ==> !timers[id].active
    ensures Between(Create(timers, now))
  {}

  /** Over every run from every start tick: every timer that ever fired did so exactly at its tick, and
      a timer that was armed and neither fired nor stopped since is not due yet. */
  lemma EveryTimerOnTime(timers: map<nat, Timer>, now: int, steps: seq<Step>)
    requires TimersOk(timers) && forall id :: id in timers ==> !timers[id].active
    requires EnabledRun(Create(timers, now), steps)
    ensures var s := Run(Create(timers, now), steps);
      && (forall i :: 0 <= i < |s.log| ==> OnTime(s.log[i]))
      && (forall id :: ArmedLast(s.log, id) ==>
            var p := Last(s.log, id).value.plan; s.now < p.due || (Late(p) && p.due == s.now))
  {
    hide Create, Run, EnabledRun, Between;
    CreateBetween(timers, now);
    RunKeeps(Create(timers, now), steps);
    BetweenFacts(Run(Create(timers, now), steps));
  }

  lemma BetweenFacts(s: Wheel)
    requires Between(s)
    ensures forall i :: 0 <= i < |s.log| ==> OnTime(s.log[i])
    ensures forall id :: ArmedLast(s.log, id) ==>
      (var p := Last(s.log, id).value.plan; s.now < p.due || (Late(p) && p.due == s.now))
  {
    GoodShape(s, None);
    hide NoDup, InOrder, TimersOk, Pending, OnTime, Last, Late;
    forall id | ArmedLast(s.log, id)
      ensures var p := Last(s.log, id).value.plan; s.now < p.due || (Late(p) && p.due == s.now)
    {
      assert id in s.list;
    }
  }

  /** Over every run the list is in the order of the due times, and timers due at the same tick stand
      in it newest first. */
  lemma NewestFirst(timers: map<nat, Timer>, now: int, steps: seq<Step>, i: nat, j: nat)
    requires TimersOk(timers) && forall id :: id in timers ==> !timers[id].active
    requires EnabledRun(Create(timers, now), steps) && i < j < |Run(Create(timers, now), steps).list|
    ensures var s := Run(Create(timers, now), steps);
      && s.list[i] in s.plan && s.list[j] in s.plan
      && var p, q := s.plan[s.list[i]], s.plan[s.list[j]];
      && p.no < |s.log| && s.log[p.no] == Armed(s.list[i], p) && q.no < |s.log| && s.log[q.no] == Armed(s.list[j], q)
      && p.due <= q.due && (p.due == q.due ==> p.no > q.no)
  {
    hide Create, Run, EnabledRun, Between;
    CreateBetween(timers, now);
    RunKeeps(Create(timers, now), steps);
    OrderFacts(Run(Create(timers, now), steps), i, j);
  }

  lemma OrderFacts(s: Wheel, i: nat, j: nat)
    requires Between(s) && i < j < |s.list|
    ensures s.list[i] in s.plan && s.list[j] in s.plan
    ensures var p, q := s.plan[s.list[i]], s.plan[s.list[j]];
      && p.no < |s.log| && s.log[p.no] == Armed(s.list[i], p) && q.no < |s.log| && s.log[q.no] == Armed(s.list[j], q)
      && p.due <= q.due && (p.due == q.due ==> p.no > q.no)
  {
    assert s.list[i] in s.list && s.list[j] in s.list;
    hide NoDup, TimersOk, Pending, OnTime, Last, Late;
  }

  /** A timer started with 0 ticks between two ticks fires at the next one. */
  lemma ZeroTicksLate(now: int)
    ensures var s0 := Create(map[0 := Timer(0, 0, false, false)], now);
      && Enabled(s0, DoAct(Start(0, 0)))
      && var s1 := Next(s0, DoAct(Start(0, 0)));
      && Enabled(s1, DoTick(map[], 1))
      && var p := Plan(now, now, 0, false);
         Next(s1, DoTick(map[], 1)).log == [Armed(0, p), Fired(0, p, now + 1)]
  {
    var s0 := Create(map[0 := Timer(0, 0, false, false)], now);
    var s1 := Next(s0, DoAct(Start(0, 0)));
    assert s1.list == [0] && s1.timers[0].timeout == now % TICKS;
    assert s1.log == [Armed(0, Plan(now, now, 0, false))];
    var a := Advance(s1);
    assert (a.tick - now % TICKS) % TICKS == 1;
    assert HeadDue(a);
    var f := Fire(a, map[]);
    assert f.list == [];
    assert Rounds(a, map[], 1) == Rounds(f, map[], 0);
  }
}

/** rt_timer_list, rt_tick and the timers, updated in place. */
module TimerList {
  import opened Base
  import opened Threads
  import opened TimerSpec
  import opened TimerLemmas

  /** One round of the search of rt_timer_start. */
  lemma PlaceStep(timers: map<nat, Timer>, l: seq<nat>, timeout: int, n: nat)
    requires Known(timers, l) && n < |l| && !NotBefore(timers[l[n]].timeout, timeout)
    requires n + Place(timers, l[n..], timeout) == Place(timers, l, timeout)
    ensures n + 1 + Place(timers, l[n + 1..], timeout) == Place(timers, l, timeout)
  {
    assert l[n..][1..] == l[n + 1..];
    hide NotBefore;
  }

  lemma PlaceFound(timers: map<nat, Timer>, l: seq<nat>, timeout: int, n: nat)
    requires Known(timers, l) && n <= |l|
    requires n == |l| || NotBefore(timers[l[n]].timeout, timeout)
    requires n + Place(timers, l[n..], timeout) == Place(timers, l, timeout)
    ensures n == Place(timers, l, timeout)
  {
    hide NotBefore;
  }

  lemma ActAllStep(s: Wheel, script: seq<Action>, i: nat)
    requires Shape(s) && Names(s.timers, script) && i < |script|
    ensures script[i] in script && Names(s.timers, script[i..])
    ensures Names(Act(s, script[i]).timers, script[i + 1..])
    ensures ActAll(s, script[i..]) == ActAll(Act(s, script[i]), script[i + 1..])
  {
    assert script[i..][0] == script[i] && script[i..][1..] == script[i + 1..];
    hide Act;
  }

  class TimerList {
    var tick: int
    var timers: map<nat, Timer>
    var list: seq<nat>
    ghost var now: int
    ghost var plan: map<nat, Plan>
    ghost var log: seq<Event>
    ghost var checking: bool

    ghost function View(): Wheel
      reads this
    {
      Wheel(tick, timers, list, now, plan, log, checking)
    }

    ghost predicate Valid()
      reads this
    {
      Between(View())
    }

    /** Timers that rt_timer_init has set up, none of them started, at any tick. */
    constructor (initial: map<nat, Timer>, ghost time: int, t: int)
      requires TimersOk(initial) && (forall id :: id in initial ==> !initial[id].active) && t == time % TICKS
      ensures Valid() && View() == Create(initial, time)
    {
      tick, timers, list, now, plan, log, checking := t, initial, [], time, map[], [], false;
      new;
      CreateBetween(initial, time);
    }

    /** rt_timer_control with RT_TIMER_CTRL_SET_TIME */
    method SetTime(id: nat, k: int)
      requires id in timers
      modifies this`timers
      ensures View() == SetInit(old(View()), id, k)
    {
      timers := timers[id := timers[id].(init := k)];
    }

    /** rt_timer_start on the hard timer list */
    method Start(id: nat) returns (ok: bool)
      requires Shape(View()) && id in timers
      modifies this
      ensures ok == !old(timers[id].active)
      ensures View() == (if ok then Launch(old(View()), id) else old(View())) && Shape(View())
    {
      if timers[id].active {
        return false;
      }
      var timeout := (tick + timers[id].init) % TICKS;
      var n := Search(timeout);
      plan := plan[id := Plan(now, now + timers[id].init, |log|, checking)];
      log := log + [Armed(id, plan[id])];
      timers := timers[id := timers[id].(timeout := timeout, active := true)];
      assert forall x :: x in Insert(list, n, id) ==> x == id || x in list;
      list := Insert(list, n, id);
      return true;
    }

    /** The loop of rt_timer_start */
    method Search(timeout: int) returns (n: nat)
      requires Shape(View())
      ensures n == Place(timers, list, timeout)
    {
      hide NotBefore;
      n := 0;
      assert list[0..] == list;
      while n < |list| && !NotBefore(timers[list[n]].timeout, timeout)
        invariant n <= |list| && n + Place(timers, list[n..], timeout) == Place(timers, list, timeout)
      {
        PlaceStep(timers, list, timeout, n);
        n := n + 1;
      }
      PlaceFound(timers, list, timeout, n);
    }

    /** rt_timer_stop */
    method Stop(id: nat) returns (ok: bool)
      requires id in timers
      modifies this
      ensures ok == old(timers[id].active)
      ensures View() == if ok then Disarm(old(View()), id) else old(View())
    {
      if !timers[id].active {
        return false;
      }
      timers := timers[id := timers[id].(active := false)];
      list := Without(list, id);
      log := log + [Stopped(id, now, checking)];
      return true;
    }

    method Perform(a: Action)
      requires Shape(View()) && a.id in timers
      modifies this
      ensures View() == Act(old(View()), a) && Shape(View()) && timers.Keys == old(timers.Keys)
    {
      hide Place;
      match a {
        case SetTime(id, k) =>
          SetTime(id, k);
        case Start(id, k) =>
          if !timers[id].active {
            SetTime(id, k);
            var ok := Start(id);
          }
        case Stop(id) =>
          var ok := Stop(id);
      }
    }

    /** What threads and interrupt handlers do between two ticks. */
    method Apply(a: Action)
      requires Valid() && ActionOk(timers, a)
      modifies this
      ensures Valid() && Shape(old(View())) && View() == Act(old(View()), a)
    {
      hide Between, Act;
      BetweenShape(View());
      ActBetween(View(), a);
      Perform(a);
    }

    /** A timeout function. */
    method CallBack(script: seq<Action>)
      requires Shape(View()) && Names(timers, script)
      modifies this
      ensures Shape(View()) && timers.Keys == old(timers.Keys)
      ensures View() == ActAll(old(View()), script)
    {
      ghost var s := View();
      var i := 0;
      assert script[0..] == script;
      hide Shape, Act;
      while i < |script|
        invariant i <= |script| && Shape(View()) && Names(timers, script) && Names(timers, script[i..])
        invariant timers.Keys == s.timers.Keys
        invariant ActAll(View(), script[i..]) == ActAll(s, script)
      {
        ActAllStep(View(), script, i);
        Perform(script[i]);
        i := i + 1;
      }
      assert script[i..] == [];
    }

    /** One round of the loop of rt_timer_check. */
    method FireHead(scripts: Scripts)
      requires Shape(View()) && list != [] && NamesAll(timers, scripts)
      modifies this
      ensures Shape(View()) && View() == Fire(old(View()), scripts)
    {
      hide Shape, Launch, ActAll;
      var id := list[0];
      PopShape(View());
      if id in plan { log := log + [Fired(id, plan[id], now)]; }
      list := list[1..];
      assert log == old(log) + (if id in plan then [Fired(id, plan[id], now)] else []);
      assert View() == Pop(old(View()));
      CallBack(if id in scripts then scripts[id] else []);
      var t := timers[id];
      OffShape(View(), id);
      timers := timers[id := t.(active := false)];
      if t.periodic && t.active {
        var ok := Start(id);
      }
    }

    lemma OffShape(s: Wheel, id: nat)
      requires Shape(s) && id in s.timers
      ensures Shape(s.(timers := s.timers[id := s.timers[id].(active := false)]))
    {}

    /** The first n rounds of rt_timer_check, and whether it has returned by then. */
    method CheckAll(scripts: Scripts, n: nat) returns (done: bool)
      requires Shape(View()) && NamesAll(timers, scripts)
      modifies this
      ensures Shape(View()) && View() == UpTo(old(View()), scripts, n)
      ensures done == EndsBy(old(View()), scripts, n)
    {
      hide Fire, HeadDue, Shape, NamesAll;
      ghost var s := View();
      var left: nat := n;
      while list != []
        invariant Shape(View()) && NamesAll(timers, scripts) && left <= n
        invariant UpTo(View(), scripts, left) == UpTo(s, scripts, n)
        invariant EndsBy(View(), scripts, left) == EndsBy(s, scripts, n)
        decreases left
      {
        var due := IsDue();
        if !due {
          return true;
        }
        if left == 0 {
          return false;
        }
        FireHead(scripts);
        SameNames(s.timers, timers, scripts);
        left := left - 1;
      }
      EmptyNotDue(View());
      return true;
    }

    lemma SameNames(before: map<nat, Timer>, after: map<nat, Timer>, scripts: Scripts)
      requires NamesAll(before, scripts) && after.Keys == before.Keys
      ensures NamesAll(after, scripts)
    {}

    lemma EmptyNotDue(s: Wheel)
      requires Shape(s)
      ensures s.list == [] ==> !HeadDue(s)
    {}

    /** The comparison of rt_timer_check. */
    method IsDue() returns (due: bool)
      requires Shape(View()) && list != []
      ensures due == HeadDue(View())
    {
      assert list[0] in list;
      due := NotBefore(tick, timers[list[0]].timeout);
    }

    /** The timer part of rt_tick_increase, up to the first n rounds of its rt_timer_check. */
    method Tick(scripts: Scripts, n: nat) returns (done: bool)
      requires Shape(View()) && NamesAll(timers, scripts)
      modifies this
      ensures Shape(Advance(old(View()))) && done == EndsBy(Advance(old(View())), scripts, n)
      ensures View() == if done then UpTo(Advance(old(View())), scripts, n).(checking := false)
                        else UpTo(Advance(old(View())), scripts, n)
      ensures done && old(Valid()) && ScriptsOk(old(timers), scripts) ==>
        Valid() && exists k: nat :: Enabled(old(View()), DoTick(scripts, k)) && View() == Next(old(View()), DoTick(scripts, k))
    {
      hide Between, Good, Ripe, ScriptsOk, Rounds, EndsIn, EndsBy, UpTo, NamesAll;
      ghost var s := View();
      AdvanceShape(s);
      checking := true;
      tick := (tick + 1) % TICKS;
      now := now + 1;
      done := CheckAll(scripts, n);
      if done {
        checking := false;
        if old(Valid()) && ScriptsOk(s.timers, scripts) { TickDone(s, scripts, n); }
      }
    }

    lemma AdvanceShape(s: Wheel)
      requires Shape(s)
      ensures Shape(Advance(s)) && Advance(s).timers == s.timers
    {}

    /** A check that has returned is a step of the timer list. */
    lemma TickDone(s: Wheel, scripts: Scripts, n: nat)
      requires Between(s) && Shape(s) && ScriptsOk(s.timers, scripts) && NamesAll(s.timers, scripts)
      requires Shape(Advance(s)) && EndsBy(Advance(s), scripts, n)
      ensures var s' := UpTo(Advance(s), scripts, n).(checking := false);
        Between(s') && exists k: nat :: Enabled(s, DoTick(scripts, k)) && s' == Next(s, DoTick(scripts, k))
    {
      hide Between, Good, Ripe, ScriptsOk, Rounds, EndsIn, EndsBy, UpTo, NamesAll, Shape;
      AdvanceGood(s);
      var k := EndsByIs(Advance(s), scripts, n);
      CheckGood(Advance(s), scripts, k);
      assert Enabled(s, DoTick(scripts, k));
    }

    lemma {:induction false} EndsByIs(s: Wheel, scripts: Scripts, n: nat) returns (k: nat)
      requires Shape(s) && NamesAll(s.timers, scripts) && EndsBy(s, scripts, n)
      ensures k <= n && EndsIn(s, scripts, k) && UpTo(s, scripts, n) == Rounds(s, scripts, k)
      decreases n
    {
      hide Fire, NotBefore;
      if HeadDue(s) {
        var m := EndsByIs(Fire(s, scripts), scripts, n - 1);
        k := m + 1;
      } else {
        k := 0;
      }
    }
  }
}
