/** When a timer fires, from the call that started it on (software/src/timer.c:216-414). */
module TimerRuns {
  import opened Base
  import opened Threads
  import opened TimerSpec
  import opened TimerLemmas

  // ---- What one call does --------------------------------------------------------------------

  /** id stands in front of all timers that are due when it is or later, and behind all others. */
  ghost predicate PutBefore(plan: map<nat, Plan>, l: seq<nat>, l': seq<nat>, id: nat, due: int, n: nat) {
    && n <= |l| && l' == l[..n] + [id] + l[n..]
    && (forall i :: 0 <= i < n ==> l[i] in plan && plan[l[i]].due < due)
    && (forall i :: n <= i < |l| ==> l[i] in plan && due <= plan[l[i]].due)
  }

  ghost predicate PutInOrder(plan: map<nat, Plan>, l: seq<nat>, l': seq<nat>, id: nat, due: int) {
    exists n: nat :: PutBefore(plan, l, l', id, due, n)
  }

  /** A timer that is started for k ticks at the present tick. */
  ghost predicate Started(s: Wheel, s': Wheel, id: nat, k: int) {
    && id in s.timers && id in s'.timers
    && s'.timers == s.timers[id := Timer((s.now + k) % TICKS, k, s.timers[id].periodic, true)]
    && PutInOrder(s.plan, s.list, s'.list, id, s.now + k)
    && var p := Plan(s.now, s.now + k, |s.log|, s.checking);
       s' == s.(timers := s'.timers, list := s'.list, plan := s.plan[id := p], log := s.log + [Armed(id, p)])
  }

  /** Setting the time changes the time for the next start and nothing else. */
  lemma SetTimeOutcome(s: Wheel, id: nat, k: int)
    requires Shape(s) && id in s.timers
    ensures Act(s, SetTime(id, k)) == s.(timers := s.timers[id := s.timers[id].(init := k)])
  {}

  /** Starting an activated timer is refused; any other timer is due k ticks from now. */
  lemma StartOutcome(s: Wheel, id: nat, k: int, fired: Option<nat>)
    requires Good(s, fired) && ActionOk(s.timers, Start(id, k))
    ensures Shape(s)
    ensures s.timers[id].active ==> Act(s, Start(id, k)) == s
    ensures !s.timers[id].active ==> Started(s, Act(s, Start(id, k)), id, k)
  {
    hide Good, Launch, PutInOrder, Shape;
    GoodShape(s, fired);
    if !s.timers[id].active {
      var s1 := SetInit(s, id, k);
      SetInitGood(s, id, k, fired);
      LaunchDoes(s1, id, fired);
      GoodShape(s1, fired);
      StartedFrom(s, s1, Launch(s1, id), id, k);
    }
  }

  lemma StartedFrom(s: Wheel, s1: Wheel, s': Wheel, id: nat, k: int)
    requires id in s.timers && !s.timers[id].active && s1 == SetInit(s, id, k)
    requires s'.timers == s1.timers[id := s1.timers[id].(timeout := (s.now + k) % TICKS, active := true)]
    requires PutInOrder(s1.plan, s1.list, s'.list, id, s.now + k)
    requires var p := Plan(s.now, s.now + k, |s.log|, s.checking);
      s' == s1.(timers := s'.timers, list := s'.list, plan := s1.plan[id := p], log := s1.log + [Armed(id, p)])
    ensures Started(s, s', id, k)
  {
    hide PutInOrder;
    var t := Timer((s.now + k) % TICKS, k, s.timers[id].periodic, true);
    assert s'.timers == s.timers[id := t];
  }

  lemma LaunchDoes(s: Wheel, id: nat, fired: Option<nat>)
    requires Good(s, fired) && id in s.timers && !s.timers[id].active
    ensures Shape(s)
    ensures var k, s' := s.timers[id].init, Launch(s, id); var p := Plan(s.now, s.now + k, |s.log|, s.checking);
      && s'.timers == s.timers[id := s.timers[id].(timeout := (s.now + k) % TICKS, active := true)]
      && PutInOrder(s.plan, s.list, s'.list, id, s.now + k)
      && s' == s.(timers := s'.timers, list := s'.list, plan := s.plan[id := p], log := s.log + [Armed(id, p)])
  {
    var due := s.now + s.timers[id].init;
    GoodShape(s, fired);
    AllPending(s, fired);
    hide NoDup, LogOk, Pending, InOrder, Insert, Place;
    ArmTimes(s, id);
    PlaceSplits(s.timers, s.plan, s.now, s.list, due);
    var n := Place(s.timers, s.list, due % TICKS);
    InsertIs(s.list, n, id);
    assert PutBefore(s.plan, s.list, Launch(s, id).list, id, due, n);
  }

  lemma AllPending(s: Wheel, fired: Option<nat>)
    requires Good(s, fired)
    ensures InOrder(s.plan, s.list) && forall x :: x in s.list ==> Pending(s.timers, s.plan, s.now, x)
    ensures forall i :: 0 <= i < |s.list| ==> s.list[i] in s.plan
  {
    hide NoDup, LogOk, TimersOk, Ahead;
    forall i | 0 <= i < |s.list| ensures s.list[i] in s.plan { assert s.list[i] in s.list; }
  }

  lemma InsertIs(l: seq<nat>, n: nat, x: nat)
    requires n <= |l|
    ensures Insert(l, n, x) == l[..n] + [x] + l[n..]
  {}

  /** Stopping takes an activated timer off the list; any other timer is refused. */
  lemma StopOutcome(s: Wheel, id: nat)
    requires Shape(s) && id in s.timers
    ensures var s' := Act(s, Stop(id));
      if !s.timers[id].active then s' == s
      else s' == s.(timers := s.timers[id := s.timers[id].(active := false)], list := Without(s.list, id),
                    log := s.log + [Stopped(id, s.now, s.checking)])
  {}

  /** What rt_timer_check does with a fired timer after its timeout function: a periodic one that is still
      activated is started again for its period, any other one is off. */
  lemma RenewOutcome(s: Wheel, id: nat)
    requires Good(s, Some(id)) && Ripe(s) && id in s.timers && id !in s.list
    ensures Shape(s)
    ensures var t, s' := s.timers[id], Renew(s, id);
      if t.periodic && t.active then Started(s, s', id, t.init)
      else s' == s.(timers := s.timers[id := t.(active := false)])
  {
    hide Good, Launch, PutInOrder, Shape, Ripe;
    GoodShape(s, Some(id));
    var t := s.timers[id];
    if t.periodic && t.active {
      var off := s.(timers := s.timers[id := t.(active := false)]);
      OffGood(s, id);
      LaunchDoes(off, id, None);
      hide Good, Launch;
      assert off.timers[id := off.timers[id].(timeout := (s.now + t.init) % TICKS, active := true)]
          == s.timers[id := t.(timeout := (s.now + t.init) % TICKS, active := true)];
    }
  }

  // ---- One timer at a time -------------------------------------------------------------------

  /** The ticks at which timer id fired, in order. */
  function Fires(log: seq<Event>, id: nat): seq<int>
    decreases |log|
  {
    if log == [] then []
    else
      var last := log[|log| - 1];
      Fires(log[..|log| - 1], id) + (if last.Fired? && last.id == id then [last.at] else [])
  }

  lemma FiresNext(log: seq<Event>, e: Event, id: nat)
    ensures Fires(log + [e], id) == Fires(log, id) + (if e.Fired? && e.id == id then [e.at] else [])
  {
    assert (log + [e])[..|log|] == log;
  }

  /** Nothing about timer id has changed. */
  ghost predicate Same(s: Wheel, s': Wheel, id: nat) {
    && (id in s'.list <==> id in s.list)
    && (id in s'.timers <==> id in s.timers) && (id in s.timers ==> s'.timers[id] == s.timers[id])
    && (id in s'.plan <==> id in s.plan) && (id in s.plan ==> s'.plan[id] == s.plan[id])
    && Fires(s'.log, id) == Fires(s.log, id)
  }

  lemma SameChain(s: Wheel, s1: Wheel, s2: Wheel, id: nat)
    requires Same(s, s1, id) && Same(s1, s2, id)
    ensures Same(s, s2, id)
  {}

  /** Nobody stops timer id or sets its time, and nobody starts it, unless it is periodic. */
  predicate Harmless(a: Action, id: nat, periodic: bool) {
    a.id != id || (periodic && a.Start?)
  }

  /** A periodic timer stays activated, so that starting it again is refused. */
  predicate StaysOn(s: Wheel, id: nat, periodic: bool) {
    periodic ==> id in s.timers && s.timers[id].active
  }

  lemma SameOn(s: Wheel, s': Wheel, id: nat, periodic: bool)
    requires Same(s, s', id) && StaysOn(s, id, periodic)
    ensures StaysOn(s', id, periodic)
  {}

  lemma ActSame(s: Wheel, a: Action, id: nat, periodic: bool)
    requires Shape(s) && a.id in s.timers && Harmless(a, id, periodic) && StaysOn(s, id, periodic)
    ensures Same(s, Act(s, a), id)
  {
    hide Fires, Place, Insert, Without;
    match a
    case SetTime(_, _) =>
    case Start(x, k) =>
      if !s.timers[x].active {
        var s1 := SetInit(s, x, k);
        LaunchMembers(s1, x);
        FiresNext(s.log, Launch(s1, x).log[|s.log|], id);
      }
    case Stop(x) =>
      if s.timers[x].active { FiresNext(s.log, Stopped(x, s.now, s.checking), id); }
  }

  lemma {:induction false} ActAllSame(s: Wheel, script: seq<Action>, id: nat, periodic: bool)
    requires Shape(s) && Names(s.timers, script) && StaysOn(s, id, periodic)
    requires forall a :: a in script ==> Harmless(a, id, periodic)
    ensures Same(s, ActAll(s, script), id)
    decreases |script|
  {
    hide Same, Act, Shape, StaysOn, Harmless;
    if script == [] {
      SameItself(s, id);
    } else {
      assert script[0] in script;
      ActSame(s, script[0], id, periodic);
      SameOn(s, Act(s, script[0]), id, periodic);
      ActAllSame(Act(s, script[0]), script[1..], id, periodic);
      SameChain(s, Act(s, script[0]), ActAll(s, script), id);
    }
  }

  lemma SameItself(s: Wheel, id: nat)
    ensures Same(s, s, id)
  {}

  lemma PopSame(s: Wheel, id: nat)
    requires s.list != [] && s.list[0] != id && NoDup(s.list)
    ensures Same(s, Pop(s), id)
  {
    hide Fires, NoDup;
    assert s.list == [s.list[0]] + s.list[1..];
    if s.list[0] in s.plan { FiresNext(s.log, Fired(s.list[0], s.plan[s.list[0]], s.now), id); }
    else { assert s.log + [] == s.log; }
  }

  lemma RenewSame(s: Wheel, f: nat, id: nat)
    requires Shape(s) && f in s.timers && f != id
    ensures Same(s, Renew(s, f), id)
  {
    hide Fires, Place, Insert;
    var t := s.timers[f];
    if t.periodic && t.active {
      var off := s.(timers := s.timers[f := t.(active := false)]);
      LaunchMembers(off, f);
      FiresNext(s.log, Launch(off, f).log[|s.log|], id);
    }
  }

  /** A started timer with its period or time k that fires at tick `first` unless somebody handles it. */
  ghost predicate Waits(s: Wheel, id: nat, k: int, periodic: bool, first: int) {
    && id in s.list && id in s.timers && id in s.plan
    && s.timers[id].init == k && s.timers[id].periodic == periodic && s.timers[id].active
    && first == if Late(s.plan[id]) then s.plan[id].due + 1 else s.plan[id].due
  }

  ghost predicate Off(s: Wheel, id: nat) {
    id !in s.list && id in s.timers && !s.timers[id].active
  }

  /** After it has fired: a periodic timer waits for its next tick, any other is off. */
  ghost predicate HasFired(s: Wheel, s': Wheel, id: nat, k: int, periodic: bool) {
    && Fires(s'.log, id) == Fires(s.log, id) + [s.now]
    && if periodic then Waits(s', id, k, true, s.now + k) && s'.plan[id].due == s.now + k else Off(s', id)
  }

  /** No timeout function stops timer id or sets its time, or starts it without a period. */
  ghost predicate Spared(scripts: Scripts, id: nat, periodic: bool) {
    forall x, a :: x in scripts && a in scripts[x] ==> Harmless(a, id, periodic)
  }

  lemma SparedScript(scripts: Scripts, x: nat, id: nat, periodic: bool)
    requires Spared(scripts, id, periodic)
    ensures forall a :: a in ScriptOf(scripts, x) ==> Harmless(a, id, periodic)
  {}

  /** A round for another timer. */
  lemma FireOther(s: Wheel, scripts: Scripts, id: nat, periodic: bool)
    requires Shape(s) && s.list != [] && NamesAll(s.timers, scripts) && s.list[0] != id && NoDup(s.list)
    requires Spared(scripts, id, periodic) && StaysOn(s, id, periodic)
    ensures Same(s, Fire(s, scripts), id) && StaysOn(Fire(s, scripts), id, periodic)
  {
    hide Same, ActAll, Renew, NoDup, Spared, Harmless, StaysOn;
    var f, script := s.list[0], ScriptOf(scripts, s.list[0]);
    PopShape(s);
    PopSame(s, id);
    SparedScript(scripts, f, id, periodic);
    assert Names(s.timers, script);
    SameOn(s, Pop(s), id, periodic);
    ActAllSame(Pop(s), script, id, periodic);
    var s2 := ActAll(Pop(s), script);
    RenewSame(s2, f, id);
    SameChain(s, Pop(s), s2, id);
    SameChain(s, s2, Renew(s2, f), id);
    SameOn(s, Fire(s, scripts), id, periodic);
  }

  /** The round for this timer. */
  lemma FireThis(s: Wheel, scripts: Scripts, id: nat, k: int, periodic: bool)
    requires Good(s, None) && Ripe(s) && Shape(s) && HeadDue(s) && ScriptsOk(s.timers, scripts) && Spared(scripts, id, periodic)
    requires s.list[0] == id && id in s.timers && s.timers[id].init == k && s.timers[id].periodic == periodic
    requires periodic ==> k > 0
    ensures NamesAll(s.timers, scripts) && HasFired(s, Fire(s, scripts), id, k, periodic)
  {
    hide Good, Ripe, NotBefore, ScriptOk, ActAll, Renew, Restarts, DueIds, ScriptsOk, ScriptOf, Fires, Spared, Started, Harmless;
    ScriptsShape(s.timers, scripts);
    ScriptOfOk(s.timers, scripts, id);
    FiredGood(s, scripts);
    HeadDueIs(s);
    PopThis(s);
    SparedScript(scripts, id, id, periodic);
    var s1, script := Pop(s), ScriptOf(scripts, id);
    ActAllSame(s1, script, id, periodic);
    var s2 := ActAll(s1, script);
    RenewOutcome(s2, id);
    if periodic { StartedWaits(s2, Renew(s2, id), id, k); }
  }

  lemma PopThis(s: Wheel)
    requires Good(s, None) && s.list != [] && s.list[0] in s.plan
    ensures var id := s.list[0];
      id in s.timers && s.timers[id].active && Pop(s).timers == s.timers && Fires(Pop(s).log, id) == Fires(s.log, id) + [s.now]
  {
    var id := s.list[0];
    assert id in s.list && Pending(s.timers, s.plan, s.now, id);
    FiresNext(s.log, Fired(id, s.plan[id], s.now), id);
    hide Good, Fires;
  }

  lemma InList(plan: map<nat, Plan>, l: seq<nat>, l': seq<nat>, id: nat, due: int)
    requires PutInOrder(plan, l, l', id, due)
    ensures id in l'
  {
    var n: nat :| PutBefore(plan, l, l', id, due, n);
    assert l'[n] == id;
  }

  lemma StartedWaits(s: Wheel, s': Wheel, id: nat, k: int)
    requires Started(s, s', id, k) && k > 0
    ensures Waits(s', id, k, s.timers[id].periodic, s.now + k) && s'.plan[id].due == s.now + k && Fires(s'.log, id) == Fires(s.log, id)
  {
    FiresNext(s.log, s'.log[|s.log|], id);
    hide Fires;
    InList(s.plan, s.list, s'.list, id, s.now + k);
  }

  /** During the check a started timer is due exactly at its tick. */
  lemma DueExactly(s: Wheel, id: nat, k: int, periodic: bool, first: int)
    requires Ripe(s) && Waits(s, id, k, periodic, first)
    ensures IsDue(s, id) <==> first <= s.now
    ensures IsDue(s, id) ==> first == s.now
  {
    hide Shape;
  }

  lemma SameWaits(s: Wheel, s': Wheel, id: nat, k: int, periodic: bool, first: int)
    requires Same(s, s', id) && Waits(s, id, k, periodic, first)
    ensures Waits(s', id, k, periodic, first)
  {}

  lemma SameOff(s: Wheel, s': Wheel, id: nat)
    requires Same(s, s', id) && Off(s, id)
    ensures Off(s', id)
  {}

  lemma HeadIs(s: Wheel)
    requires Good(s, None) && Shape(s) && HeadDue(s)
    ensures s.list != [] && NoDup(s.list) && IsDue(s, s.list[0])
  {
    HeadDueIs(s);
    OnceListed(s, None);
    assert s.list[0] in s.list;
    hide Good, HeadDue;
  }

  /** A timer that is not due, or is off, is left alone by the whole check. */
  lemma {:induction false} CheckOther(s: Wheel, scripts: Scripts, n: nat, id: nat, periodic: bool)
    requires Good(s, None) && Ripe(s) && ScriptsOk(s.timers, scripts) && Shape(s) && NamesAll(s.timers, scripts)
    requires EndsIn(s, scripts, n) && Spared(scripts, id, periodic) && StaysOn(s, id, periodic) && !IsDue(s, id)
    ensures Same(s, Rounds(s, scripts, n), id) && Rounds(s, scripts, n).now == s.now
    decreases n
  {
    hide Good, Ripe, NotBefore, ScriptsOk, Fire, DueIds, Same, Spared, IsDue, StaysOn;
    if HeadDue(s) {
      HeadIs(s);
      FireGood(s, scripts);
      FireOther(s, scripts, id, periodic);
      var s1 := Fire(s, scripts);
      NotDueYet(s, s1, id);
      CheckOther(s1, scripts, n - 1, id, periodic);
      SameChain(s, s1, Rounds(s, scripts, n), id);
    } else {
      SameItself(s, id);
    }
  }

  lemma NotDueYet(s: Wheel, s': Wheel, id: nat)
    requires Same(s, s', id) && !IsDue(s, id) && s'.now == s.now
    ensures !IsDue(s', id)
  {}

  /** A timer that is due fires once in the check. */
  lemma {:induction false} CheckThis(s: Wheel, scripts: Scripts, n: nat, id: nat, k: int, periodic: bool, first: int)
    requires Good(s, None) && Ripe(s) && ScriptsOk(s.timers, scripts) && Shape(s) && NamesAll(s.timers, scripts)
    requires EndsIn(s, scripts, n) && Spared(scripts, id, periodic) && Waits(s, id, k, periodic, first) && IsDue(s, id)
    requires periodic ==> k > 0
    ensures HasFired(s, Rounds(s, scripts, n), id, k, periodic) && Rounds(s, scripts, n).now == s.now
    decreases n
  {
    hide Good, Ripe, NotBefore, ScriptsOk, Fire, DueIds, Same, Spared, IsDue, HasFired, Waits, StaysOn;
    DueHead(s, id);
    HeadIs(s);
    FireGood(s, scripts);
    var s1 := Fire(s, scripts);
    if s.list[0] == id {
      Known(s, id, k, periodic, first);
      FireThis(s, scripts, id, k, periodic);
      FiredOnce(s, s1, id, k, periodic);
      CheckOther(s1, scripts, n - 1, id, periodic);
      StaysFired(s, s1, Rounds(s, scripts, n), id, k, periodic);
    } else {
      WaitsOn(s, id, k, periodic, first);
      FireOther(s, scripts, id, periodic);
      StillDue(s, s1, id, k, periodic, first);
      CheckThis(s1, scripts, n - 1, id, k, periodic, first);
      FiredFrom(s, s1, Rounds(s, scripts, n), id, k, periodic);
    }
  }

  lemma Known(s: Wheel, id: nat, k: int, periodic: bool, first: int)
    requires Waits(s, id, k, periodic, first)
    ensures id in s.timers && s.timers[id].init == k && s.timers[id].periodic == periodic
  {}

  lemma DueHead(s: Wheel, id: nat)
    requires Good(s, None) && Shape(s) && IsDue(s, id)
    ensures HeadDue(s)
  {
    hide Good, HeadDue;
    if !HeadDue(s) { AllAhead(s); }
  }

  lemma FiredOnce(s: Wheel, s1: Wheel, id: nat, k: int, periodic: bool)
    requires HasFired(s, s1, id, k, periodic) && s1.now == s.now && (periodic ==> k > 0)
    ensures !IsDue(s1, id) && StaysOn(s1, id, periodic)
  {
    hide Fires;
  }

  lemma WaitsOn(s: Wheel, id: nat, k: int, periodic: bool, first: int)
    requires Waits(s, id, k, periodic, first)
    ensures StaysOn(s, id, periodic)
  {}

  lemma StaysFired(s: Wheel, s1: Wheel, s2: Wheel, id: nat, k: int, periodic: bool)
    requires HasFired(s, s1, id, k, periodic) && Same(s1, s2, id)
    ensures HasFired(s, s2, id, k, periodic)
  {
    hide Fires;
  }

  lemma StillDue(s: Wheel, s1: Wheel, id: nat, k: int, periodic: bool, first: int)
    requires Same(s, s1, id) && IsDue(s, id) && Waits(s, id, k, periodic, first) && s1.now == s.now
    ensures IsDue(s1, id) && Waits(s1, id, k, periodic, first)
  {
    hide Fires;
  }

  lemma FiredFrom(s: Wheel, s1: Wheel, s2: Wheel, id: nat, k: int, periodic: bool)
    requires Same(s, s1, id) && HasFired(s1, s2, id, k, periodic) && s1.now == s.now
    ensures HasFired(s, s2, id, k, periodic)
  {
    hide Fires;
  }

  // ---- Over every run ------------------------------------------------------------------------

  /** Nobody stops timer id or sets its time in this step, and nobody starts it, unless it is periodic. */
  ghost predicate Untouched(step: Step, id: nat, periodic: bool) {
    match step
    case DoAct(a) => Harmless(a, id, periodic)
    case DoTick(scripts, _) => Spared(scripts, id, periodic)
  }

  function Ticks(steps: seq<Step>): nat {
    if steps == [] then 0 else (if steps[0].DoTick? then 1 else 0) + Ticks(steps[1..])
  }

  /** The ticks first, first + k, first + 2 * k and so on up to now; without a period the first only. */
  function Expected(first: int, k: int, periodic: bool, now: int): seq<int>
    requires periodic ==> k > 0
    decreases now - first
  {
    if first > now then [] else [first] + if periodic then Expected(first + k, k, true, now) else []
  }

  /** What one step does to a timer that waits for tick `first`. */
  ghost predicate Goes(s: Wheel, s': Wheel, id: nat, k: int, periodic: bool, first: int) {
    && (first > s'.now ==> Fires(s'.log, id) == Fires(s.log, id) && Waits(s', id, k, periodic, first))
    && (first <= s'.now ==> first == s'.now && Fires(s'.log, id) == Fires(s.log, id) + [first]
                            && if periodic then Waits(s', id, k, true, first + k) else Off(s', id))
  }

  lemma ActGoes(s: Wheel, a: Action, id: nat, k: int, periodic: bool, first: int)
    requires Between(s) && Enabled(s, DoAct(a)) && Harmless(a, id, periodic)
    requires Waits(s, id, k, periodic, first) && first > s.now
    ensures Act(s, a).now == s.now && Goes(s, Act(s, a), id, k, periodic, first)
  {
    hide Between, Act, Waits, Same, Fires, Harmless, StaysOn;
    WaitsOn(s, id, k, periodic, first);
    ActSame(s, a, id, periodic);
    ActKinds(s, a);
    SameWaits(s, Act(s, a), id, k, periodic, first);
    SameFires(s, Act(s, a), id);
  }

  lemma CheckGoes(a: Wheel, scripts: Scripts, n: nat, id: nat, k: int, periodic: bool, first: int)
    requires Good(a, None) && Ripe(a) && ScriptsOk(a.timers, scripts) && Shape(a) && NamesAll(a.timers, scripts)
    requires EndsIn(a, scripts, n) && Spared(scripts, id, periodic) && Waits(a, id, k, periodic, first) && first >= a.now
    requires periodic ==> k > 0
    ensures Rounds(a, scripts, n).now == a.now && Goes(a, Rounds(a, scripts, n).(checking := false), id, k, periodic, first)
  {
    hide Good, Ripe, Waits, Same, ScriptsOk, Rounds, EndsIn, Spared, HasFired, IsDue, NamesAll, Shape, Fires, StaysOn;
    var r := Rounds(a, scripts, n);
    DueExactly(a, id, k, periodic, first);
    DoneSame(r, id);
    if first > a.now {
      WaitsOn(a, id, k, periodic, first);
      CheckOther(a, scripts, n, id, periodic);
      SameWaits(a, r, id, k, periodic, first);
      SameFires(a, r, id);
      SameWaits(r, r.(checking := false), id, k, periodic, first);
    } else {
      CheckThis(a, scripts, n, id, k, periodic, first);
      FiredDone(a, r, id, k, periodic);
    }
  }

  lemma StepLife(s: Wheel, step: Step, id: nat, k: int, periodic: bool, first: int)
    requires Between(s) && Enabled(s, step) && Untouched(step, id, periodic) && Waits(s, id, k, periodic, first) && first > s.now
    requires periodic ==> k > 0
    ensures Next(s, step).now == s.now + (if step.DoTick? then 1 else 0) && Goes(s, Next(s, step), id, k, periodic, first)
  {
    hide Between, Good, Ripe, Waits, Same, ScriptsOk, Rounds, EndsIn, Spared, Act, Goes, NamesAll, Shape, Fires;
    match step {
      case DoAct(a) => ActGoes(s, a, id, k, periodic, first);
      case DoTick(scripts, n) =>
        AdvanceGood(s);
        AdvanceSame(s, id);
        SameWaits(s, Advance(s), id, k, periodic, first);
        CheckGoes(Advance(s), scripts, n, id, k, periodic, first);
        GoesFrom(s, Advance(s), Next(s, step), id, k, periodic, first);
    }
  }

  lemma GoesFrom(s: Wheel, a: Wheel, s': Wheel, id: nat, k: int, periodic: bool, first: int)
    requires Same(s, a, id) && Goes(a, s', id, k, periodic, first)
    ensures Goes(s, s', id, k, periodic, first)
  {
    hide Waits, Off, Fires;
  }

  lemma SameFires(s: Wheel, s': Wheel, id: nat)
    requires Same(s, s', id)
    ensures Fires(s'.log, id) == Fires(s.log, id)
  {}

  lemma AdvanceSame(s: Wheel, id: nat)
    ensures Same(s, Advance(s), id)
  {}

  lemma DoneSame(s: Wheel, id: nat)
    ensures Same(s, s.(checking := false), id)
  {}

  lemma FiredDone(s: Wheel, r: Wheel, id: nat, k: int, periodic: bool)
    requires HasFired(s, r, id, k, periodic)
    ensures var s' := r.(checking := false);
      && Fires(s'.log, id) == Fires(s.log, id) + [s.now]
      && if periodic then Waits(s', id, k, true, s.now + k) else Off(s', id)
  {
    hide Fires;
  }

  lemma StepOff(s: Wheel, step: Step, id: nat)
    requires Between(s) && Enabled(s, step) && Untouched(step, id, false) && Off(s, id)
    ensures var s' := Next(s, step);
      s'.now == s.now + (if step.DoTick? then 1 else 0) && Fires(s'.log, id) == Fires(s.log, id) && Off(s', id)
  {
    match step {
      case DoAct(a) =>
        hide Between, Act, Same;
        ActSame(s, a, id, false);
        ActKinds(s, a);
        SameOff(s, Act(s, a), id);
        SameFires(s, Act(s, a), id);
      case DoTick(scripts, n) =>
        hide Between, Good, Ripe, Same, ScriptsOk, Rounds, EndsIn, Spared, NamesAll, Shape;
        AdvanceGood(s);
        var a, r := Advance(s), Rounds(Advance(s), scripts, n);
        assert !IsDue(a, id);
        CheckOther(a, scripts, n, id, false);
        AdvanceSame(s, id);
        DoneSame(r, id);
        SameOff(s, a, id);
        SameOff(a, r, id);
        SameOff(r, r.(checking := false), id);
        SameFires(s, a, id);
        SameFires(a, r, id);
    }
  }

  lemma {:induction false} RunOff(s: Wheel, steps: seq<Step>, id: nat)
    requires Between(s) && EnabledRun(s, steps) && Off(s, id) && forall step :: step in steps ==> Untouched(step, id, false)
    ensures var s' := Run(s, steps);
      s'.now == s.now + Ticks(steps) && Fires(s'.log, id) == Fires(s.log, id) && Off(s', id)
    decreases |steps|
  {
    hide Between, Next, Enabled, Off, Untouched, Fires;
    if steps != [] {
      assert steps[0] in steps && forall step :: step in steps[1..] ==> step in steps;
      NextKeeps(s, steps[0]);
      StepOff(s, steps[0], id);
      RunOff(Next(s, steps[0]), steps[1..], id);
    }
  }

  lemma {:induction false} RunWaits(s: Wheel, steps: seq<Step>, id: nat, k: int, periodic: bool, first: int)
    requires Between(s) && EnabledRun(s, steps) && Waits(s, id, k, periodic, first) && first > s.now
    requires (periodic ==> k > 0) && forall step :: step in steps ==> Untouched(step, id, periodic)
    ensures var s' := Run(s, steps);
      && s'.now == s.now + Ticks(steps)
      && Fires(s'.log, id) == Fires(s.log, id) + Expected(first, k, periodic, s'.now)
      && (periodic ==> id in s'.list && id in s'.timers && s'.timers[id].active)
    decreases |steps|
  {
    hide Between, Next, Enabled, Off, Untouched, Fires;
    if steps == [] {
      assert Fires(s.log, id) + [] == Fires(s.log, id);
    } else {
      assert steps[0] in steps && forall step :: step in steps[1..] ==> step in steps;
      NextKeeps(s, steps[0]);
      StepLife(s, steps[0], id, k, periodic, first);
      var s1 := Next(s, steps[0]);
      hide Waits;
      if first > s1.now {
        RunWaits(s1, steps[1..], id, k, periodic, first);
      } else if periodic {
        RunWaits(s1, steps[1..], id, k, true, first + k);
        assert Fires(s.log, id) + [first] + Expected(first + k, k, true, Run(s, steps).now)
            == Fires(s.log, id) + Expected(first, k, true, Run(s, steps).now);
      } else {
        RunOff(s1, steps[1..], id);
      }
    }
  }

  /** Over every run: a timer that is started for k ticks between two ticks fires k ticks later, or at the
      next tick if k is 0, and if it is periodic every k ticks from then on and at no other tick, as long as
      nobody stops it, sets its time or, if it has no period, starts it; a periodic one stays started. */
  lemma FiresAsAsked(timers: map<nat, Timer>, now: int, before: seq<Step>, id: nat, k: int, after: seq<Step>)
    requires TimersOk(timers) && (forall x :: x in timers ==> !timers[x].active) && EnabledRun(Create(timers, now), before)
    requires var s := Run(Create(timers, now), before);
      && Enabled(s, DoAct(Start(id, k))) && !s.timers[id].active && EnabledRun(Next(s, DoAct(Start(id, k))), after)
    requires var s := Run(Create(timers, now), before);
      forall step :: step in after ==> Untouched(step, id, s.timers[id].periodic)
    ensures var s := Run(Create(timers, now), before);
      var s', periodic := Run(Next(s, DoAct(Start(id, k))), after), s.timers[id].periodic;
      && s'.now == s.now + Ticks(after) && (periodic ==> k > 0)
      && Fires(s'.log, id) == Fires(s.log, id) + Expected(s.now + Max(k, 1), k, periodic, s'.now)
      && (periodic ==> id in s'.list && id in s'.timers && s'.timers[id].active)
  {
    hide TimersOk, Between, Create, Run, EnabledRun, Untouched, Fires, Act;
    CreateBetween(timers, now);
    RunKeeps(Create(timers, now), before);
    var s := Run(Create(timers, now), before);
    StartWaits(s, id, k);
    NextKeeps(s, DoAct(Start(id, k)));
    RunWaits(Act(s, Start(id, k)), after, id, k, s.timers[id].periodic, s.now + Max(k, 1));
  }

  lemma StartWaits(s: Wheel, id: nat, k: int)
    requires Between(s) && ActionOk(s.timers, Start(id, k)) && !s.timers[id].active
    ensures Shape(s)
    ensures var s', periodic := Act(s, Start(id, k)), s.timers[id].periodic;
      && Waits(s', id, k, periodic, s.now + Max(k, 1)) && s'.now == s.now && Fires(s'.log, id) == Fires(s.log, id)
      && (periodic ==> k > 0)
  {
    hide Good, Act, Started, Shape;
    StartOutcome(s, id, k, None);
    StartedLate(s, Act(s, Start(id, k)), id, k);
  }

  lemma StartedLate(s: Wheel, s': Wheel, id: nat, k: int)
    requires Started(s, s', id, k) && !s.checking && k >= 0
    ensures Waits(s', id, k, s.timers[id].periodic, s.now + Max(k, 1)) && s'.now == s.now
    ensures Fires(s'.log, id) == Fires(s.log, id)
  {
    hide PutInOrder;
    InList(s.plan, s.list, s'.list, id, s.now + k);
    FiresNext(s.log, s'.log[|s.log|], id);
    hide Fires;
  }
}
