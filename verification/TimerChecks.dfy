/** Whether rt_timer_check returns (software/src/timer.c:354-414): a timeout function may start other
    timers with 0 ticks, which are due at once. */
module TimerChecks {
  import opened Base
  import opened TimerSpec
  import opened TimerLemmas

  // ---- A measure that goes down with every round ---------------------------------------------

  function Pow(b: nat, r: nat): (p: nat)
    requires b > 0
    ensures p > 0
  {
    if r == 0 then 1 else b * Pow(b, r - 1)
  }

  lemma {:induction false} PowGrows(b: nat, r: nat, q: nat)
    requires b > 0 && r <= q
    ensures Pow(b, r) <= Pow(b, q)
    decreases q
  {
    if r < q {
      PowGrows(b, r, q - 1);
      assert b * Pow(b, q - 1) >= Pow(b, q - 1);
    }
  }

  /** The timers of d, each with the weight of its rank. */
  ghost function Weight(d: set<nat>, rank: map<nat, nat>, b: nat): nat
    requires b > 0 && d <= rank.Keys
  {
    if d == {} then 0
    else
      var x :| x in d;
      Pow(b, rank[x]) + Weight(d - {x}, rank, b)
  }

  lemma {:induction false} WeightTakes(d: set<nat>, x: nat, rank: map<nat, nat>, b: nat)
    requires b > 0 && d <= rank.Keys && x in d
    ensures Weight(d, rank, b) == Pow(b, rank[x]) + Weight(d - {x}, rank, b)
    decreases d
  {
    var y :| y in d && Weight(d, rank, b) == Pow(b, rank[y]) + Weight(d - {y}, rank, b);
    if y != x {
      WeightTakes(d - {y}, x, rank, b);
      WeightTakes(d - {x}, y, rank, b);
      assert d - {y} - {x} == d - {x} - {y};
    }
  }

  lemma {:induction false} WeightGrows(c: set<nat>, d: set<nat>, rank: map<nat, nat>, b: nat)
    requires b > 0 && c <= d <= rank.Keys
    ensures Weight(c, rank, b) <= Weight(d, rank, b)
    decreases c
  {
    if c != {} {
      var x :| x in c;
      WeightTakes(c, x, rank, b);
      WeightTakes(d, x, rank, b);
      WeightGrows(c - {x}, d - {x}, rank, b);
    }
  }

  lemma {:induction false} WeightJoins(c: set<nat>, d: set<nat>, rank: map<nat, nat>, b: nat)
    requires b > 0 && c <= rank.Keys && d <= rank.Keys
    ensures Weight(c + d, rank, b) <= Weight(c, rank, b) + Weight(d, rank, b)
    decreases c
  {
    if c == {} {
      assert c + d == d;
    } else {
      var x :| x in c;
      WeightTakes(c, x, rank, b);
      WeightTakes(c + d, x, rank, b);
      WeightJoins(c - {x}, d, rank, b);
      assert (c + d) - {x} <= (c - {x}) + d;
      WeightGrows((c + d) - {x}, (c - {x}) + d, rank, b);
    }
  }

  lemma OneMore(m: nat, p: nat)
    ensures (m + 1) * p == m * p + p
  {}

  /** Fewer than b timers, all of a rank below r, weigh less than one of rank r. */
  lemma {:induction false} WeightBelow(d: set<nat>, rank: map<nat, nat>, b: nat, r: nat)
    requires b > 0 && d <= rank.Keys && r > 0 && forall x :: x in d ==> rank[x] < r
    ensures Weight(d, rank, b) <= |d| * Pow(b, r - 1)
    decreases d
  {
    if d != {} {
      var x :| x in d;
      WeightTakes(d, x, rank, b);
      PowGrows(b, rank[x], r - 1);
      WeightBelow(d - {x}, rank, b, r);
      assert |d| == |d - {x}| + 1;
      OneMore(|d - {x}|, Pow(b, r - 1));
    } else {
      assert |d| == 0;
    }
  }

  /** Timeout functions start with 0 ticks only other timers of a lower rank. */
  ghost predicate Ranked(timers: map<nat, Timer>, scripts: Scripts, rank: map<nat, nat>) {
    rank.Keys == timers.Keys && Lowers(scripts, rank)
  }

  /** What the timeout function of a timer starts with 0 ticks besides that timer, which is still
      activated and not started again. */
  function Starts(scripts: Scripts, id: nat): set<nat> {
    ZeroIds(ScriptOf(scripts, id)) - {id}
  }

  ghost predicate Lowers(scripts: Scripts, rank: map<nat, nat>) {
    forall id, x :: id in rank && x in Starts(scripts, id) ==> x in rank && rank[x] < rank[id]
  }

  lemma DueKnown(s: Wheel)
    requires Shape(s)
    ensures DueIds(s) <= s.timers.Keys
  {}

  lemma Lighter(d: set<nat>, d': set<nat>, id: nat, z: set<nat>, rank: map<nat, nat>)
    requires d <= rank.Keys && id in d && z <= rank.Keys && d' <= d - {id} + z && d' <= rank.Keys
    requires forall x :: x in z ==> rank[x] < rank[id]
    ensures Weight(d', rank, |rank.Keys| + 1) < Weight(d, rank, |rank.Keys| + 1)
  {
    var b := |rank.Keys| + 1;
    WeightTakes(d, id, rank, b);
    WeightGrows(d', d - {id} + z, rank, b);
    WeightJoins(d - {id}, z, rank, b);
    if rank[id] == 0 {
      assert z == {};
    } else {
      WeightBelow(z, rank, b, rank[id]);
      SubsetSize(z, rank.Keys);
      Smaller(|z|, b, Pow(b, rank[id] - 1));
    }
  }

  lemma Smaller(m: nat, b: nat, p: nat)
    requires m < b && p > 0
    ensures m * p < b * p
  {}

  lemma {:induction false} SubsetSize(c: set<nat>, d: set<nat>)
    requires c <= d
    ensures |c| <= |d|
    decreases c
  {
    if c != {} {
      var x :| x in c;
      SubsetSize(c - {x}, d - {x});
    }
  }

  /** rt_timer_check returns whenever the timers can be ranked so that timeout functions start with 0
      ticks only other timers of a lower rank; in particular when they start nothing with 0 ticks. */
  lemma {:induction false} CheckEnds(s: Wheel, scripts: Scripts, rank: map<nat, nat>) returns (n: nat)
    requires Good(s, None) && Ripe(s) && ScriptsOk(s.timers, scripts) && Ranked(s.timers, scripts, rank)
    ensures Shape(s) && NamesAll(s.timers, scripts) && EndsIn(s, scripts, n)
    decreases Weight(DueIds(s) * rank.Keys, rank, |rank.Keys| + 1)
  {
    hide Good, Ripe, NotBefore, ScriptsOk, Fire, DueIds, ZeroIds, Weight, Ranked;
    GoodShape(s, None);
    ScriptsShape(s.timers, scripts);
    if !HeadDue(s) {
      n := 0;
    } else {
      FireGood(s, scripts);
      var s', id := Fire(s, scripts), s.list[0];
      DueKnown(s);
      DueKnown(s');
      RankedSame(s.timers, s'.timers, scripts, rank);
      assert DueIds(s) * rank.Keys == DueIds(s) && DueIds(s') * rank.Keys == DueIds(s');
      RanksBelow(s.timers, scripts, rank, id);
      Lighter(DueIds(s), DueIds(s'), id, Starts(scripts, id), rank);
      var m := CheckEnds(s', scripts, rank);
      n := m + 1;
    }
  }

  lemma RankedSame(timers: map<nat, Timer>, timers': map<nat, Timer>, scripts: Scripts, rank: map<nat, nat>)
    requires Ranked(timers, scripts, rank) && timers'.Keys == timers.Keys
    ensures Ranked(timers', scripts, rank) && rank.Keys == timers.Keys
  {
    hide Lowers;
  }

  lemma RanksBelow(timers: map<nat, Timer>, scripts: Scripts, rank: map<nat, nat>, id: nat)
    requires Ranked(timers, scripts, rank) && id in timers
    ensures Starts(scripts, id) <= rank.Keys
    ensures forall x :: x in Starts(scripts, id) ==> rank[x] < rank[id]
  {
    hide Starts;
  }

  // ---- Traps ---------------------------------------------------------------------------------

  /** Each timeout function of these timers starts another one of them with 0 ticks. */
  ghost predicate Loose(scripts: Scripts, c: set<nat>) {
    c != {} && forall id :: id in c ==> Starts(scripts, id) * c != {}
  }

  /** The same for one-shot timers. */
  ghost predicate Trap(timers: map<nat, Timer>, scripts: Scripts, c: set<nat>) {
    Loose(scripts, c) && forall id :: id in c ==> id in timers && !timers[id].periodic
  }

  /** Nothing else is done to the timers of c than starting them with 0 ticks. */
  ghost predicate OnlyStarts(scripts: Scripts, c: set<nat>) {
    forall id, a :: id in scripts && a in scripts[id] && a.id in c ==> a == Start(a.id, 0)
  }

  ghost predicate AllDue(s: Wheel, c: set<nat>) {
    forall id :: id in c && id in s.list ==> IsDue(s, id)
  }

  /** Some timer of c is started, and all that are, are due. */
  ghost predicate Caught(s: Wheel, c: set<nat>) {
    AllDue(s, c) && exists id :: id in c && id in s.list
  }

  lemma CaughtDue(s: Wheel, c: set<nat>)
    requires Good(s, None) && Caught(s, c)
    ensures Shape(s) && HeadDue(s)
  {
    var id :| id in c && id in s.list;
    assert IsDue(s, id);
    HeadDueIs(s);
    assert InOrder(s.plan, s.list) by { GoodOrder(s, None); }
    OrderTail(s.plan, s.list);
    hide Good, InOrder, HeadDue;
    assert id == s.list[0] || id in s.list[1..];
  }

  /** An action of the timeout function of timer f, which has left the list. */
  lemma ActCaught(s: Wheel, a: Action, c: set<nat>, f: nat)
    requires Good(s, Some(f)) && Shape(s) && ActionOk(s.timers, a) && AllDue(s, c) && (a.id in c ==> a == Start(a.id, 0))
    ensures AllDue(Act(s, a), c) && forall id :: id in c && id in s.list ==> id in Act(s, a).list
    ensures a.id in c && a.id != f ==> a.id in Act(s, a).list
  {
    if a.id in c {
      if !s.timers[a.id].active {
        LaunchMembers(SetInit(s, a.id, a.k), a.id);
      } else if a.id != f {
        ActiveListed(s, a.id, f);
      }
      hide Good, Place, Insert;
    } else {
      ActElsewhere(s, a, c);
    }
  }

  lemma ActiveListed(s: Wheel, id: nat, f: nat)
    requires Good(s, Some(f)) && id in s.timers && s.timers[id].active && id != f
    ensures id in s.list
  {
    hide NoDup, InOrder, LogOk, TimersOk, Pending;
  }

  lemma ActElsewhere(s: Wheel, a: Action, c: set<nat>)
    requires Shape(s) && a.id in s.timers && a.id !in c && AllDue(s, c)
    ensures AllDue(Act(s, a), c) && forall id :: id in c && id in s.list ==> id in Act(s, a).list
  {
    if a.Start? && !s.timers[a.id].active { LaunchMembers(SetInit(s, a.id, a.k), a.id); }
    hide Place, Insert, Without;
  }

  lemma {:induction false} ActAllCaught(s: Wheel, script: seq<Action>, c: set<nat>, f: nat)
    requires Good(s, Some(f)) && Ripe(s) && ScriptOk(s.timers, script) && AllDue(s, c)
    requires forall a :: a in script && a.id in c ==> a == Start(a.id, 0)
    ensures Shape(s) && Names(s.timers, script)
    ensures AllDue(ActAll(s, script), c) && forall id :: id in c && id in s.list ==> id in ActAll(s, script).list
    ensures forall id :: id in c && id != f && id in ZeroIds(script) ==> id in ActAll(s, script).list
    decreases |script|
  {
    hide Good, Act, ActionOk, Ripe, AllDue, ZeroIds;
    GoodShape(s, Some(f));
    ScriptNames(s.timers, script);
    if script == [] {
      NoZeroIds();
    } else {
      var a, rest := script[0], script[1..];
      assert a in script && script == [a] + rest;
      ActGood(s, a, Some(f));
      RipeAct(s, a);
      ActKinds(s, a);
      KindsOk(s.timers, Act(s, a).timers, rest);
      ActCaught(s, a, c, f);
      ActAllCaught(Act(s, a), rest, c, f);
      ZeroIdsCons(a, rest);
    }
  }

  lemma NoZeroIds()
    ensures ZeroIds([]) == {}
  {}

  lemma RenewCaught(s: Wheel, f: nat, c: set<nat>)
    requires Shape(s) && f in s.timers && AllDue(s, c) && (f in c ==> !s.timers[f].periodic)
    ensures AllDue(Renew(s, f), c) && forall id :: id in c && id in s.list ==> id in Renew(s, f).list
  {
    if s.timers[f].periodic && s.timers[f].active {
      LaunchMembers(s.(timers := s.timers[f := s.timers[f].(active := false)]), f);
      hide Place, Insert;
    }
  }

  lemma PopCaught(s: Wheel, c: set<nat>)
    requires NoDup(s.list) && s.list != [] && AllDue(s, c)
    ensures AllDue(Pop(s), c) && forall id :: id in c && id in s.list && id != s.list[0] ==> id in Pop(s).list
  {
    NoDupTail(s.list);
    hide NoDup;
  }

  /** One round of the check leaves the trap as it is. */
  lemma FireCaught(s: Wheel, scripts: Scripts, c: set<nat>)
    requires Good(s, None) && Ripe(s) && Shape(s) && HeadDue(s) && ScriptsOk(s.timers, scripts)
    requires Trap(s.timers, scripts, c) && OnlyStarts(scripts, c) && Caught(s, c)
    ensures NamesAll(s.timers, scripts) && Caught(Fire(s, scripts), c)
  {
    hide Good, Ripe, NotBefore, ScriptOk, ActAll, Renew, Restarts, DueIds, ScriptsOk, AllDue, ZeroIds, Pop;
    ScriptsShape(s.timers, scripts);
    var f, script := s.list[0], ScriptOf(scripts, s.list[0]);
    ScriptOfOk(s.timers, scripts, f);
    FiredGood(s, scripts);
    PopStarts(s);
    PopCaught(s, c);
    ActAllCaught(Pop(s), script, c, f);
    var s2 := ActAll(Pop(s), script);
    RenewCaught(s2, f, c);
    var id := Successor(s, scripts, c);
    assert id in s2.list;
  }

  /** What is known of a fired timer when its timeout function begins. */
  lemma PopStarts(s: Wheel)
    requires Good(s, None) && Ripe(s) && Shape(s) && HeadDue(s)
    ensures NoDup(s.list) && Good(Pop(s), Some(s.list[0])) && Ripe(Pop(s)) && Pop(s).timers == s.timers
  {
    HeadDueIs(s);
    OnceListed(s, None);
    hide Good, HeadDue, Ripe, NoDup;
    PopGood(s);
    PopDue(s);
    PopShape(s);
  }

  /** A timer of the trap that is started after this round. */
  lemma Successor(s: Wheel, scripts: Scripts, c: set<nat>) returns (id: nat)
    requires s.list != [] && Loose(scripts, c) && exists x :: x in c && x in s.list
    ensures id in c && id != s.list[0] && (id in s.list || id in ZeroIds(ScriptOf(scripts, s.list[0])))
  {
    hide ZeroIds;
    var f := s.list[0];
    if f in c {
      id :| id in Starts(scripts, f) * c;
    } else {
      id :| id in c && id in s.list;
    }
  }

  lemma TrapSame(timers: map<nat, Timer>, timers': map<nat, Timer>, scripts: Scripts, c: set<nat>)
    requires Trap(timers, scripts, c) && SameKinds(timers, timers')
    ensures Trap(timers', scripts, c)
  {
    hide Loose;
  }

  /** Once a timer of a trap has been started and all that have been are due, rt_timer_check does not
      return. */
  lemma {:induction false} NeverEnds(s: Wheel, scripts: Scripts, c: set<nat>, n: nat)
    requires Good(s, None) && Ripe(s) && ScriptsOk(s.timers, scripts)
    requires Trap(s.timers, scripts, c) && OnlyStarts(scripts, c) && Caught(s, c)
    ensures Shape(s) && NamesAll(s.timers, scripts) && !EndsIn(s, scripts, n)
    decreases n
  {
    hide Good, Ripe, ScriptsOk, Trap, OnlyStarts, Caught, Fire, NotBefore, DueIds;
    CaughtDue(s, c);
    ScriptsShape(s.timers, scripts);
    if n > 0 {
      FireGood(s, scripts);
      FireCaught(s, scripts, c);
      FireKinds(s, scripts);
      TrapSame(s.timers, Fire(s, scripts).timers, scripts, c);
      NeverEnds(Fire(s, scripts), scripts, c, n - 1);
    }
  }

  lemma FireKinds(s: Wheel, scripts: Scripts)
    requires Good(s, None) && Ripe(s) && Shape(s) && HeadDue(s) && ScriptsOk(s.timers, scripts)
    ensures NamesAll(s.timers, scripts) && SameKinds(s.timers, Fire(s, scripts).timers)
  {
    hide Good, Ripe, NotBefore, ScriptOk, ActAll, Renew, Restarts, DueIds, ScriptsOk, ScriptOf;
    ScriptsShape(s.timers, scripts);
    ScriptOfOk(s.timers, scripts, s.list[0]);
    FiredGood(s, scripts);
    RenewKinds(ActAll(Pop(s), ScriptOf(scripts, s.list[0])), s.list[0]);
  }

  // ---- Exactly -------------------------------------------------------------------------------

  /** Timers without a trap among them can be ranked. */
  lemma {:induction false} RankExists(d: set<nat>, scripts: Scripts) returns (rank: map<nat, nat>)
    requires forall c: set<nat> :: c <= d ==> !Loose(scripts, c)
    ensures rank.Keys == d
    ensures forall id, x :: id in d && x in Starts(scripts, id) && x in d ==> rank[x] < rank[id]
    decreases d
  {
    hide Starts;
    if d == {} {
      rank := map[];
    } else {
      assert d <= d;
      var last :| last in d && Starts(scripts, last) * d == {};
      var rest := RankExists(d - {last}, scripts);
      rank := map id | id in d :: if id == last then 0 else rest[id] + 1;
      forall id, x | id in d && x in Starts(scripts, id) && x in d ensures rank[x] < rank[id] {
        assert x in Starts(scripts, id) * d;
        assert id != last;
        NotOwn(scripts, id);
      }
    }
  }

  lemma NotOwn(scripts: Scripts, id: nat)
    ensures id !in Starts(scripts, id)
  {
    hide ZeroIds;
  }

  lemma StartsKnown(timers: map<nat, Timer>, scripts: Scripts, id: nat)
    requires ScriptsOk(timers, scripts)
    ensures forall x :: x in Starts(scripts, id) ==> x in timers && !timers[x].periodic
  {
    ScriptOfOk(timers, scripts, id);
    hide ScriptsOk;
    forall x | x in Starts(scripts, id) ensures x in timers && !timers[x].periodic {
      var a :| a in ScriptOf(scripts, id) && a.Start? && a.k == 0 && a.id == x;
      assert ActionOk(timers, a);
    }
  }

  /** The one-shot timers of a set that is no trap yet are one. */
  lemma Tighten(timers: map<nat, Timer>, scripts: Scripts, c: set<nat>)
    requires ScriptsOk(timers, scripts) && Loose(scripts, c) && c <= timers.Keys
    ensures exists e :: Trap(timers, scripts, e)
  {
    hide ScriptsOk, Starts;
    var e := set id | id in c && !timers[id].periodic;
    forall id | id in c ensures Starts(scripts, id) * e != {} {
      var x :| x in Starts(scripts, id) * c;
      StartsKnown(timers, scripts, id);
      assert x in Starts(scripts, id) * e;
    }
    assert Trap(timers, scripts, e);
  }

  /** A check is beginning. */
  ghost predicate AtCheck(s: Wheel, timers: map<nat, Timer>) {
    Good(s, None) && Ripe(s) && SameKinds(timers, s.timers)
  }

  ghost predicate Returns(s: Wheel, scripts: Scripts) {
    Shape(s) && NamesAll(s.timers, scripts) && exists n: nat :: EndsIn(s, scripts, n)
  }

  /** Timeout functions do nothing but starting timers with 0 ticks. */
  ghost predicate ZeroStarts(scripts: Scripts) {
    forall id, a :: id in scripts && a in scripts[id] ==> a == Start(a.id, 0)
  }

  lemma WithoutTrap(timers: map<nat, Timer>, scripts: Scripts, s: Wheel)
    requires ScriptsOk(timers, scripts) && AtCheck(s, timers) && !exists c :: Trap(timers, scripts, c)
    ensures Returns(s, scripts)
  {
    hide ScriptsOk, Good, Ripe, Trap, Starts;
    forall c: set<nat> | c <= timers.Keys ensures !Loose(scripts, c) {
      if Loose(scripts, c) { Tighten(timers, scripts, c); }
    }
    var rank := RankExists(timers.Keys, scripts);
    forall id, x | id in rank && x in Starts(scripts, id) ensures x in rank && rank[x] < rank[id] {
      StartsKnown(timers, scripts, id);
    }
    ScriptsKinds(timers, s.timers, scripts);
    var n := CheckEnds(s, scripts, rank);
  }

  lemma StartFirst(s: Wheel, id: nat, k: int)
    requires s.list == [] && id in s.timers && !s.timers[id].active
    ensures Shape(s) && Act(s, Start(id, k)).list == [id]
  {}

  /** A reachable state in which a timer of the trap is due: it was started with 1 tick. */
  lemma CatchOne(timers: map<nat, Timer>, scripts: Scripts, c: set<nat>, id: nat, now: int)
    requires TimersOk(timers) && (forall x :: x in timers ==> !timers[x].active)
    requires Trap(timers, scripts, c) && id in c
    ensures var s0 := Create(timers, now);
      && Enabled(s0, DoAct(Start(id, 1)))
      && var s := Advance(Next(s0, DoAct(Start(id, 1)))); AtCheck(s, timers) && Caught(s, c)
  {
    hide TimersOk, Loose, Between;
    var s0 := Create(timers, now);
    CreateBetween(timers, now);
    StartFirst(s0, id, 1);
    ActBetween(s0, Start(id, 1));
    ActKinds(s0, Start(id, 1));
    var s1 := Act(s0, Start(id, 1));
    AdvanceGood(s1);
    StartedDue(s0, id);
    hide Good, Ripe, Act;
  }

  lemma StartedDue(s: Wheel, id: nat)
    requires s.list == [] && id in s.timers && !s.timers[id].active
    ensures Shape(s) && IsDue(Advance(Act(s, Start(id, 1))), id)
  {}

  /** If timeout functions do nothing but starting timers with 0 ticks, every check returns if and only
      if no set of one-shot timers start one another in this way. */
  lemma ReturnsExactly(timers: map<nat, Timer>, scripts: Scripts)
    requires TimersOk(timers) && (forall id :: id in timers ==> !timers[id].active)
    requires ScriptsOk(timers, scripts) && ZeroStarts(scripts)
    ensures (forall s :: AtCheck(s, timers) ==> Returns(s, scripts)) <==> !exists c :: Trap(timers, scripts, c)
  {
    hide ScriptsOk, AtCheck, Returns, Trap, TimersOk, Good, Ripe;
    if exists c :: Trap(timers, scripts, c) {
      var c :| Trap(timers, scripts, c);
      var s := Stuck(timers, scripts, c, 0);
    } else {
      forall s | AtCheck(s, timers) ensures Returns(s, scripts) { WithoutTrap(timers, scripts, s); }
    }
  }

  lemma Stuck(timers: map<nat, Timer>, scripts: Scripts, c: set<nat>, now: int) returns (s: Wheel)
    requires TimersOk(timers) && (forall id :: id in timers ==> !timers[id].active)
    requires ScriptsOk(timers, scripts) && ZeroStarts(scripts) && Trap(timers, scripts, c)
    ensures AtCheck(s, timers) && !Returns(s, scripts)
  {
    hide ScriptsOk, TimersOk, Good, Ripe, Starts, Create, Enabled, Next, Caught, EndsIn, NamesAll, Shape;
    var id :| id in c;
    CatchOne(timers, scripts, c, id, now);
    s := Advance(Next(Create(timers, now), DoAct(Start(id, 1))));
    ScriptsKinds(timers, s.timers, scripts);
    TrapSame(timers, s.timers, scripts, c);
    if Returns(s, scripts) {
      var n: nat :| EndsIn(s, scripts, n);
      NeverEnds(s, scripts, c, n);
    }
  }

  // ---- An example ----------------------------------------------------------------------------

  /** Timers 0 and 1 with timeout functions that start the other one with 0 ticks. */
  const PAIR: map<nat, Timer> := map[0 := Timer(0, 1, false, false), 1 := Timer(0, 0, false, false)]
  const PAIR_SCRIPTS: Scripts := map[0 := [Start(1, 0)], 1 := [Start(0, 0)]]

  lemma PairScripts()
    ensures ScriptsOk(PAIR, PAIR_SCRIPTS) && TimersOk(PAIR)
  {
    NoRestart(Start(1, 0), 0);
    NoRestart(Start(0, 0), 1);
    hide Restarts;
  }

  lemma PairTrap()
    ensures Trap(PAIR, PAIR_SCRIPTS, {0, 1}) && OnlyStarts(PAIR_SCRIPTS, {0, 1})
  {
    OneStart(1);
    OneStart(0);
    hide ZeroIds;
    assert Starts(PAIR_SCRIPTS, 0) == {1} && Starts(PAIR_SCRIPTS, 1) == {0};
    hide Starts;
    assert 1 in Starts(PAIR_SCRIPTS, 0) * {0, 1} && 0 in Starts(PAIR_SCRIPTS, 1) * {0, 1};
  }

  lemma OneStart(id: nat)
    ensures ZeroIds([Start(id, 0)]) == {id}
  {
    assert Start(id, 0) in [Start(id, 0)];
  }

  /** Two timers that start each other with 0 ticks: once the first is due, rt_timer_check goes on for
      ever. */
  lemma EndlessCheck(now: int, n: nat)
    ensures TimersOk(PAIR) && ScriptsOk(PAIR, PAIR_SCRIPTS) && Enabled(Create(PAIR, now), DoAct(Start(0, 1)))
    ensures var s := Advance(Next(Create(PAIR, now), DoAct(Start(0, 1))));
      Shape(s) && NamesAll(s.timers, PAIR_SCRIPTS) && !EndsIn(s, PAIR_SCRIPTS, n)
  {
    PairScripts();
    PairTrap();
    assert forall x :: x in PAIR ==> !PAIR[x].active;
    hide Enabled, Next, ScriptsOk, TimersOk, EndsIn, Create, Trap, OnlyStarts, Caught, Good, Ripe, NamesAll, Shape;
    CatchOne(PAIR, PAIR_SCRIPTS, {0, 1}, 0, now);
    var s := Advance(Next(Create(PAIR, now), DoAct(Start(0, 1))));
    ScriptsKinds(PAIR, s.timers, PAIR_SCRIPTS);
    TrapSame(PAIR, s.timers, PAIR_SCRIPTS, {0, 1});
    NeverEnds(s, PAIR_SCRIPTS, {0, 1}, n);
  }

  lemma NoRestart(a: Action, id: nat)
    requires a.id != id
    ensures !Restarts([a], id)
  {
    assert [a][1..] == [];
    assert TrackAll([a], id, Mark(true, false)) == TrackAll([], id, Mark(true, false));
  }
}
