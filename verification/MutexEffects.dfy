/** What each section of a mutex call does, priorities included (software/src/ipc.c:603-807). */
module MutexEffects {
  import opened Base
  import opened Threads
  import opened ThreadLemmas
  import opened ThreadEffects
  import opened Waiters
  import opened WaiterEffects
  import opened MutexSpec
  import opened MutexLemmas

  /** Thread t has priority p afterwards; if that is a change and it is READY it goes to the end of the
      ready list of p. */
  ghost predicate Ranked(c: Core, c': Core, t: Tid, p: nat) {
    && t in c.sys.tcb && c.sys.tcb[t].prio < |c.sys.ready| && p < |c.sys.ready| && c'.blocked == c.blocked
    && var x := c.sys.tcb[t]; var left := c.sys.ready[x.prio := Without(c.sys.ready[x.prio], t)];
    if x.prio == p then c' == c
    else c'.sys == c.sys.(tcb := c.sys.tcb[t := x.(prio := p)],
                          ready := if x.stat == Ready then left[p := left[p] + [t]] else c.sys.ready)
  }

  lemma SetPriorityDoes(c: Core, t: Tid, p: nat)
    requires CoreInv(c) && t in c.sys.tcb && p < |c.sys.ready| && c.sys.tcb[t].prio != p
    ensures Ranked(c, SetPriority(c, t, p), t, p)
  {
    hide Placed, CallsOk, ChangePriority, Without;
    PriorityDoes(c.sys, t, p);
  }

  lemma BoostDoes(c: Core, o: Tid, p: nat)
    requires CoreInv(c) && o in c.sys.tcb && p < |c.sys.ready|
    ensures Ranked(c, Boost(c, o, p), o, Min(c.sys.tcb[o].prio, p))
  {
    CoreRanges(c);
    hide CoreInv, SetPriority, Without;
    if p < c.sys.tcb[o].prio { SetPriorityDoes(c, o, p); }
  }

  lemma RestoreDoes(c: Core, o: Tid, p: nat)
    requires CoreInv(c) && o in c.sys.tcb && p < |c.sys.ready|
    ensures Ranked(c, Restore(c, o, p), o, p)
  {
    CoreRanges(c);
    hide CoreInv, SetPriority, Without;
    if p != c.sys.tcb[o].prio { SetPriorityDoes(c, o, p); }
  }

  /** The owner has at least the priority of the caller, which sleeps in its place among the waiters. */
  ghost predicate WaitsForOwner(c: Core, c': Core, o: Tid, t: Tid, time: int) {
    && t in c.sys.tcb && o in c.sys.tcb
    && exists d :: Ranked(c, d, o, Min(c.sys.tcb[o].prio, c.sys.tcb[t].prio))
                   && Slept(d, c', WAITERS, t, PRIO, time > 0)
  }

  /** The first section of a take: the owner nests; a free mutex gets an owner and remembers its
      priority; otherwise the caller gives up if it may not wait, and sleeps otherwise. */
  lemma TakeOutcome(m: Mutex, t: Tid, time: int)
    requires Inv(m) && Enabled(m, DoTake(t, time))
    ensures var m', o := Next(m, DoTake(t, time)), Take(m, t, time).1;
      && (m.owner == Some(t) ==>
            && o == Returned(EOK) && Flagged(m.core, m'.core, t, EOK)
            && m' == m.(core := m'.core, hold := (m.hold + 1) % 256, takes := m.takes + 1))
      && (m.owner == None ==>
            && o == Returned(EOK) && Flagged(m.core, m'.core, t, EOK)
            && m' == m.(core := m'.core, value := 0, owner := Some(t), original := m.core.sys.tcb[t].prio, hold := 1,
                        takes := 1))
      && (m.owner.Some? && m.owner != Some(t) && time == 0 ==>
            o == Returned(ETIMEOUT) && Flagged(m.core, m'.core, t, ETIMEOUT) && m' == m.(core := m'.core))
      && (m.owner.Some? && m.owner != Some(t) && time != 0 ==>
            o == Blocked && WaitsForOwner(m.core, m'.core, m.owner.value, t, time) && m' == m.(core := m'.core))
  {
    hide CoreInv, Given, Ranks, Sorted, Boost, Enter, InRange, WaitsForOwner;
    if m.owner.Some? && m.owner != Some(t) && time != 0 { WaitDoes(m, t, time); }
  }

  lemma WaitDoes(m: Mutex, t: Tid, time: int)
    requires Inv(m) && Enabled(m, DoTake(t, time)) && m.owner.Some? && m.owner != Some(t) && time != 0
    ensures var p := m.core.sys.tcb[t].prio;
      && p < |m.core.sys.ready| && m.owner.value in m.core.sys.tcb
      && |Boost(m.core, m.owner.value, p).sys.wait| == 1 && t in Boost(m.core, m.owner.value, p).sys.tcb
      && WaitsForOwner(m.core, Enter(Boost(m.core, m.owner.value, p), WAITERS, t, PRIO, time > 0), m.owner.value, t, time)
  {
    var o, p := m.owner.value, m.core.sys.tcb[t].prio;
    hide CoreInv, Given, Ranks, Sorted, InRange, Slept, Enter, SetPriority, Without;
    BoostDoes(m.core, o, p);
    var d := Boost(m.core, o, p);
    assert CoreInv(d) && d.sys.wait == m.core.sys.wait && t in d.sys.tcb && d.sys.tcb[t].stat == Ready by {
      if p < m.core.sys.tcb[o].prio { SetPriorityKeeps(m.core, o, p); }
    }
    hide Boost, Ranked;
    EnterDoes(d, WAITERS, t, PRIO, time > 0);
  }

  /** A release by anybody but the owner is an error. The owner counts down; its last release gives it
      back the priority it had when it got the mutex, and gives the mutex to the first waiter, with its
      priority and one take, or to nobody. */
  lemma ReleaseOutcome(m: Mutex, t: Tid)
    requires Inv(m) && Enabled(m, DoRelease(t))
    ensures var m', o := Next(m, DoRelease(t)), Release(m, t).1;
      && (m.owner != Some(t) ==>
            o == Returned(ERROR) && Flagged(m.core, m'.core, t, ERROR) && m' == m.(core := m'.core))
      && (m.owner == Some(t) && m.hold > 1 ==>
            o == Returned(EOK) && m' == m.(hold := m.hold - 1, takes := m.takes - 1))
      && (m.owner == Some(t) && m.hold == 1 ==>
            && o == Returned(EOK) && HandedOn(m, m', t))
  {
    hide CoreInv, Given, Ranks, Sorted, Restore, HandOff, InRange, HandedOn;
    if m.owner == Some(t) && m.hold == 1 { LastReleaseDoes(m, t); }
  }

  /** The owner t has its old priority again, and the first waiter, or nobody, has the mutex. */
  ghost predicate HandedOn(m: Mutex, m': Mutex, t: Tid) {
    && |m.core.sys.wait| == 1
    && var l := m.core.sys.wait[WAITERS];
    if l == [] then
      && Ranked(m.core, m'.core, t, m.original)
      && m' == m.(core := m'.core, value := 1, owner := None, original := 0xFF, hold := 0, takes := 0)
    else
      && l[0] in m.core.sys.tcb
      && (exists d :: Ranked(m.core, d, t, m.original) && WokeFirst(d, m'.core, WAITERS))
      && m' == m.(core := m'.core, owner := Some(l[0]), original := m.core.sys.tcb[l[0]].prio, hold := 1, takes := 1)
  }

  lemma LastReleaseDoes(m: Mutex, t: Tid)
    requires Inv(m) && Enabled(m, DoRelease(t)) && m.owner == Some(t) && m.hold == 1
    ensures Release(m, t).1 == Returned(EOK) && HandedOn(m, Release(m, t).0, t)
  {
    hide Inv, SetPriority, Without, Restore, Ranked, Wake, InRange, WokeFirst, Shape;
    var c := m.core;
    OwnerApart(m, t);
    RestoreDoes(c, t, m.original);
    RestoreKeeps(c, t, m.original);
    var d := Restore(c, t, m.original);
    hide CoreInv;
    WakeUp(d, WAITERS);
  }

  lemma OwnerApart(m: Mutex, t: Tid)
    requires Inv(m) && m.owner == Some(t)
    ensures |m.core.sys.wait| == 1 && m.value == 0 && m.hold == m.takes && CoreInv(m.core)
    ensures t in m.core.sys.tcb && m.original < |m.core.sys.ready|
    ensures m.core.sys.wait[WAITERS] != [] ==> m.core.sys.wait[WAITERS][0] in m.core.sys.tcb && m.core.sys.wait[WAITERS][0] != t
  {
    hide CoreInv, Given, Sorted;
    if m.core.sys.wait[WAITERS] != [] { assert m.core.sys.wait[WAITERS][0] in m.core.sys.wait[WAITERS]; }
  }

  /** A take that goes on reports what it finds in its error code. */
  lemma ContinueOutcome(m: Mutex, t: Tid)
    requires Inv(m) && Enabled(m, DoContinue(t))
    ensures var m' := Next(m, DoContinue(t));
      && Continue(m, t).1 == Returned(m.core.sys.tcb[t].error)
      && Left(m.core, m'.core, t) && m' == m.(core := m'.core)
  {
    hide CoreInv, Given, Ranks, Sorted, InRange;
  }

  lemma EndOfWait(m: Mutex, t: Tid)
    requires Inv(m)
    ensures Enabled(m, DoExpire(t)) ==> var m' := Next(m, DoExpire(t));
      m' == m.(core := m'.core) && BackReady(m.core, m'.core, t, ETIMEOUT)
    ensures Enabled(m, DoRouse(t)) ==> var m' := Next(m, DoRouse(t));
      m' == m.(core := m'.core) && BackReady(m.core, m'.core, t, m.core.sys.tcb[t].error)
  {
    hide CoreInv, Given, Ranks, Sorted, InRange, Expire, Rouse, BackReady;
    if Enabled(m, DoExpire(t)) { ExpireDoes(m.core, t); }
    if Enabled(m, DoRouse(t)) { RouseDoes(m.core, t); }
  }

  /** What threads that are in no call of the mutex do leaves it alone. */
  lemma AsideOutcome(m: Mutex, t: Tid)
    requires Inv(m)
    ensures Enabled(m, DoSleep(t)) ==> var m' := Next(m, DoSleep(t));
      m' == m.(core := m'.core) && Meanwhile(m.core, m'.core, Doze(t))
    ensures Enabled(m, DoYield(t)) ==> var m' := Next(m, DoYield(t));
      m' == m.(core := m'.core) && Meanwhile(m.core, m'.core, Spin(t))
  {
    hide CoreInv, Given, Ranks, Sorted, InRange, Aside, Meanwhile;
    if Enabled(m, DoSleep(t)) { AsideDoes(m.core, Doze(t)); }
    if Enabled(m, DoYield(t)) { AsideDoes(m.core, Spin(t)); }
  }

  /** A new mutex is free and nobody waits. */
  lemma CreateOutcome(sys: Sys)
    ensures var m := Create(sys);
      m.value == 1 && m.owner.None? && m.hold == 0 && m.core.blocked == map[] && m.core.sys == sys.(wait := [[]])
  {}
}
