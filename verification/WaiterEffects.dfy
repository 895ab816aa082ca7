/** What the steps of a blocking call do to the threads, in full. */
module WaiterEffects {
  import opened Base
  import opened Threads
  import opened ThreadLemmas
  import opened ThreadEffects
  import opened Waiters

  /** The running thread t sleeps in list q with a clear error code, and a timer if there is a timeout. */
  ghost predicate Slept(c: Core, c': Core, q: nat, t: Tid, flag: Flag, timed: bool) {
    && t in c.sys.tcb
    && WaitsIn(c.sys, c'.sys, q, t, flag, c.sys.tcb[t].(stat := Suspended, error := EOK, armed := timed))
    && c'.blocked == c.blocked[t := q]
  }

  /** Only the error code of t changes. */
  ghost predicate Flagged(c: Core, c': Core, t: Tid, e: Err) {
    t in c.sys.tcb && c' == c.(sys := c.sys.(tcb := c.sys.tcb[t := c.sys.tcb[t].(error := e)]))
  }

  /** The call of t is over. */
  ghost predicate Left(c: Core, c': Core, t: Tid) {
    c' == c.(blocked := c.blocked - {t})
  }

  /** The first waiter of list q is READY, the others and their order stay; with nobody there nothing
      changes. */
  ghost predicate WokeFirst(c: Core, c': Core, q: nat) {
    FirstWoken(c.sys, c'.sys, q) && c'.blocked == c.blocked
  }

  /** t is READY behind all others of its priority with its timer off, and in no wait list. */
  ghost predicate BackReady(c: Core, c': Core, t: Tid, e: Err) {
    && t in c.sys.tcb && c.sys.tcb[t].prio < |c.sys.ready| && c'.blocked == c.blocked
    && c'.sys == c.sys.(tcb := c.sys.tcb[t := c.sys.tcb[t].(stat := Ready, error := e, armed := false)],
                        ready := c.sys.ready[c.sys.tcb[t].prio := c.sys.ready[c.sys.tcb[t].prio] + [t]],
                        wait := c'.sys.wait)
    && |c'.sys.wait| == |c.sys.wait|
    && forall q :: 0 <= q < |c.sys.wait| ==> c'.sys.wait[q] == Without(c.sys.wait[q], t)
  }

  /** All waiters of list q are READY with -RT_ERROR, in the order they waited; the list is empty. */
  ghost predicate AllKicked(c: Core, c': Core, q: nat) {
    && q < |c.sys.wait| && c'.blocked == c.blocked
    && c'.sys.wait == c.sys.wait[q := []] && c'.sys.tcb.Keys == c.sys.tcb.Keys
    && (forall t :: t in c.sys.tcb && t !in c.sys.wait[q] ==> c'.sys.tcb[t] == c.sys.tcb[t])
    && (forall t :: t in c.sys.tcb && t in c.sys.wait[q] ==>
          c'.sys.tcb[t] == c.sys.tcb[t].(stat := Ready, error := ERROR, armed := false))
    && |c'.sys.ready| == |c.sys.ready|
    && (forall p :: 0 <= p < |c.sys.ready| ==>
          c'.sys.ready[p] == c.sys.ready[p] + OfPriority(c.sys.tcb, c.sys.wait[q], p))
  }

  /** A thread that is in no call of the object sleeps, gives way, changes its priority or is resumed. */
  ghost predicate Meanwhile(c: Core, c': Core, o: Other) {
    && c'.blocked == c.blocked && o.t in c.sys.tcb && c.sys.tcb[o.t].prio < |c.sys.ready|
    && var x, l := c.sys.tcb[o.t], c.sys.ready; var left := l[x.prio := Without(l[x.prio], o.t)];
       match o
       case Doze(t) => c'.sys == c.sys.(tcb := c.sys.tcb[t := x.(stat := Suspended, armed := true)], ready := left)
       case Spin(t) => c'.sys == c.sys.(ready := if x.stat == Ready then left[x.prio := left[x.prio] + [t]] else l)
       case Rank(t, p) =>
         && p < |l|
         && c'.sys == c.sys.(tcb := c.sys.tcb[t := x.(prio := p)],
                             ready := if x.stat == Ready then left[p := left[p] + [t]] else l)
       case Stir(t) => BackReady(c, c', t, x.error)
  }

  lemma EnterDoes(c: Core, q: nat, t: Tid, flag: Flag, timed: bool)
    requires CoreInv(c) && q < |c.sys.wait| && t in c.sys.tcb && c.sys.tcb[t].stat == Ready
    ensures Slept(c, Enter(c, q, t, flag, timed), q, t, flag, timed)
  {
    hide Placed, CallsOk, Block, WaitsIn;
    BlockDoes(c.sys, q, t, flag, timed);
  }

  lemma WakeUp(c: Core, q: nat)
    requires CoreInv(c) && q < |c.sys.wait|
    ensures InRange(c.sys, c.sys.wait[q]) && WokeFirst(c, Wake(c, q), q)
  {
    hide Placed, CallsOk, WakeFirst, FirstWoken;
    WakeDoes(c.sys, q);
  }

  lemma ExpireDoes(c: Core, t: Tid)
    requires CoreInv(c) && t in c.sys.tcb && c.sys.tcb[t].armed
    ensures c.sys.tcb[t].prio < |c.sys.ready| && BackReady(c, Expire(c, t), t, ETIMEOUT)
  {
    hide Placed, CallsOk, Timeout, Without;
    TimeoutDoes(c.sys, t);
  }

  lemma RouseDoes(c: Core, t: Tid)
    requires CoreInv(c) && t in c.sys.tcb && c.sys.tcb[t].stat == Suspended
    ensures c.sys.tcb[t].prio < |c.sys.ready| && BackReady(c, Rouse(c, t), t, c.sys.tcb[t].error)
  {
    hide Placed, CallsOk, Resume, Without;
    ResumeDoes(c.sys, t);
  }

  lemma KickDoes(c: Core, q: nat)
    requires CoreInv(c) && q < |c.sys.wait|
    ensures InRange(c.sys, c.sys.wait[q]) && AllKicked(c, KickAll(c, q), q)
  {
    hide Placed, CallsOk, ResumeAll, OfPriority;
    ResumeAllEffect(c.sys, q);
    ResumeAllReady(c.sys, q);
  }

  lemma AsideDoes(c: Core, o: Other)
    requires CoreInv(c) && OtherEnabled(c, o)
    ensures Meanwhile(c, Aside(c, o), o)
  {
    hide CallsOk, Sleep, Yield, ChangePriority, Rouse, Without, BackReady;
    match o {
      case Doze(t) => SleepDoes(c.sys, t);
      case Spin(t) =>
        YieldDoes(c.sys, t);
        var p := c.sys.tcb[t].prio;
        var left := c.sys.ready[p := Without(c.sys.ready[p], t)];
        assert left[p := left[p] + [t]] == c.sys.ready[p := Without(c.sys.ready[p], t) + [t]];
      case Rank(t, p) => PriorityDoes(c.sys, t, p);
      case Stir(t) => RouseDoes(c, t);
    }
  }

  lemma FailDoes(c: Core, t: Tid, e: Err)
    requires t in c.sys.tcb
    ensures Flagged(c, Fail(c, t, e), t, e)
  {}
}
