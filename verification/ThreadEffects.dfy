/** What each thread operation does to a placed system: which list loses the thread, which one gains
    it and where, and that everything else stays (software/src/thread.c:191-631, software/src/ipc.c:82-182). */
module ThreadEffects {
  import opened Base
  import opened Threads
  import opened ThreadLemmas

  // ---- Lists without a thread ----------------------------------------------------------------

  lemma OnlyOne(ls: seq<seq<Tid>>, i: nat, t: Tid)
    requires i < |ls| && forall j :: 0 <= j < |ls| && j != i ==> t !in ls[j]
    ensures WithoutAll(ls, t) == ls[i := Without(ls[i], t)]
  {
    hide Without;
    assert forall j :: 0 <= j < |ls| ==> WithoutAll(ls, t)[j] == ls[i := Without(ls[i], t)][j];
  }

  lemma NoneOf(ls: seq<seq<Tid>>, t: Tid)
    requires forall j :: 0 <= j < |ls| ==> t !in ls[j]
    ensures WithoutAll(ls, t) == ls
  {
    hide Without;
    assert forall j :: 0 <= j < |ls| ==> WithoutAll(ls, t)[j] == ls[j];
  }

  /** Where a placed thread stands. */
  lemma Stands(s: Sys, t: Tid)
    requires Placed(s) && t in s.tcb
    ensures s.tcb[t].prio < |s.ready| && s.tcb[t].initPrio < |s.ready|
    ensures s.tcb[t].stat == Ready ==> t in s.ready[s.tcb[t].prio] && NoDup(s.ready[s.tcb[t].prio])
                                       && WithoutAll(s.wait, t) == s.wait && !s.tcb[t].armed
    ensures s.tcb[t].stat == Ready ==>
      WithoutAll(s.ready, t) == s.ready[s.tcb[t].prio := Without(s.ready[s.tcb[t].prio], t)]
    ensures s.tcb[t].stat != Ready ==> WithoutAll(s.ready, t) == s.ready
    ensures s.tcb[t].stat != Suspended ==> WithoutAll(s.wait, t) == s.wait
  {
    var p := s.tcb[t].prio;
    if s.tcb[t].stat == Ready {
      assert forall j :: 0 <= j < |s.ready| && j != p ==> t !in s.ready[j];
      OnlyOne(s.ready, p, t);
    } else {
      assert forall j :: 0 <= j < |s.ready| ==> t !in s.ready[j];
      NoneOf(s.ready, t);
    }
    if s.tcb[t].stat != Suspended {
      assert forall j :: 0 <= j < |s.wait| ==> t !in s.wait[j];
      NoneOf(s.wait, t);
    }
  }

  // ---- One operation -------------------------------------------------------------------------

  /** A READY thread is suspended and leaves its ready list, any other stays as it is. */
  lemma SuspendDoes(s: Sys, t: Tid)
    requires Placed(s) && t in s.tcb
    ensures var c := s.tcb[t];
      && c.prio < |s.ready|
      && Suspend(s, t) == if c.stat != Ready then s else
           s.(tcb := s.tcb[t := c.(stat := Suspended)], ready := s.ready[c.prio := Without(s.ready[c.prio], t)])
  {
    Stands(s, t);
    hide Placed, WithoutAll, Without;
  }

  /** A suspended thread becomes READY behind all others of its priority, its timer is off, and it is
      in no wait list any more; any other thread stays as it is. */
  lemma ResumeDoes(s: Sys, t: Tid)
    requires Placed(s) && t in s.tcb
    ensures var c := s.tcb[t];
      && c.prio < |s.ready|
      && Resume(s, t) == if c.stat != Suspended then s else
           s.(tcb := s.tcb[t := c.(stat := Ready, armed := false)],
              ready := s.ready[c.prio := s.ready[c.prio] + [t]], wait := WithoutAll(s.wait, t))
  {
    Stands(s, t);
    hide Placed, WithoutAll;
  }

  /** The same with the error code of a timeout. */
  lemma TimeoutDoes(s: Sys, t: Tid)
    requires Placed(s) && t in s.tcb && s.tcb[t].armed
    ensures var c := s.tcb[t];
      && c.prio < |s.ready|
      && Timeout(s, t) ==
           s.(tcb := s.tcb[t := c.(stat := Ready, error := ETIMEOUT, armed := false)],
              ready := s.ready[c.prio := s.ready[c.prio] + [t]], wait := WithoutAll(s.wait, t))
  {
    Stands(s, t);
    assert s.tcb[t].stat == Suspended;
    hide Placed, WithoutAll;
  }

  /** The running thread sleeps: suspended, out of its ready list, with its timer on. */
  lemma SleepDoes(s: Sys, t: Tid)
    requires Placed(s) && t in s.tcb && s.tcb[t].stat == Ready
    ensures var c := s.tcb[t];
      && c.prio < |s.ready|
      && Sleep(s, t) == s.(tcb := s.tcb[t := c.(stat := Suspended, armed := true)],
                           ready := s.ready[c.prio := Without(s.ready[c.prio], t)])
  {
    hide Placed, Suspend;
    SuspendDoes(s, t);
  }

  lemma Alone(l: seq<Tid>, t: Tid)
    requires t in l && |l| <= 1
    ensures Without(l, t) + [t] == l
  {}

  /** A READY thread goes behind all others of its priority; nothing else changes. */
  lemma YieldDoes(s: Sys, t: Tid)
    requires Placed(s) && t in s.tcb
    ensures var c := s.tcb[t];
      && c.prio < |s.ready|
      && (c.stat != Ready ==> Yield(s, t) == s)
      && (c.stat == Ready ==> Yield(s, t) == s.(ready := s.ready[c.prio := Without(s.ready[c.prio], t) + [t]]))
      && (c.stat == Ready && s.ready[c.prio][0] == t ==>
            Yield(s, t) == s.(ready := s.ready[c.prio := s.ready[c.prio][1..] + [t]]))
  {
    Stands(s, t);
    var c := s.tcb[t];
    hide Placed, WithoutAll;
    if c.stat == Ready {
      var l := s.ready[c.prio];
      if |l| <= 1 {
        Alone(l, t);
        assert s.ready[c.prio := l] == s.ready;
      }
      if l[0] == t { HeadWithout(l); }
      hide Without;
    }
  }

  /** A READY thread leaves its list and goes to the end of the list of its new priority; any other
      thread changes its number only. */
  lemma PriorityDoes(s: Sys, t: Tid, p: nat)
    requires Placed(s) && t in s.tcb && p < |s.ready|
    ensures var c := s.tcb[t]; var left := s.ready[c.prio := Without(s.ready[c.prio], t)];
      && c.prio < |s.ready|
      && ChangePriority(s, t, p) ==
           s.(tcb := s.tcb[t := c.(prio := p)], ready := if c.stat == Ready then left[p := left[p] + [t]] else s.ready)
  {
    hide Placed, WithoutAll, Without;
    Stands(s, t);
    var left := s.ready[s.tcb[t].prio := Without(s.ready[s.tcb[t].prio], t)];
    if s.tcb[t].stat == Ready {
      assert ChangePriority(s, t, p).ready == left[p := left[p] + [t]];
    }
  }

  /** A new thread becomes READY at its initial priority, behind all others of it. */
  lemma StartupDoes(s: Sys, t: Tid)
    requires Placed(s) && t in s.tcb && s.tcb[t].stat == Initial
    ensures var c := s.tcb[t];
      && c.initPrio < |s.ready|
      && Startup(s, t) == s.(tcb := s.tcb[t := c.(stat := Ready, prio := c.initPrio)],
                             ready := s.ready[c.initPrio := s.ready[c.initPrio] + [t]])
  {
    Stands(s, t);
    assert !s.tcb[t].armed;
    hide Placed, WithoutAll;
  }

  /** A thread that ends leaves its ready list and is READY never again. */
  lemma ExitDoes(s: Sys, t: Tid)
    requires Placed(s) && t in s.tcb && s.tcb[t].stat == Ready
    ensures var c := s.tcb[t];
      && c.prio < |s.ready|
      && Exit(s, t) == s.(tcb := s.tcb[t := c.(stat := Closed)],
                          ready := s.ready[c.prio := Without(s.ready[c.prio], t)])
  {
    Stands(s, t);
    hide Placed, WithoutAll, Without;
  }

  // ---- Wait lists ----------------------------------------------------------------------------

  /** t stands at place n of l', in front of which only waiters of its priority or a higher one stand, and
      behind it the first one of a lower priority. */
  ghost predicate PutAt(tcb: map<Tid, Tcb>, l: seq<Tid>, l': seq<Tid>, t: Tid, n: nat) {
    && t in tcb && n <= |l| && l' == l[..n] + [t] + l[n..]
    && (forall i :: 0 <= i < n ==> l[i] in tcb && tcb[l[i]].prio <= tcb[t].prio)
    && (n < |l| ==> l[n] in tcb && tcb[t].prio < tcb[l[n]].prio)
  }

  /** A FIFO waiter stands at the end, a PRIO waiter where its priority belongs. */
  ghost predicate PutIn(tcb: map<Tid, Tcb>, l: seq<Tid>, l': seq<Tid>, t: Tid, flag: Flag) {
    if flag == FIFO then l' == l + [t] else exists n: nat :: PutAt(tcb, l, l', t, n)
  }

  lemma {:induction false} FirstLower(tcb: map<Tid, Tcb>, l: seq<Tid>, p: nat)
    requires forall t :: t in l ==> t in tcb
    ensures var n := PrioPosition(tcb, l, p);
      && (forall i :: 0 <= i < n ==> l[i] in tcb && tcb[l[i]].prio <= p)
      && (n < |l| ==> l[n] in tcb && p < tcb[l[n]].prio)
    decreases |l|
  {
    if l != [] && tcb[l[0]].prio <= p {
      assert forall t :: t in l[1..] ==> t in l;
      FirstLower(tcb, l[1..], p);
      var n := PrioPosition(tcb, l[1..], p);
      forall i | 0 <= i < n + 1 ensures l[i] in tcb && tcb[l[i]].prio <= p {
        if i > 0 { assert l[i] == l[1..][i - 1]; }
      }
    }
  }

  lemma InsertIs(l: seq<Tid>, n: nat, t: Tid)
    requires n <= |l|
    ensures Insert(l, n, t) == l[..n] + [t] + l[n..] && (n == |l| ==> Insert(l, n, t) == l + [t])
  {}

  lemma PutThere(tcb: map<Tid, Tcb>, l: seq<Tid>, t: Tid, n: nat)
    requires t in tcb && n <= |l| && forall i :: 0 <= i < n ==> l[i] in tcb && tcb[l[i]].prio <= tcb[t].prio
    requires n < |l| ==> l[n] in tcb && tcb[t].prio < tcb[l[n]].prio
    ensures PutIn(tcb, l, Insert(l, n, t), t, PRIO)
  {
    InsertIs(l, n, t);
    hide Insert;
    assert PutAt(tcb, l, Insert(l, n, t), t, n);
  }

  lemma PutWhere(tcb: map<Tid, Tcb>, l: seq<Tid>, t: Tid, flag: Flag)
    requires t in tcb && forall u :: u in l ==> u in tcb
    ensures var n := if flag == FIFO then |l| else PrioPosition(tcb, l, tcb[t].prio);
      PutIn(tcb, l, Insert(l, n, t), t, flag)
  {
    hide PutAt, Insert, PrioPosition;
    if flag == FIFO {
      InsertIs(l, |l|, t);
    } else {
      FirstLower(tcb, l, tcb[t].prio);
      hide PutIn;
      PutThere(tcb, l, t, PrioPosition(tcb, l, tcb[t].prio));
    }
  }

  /** The running thread is suspended and stands in wait list q where it belongs. */
  ghost predicate WaitsIn(s: Sys, s': Sys, q: nat, t: Tid, flag: Flag, c: Tcb) {
    && t in s.tcb && s.tcb[t].prio < |s.ready| && q < |s.wait| == |s'.wait|
    && s'.tcb == s.tcb[t := c]
    && s'.ready == s.ready[s.tcb[t].prio := Without(s.ready[s.tcb[t].prio], t)]
    && PutIn(s'.tcb, s.wait[q], s'.wait[q], t, flag)
    && (forall i :: 0 <= i < |s.wait| && i != q ==> s'.wait[i] == s.wait[i])
  }

  lemma EnqueueDoes(s: Sys, q: nat, t: Tid, flag: Flag)
    requires t in s.tcb && q < |s.wait| && forall u :: u in s.wait[q] ==> u in s.tcb
    ensures var s' := Enqueue(s, q, t, flag);
      && s'.tcb == s.tcb && s'.ready == s.ready && |s'.wait| == |s.wait|
      && PutIn(s.tcb, s.wait[q], s'.wait[q], t, flag)
      && (forall i :: 0 <= i < |s.wait| && i != q ==> s'.wait[i] == s.wait[i])
  {
    hide Insert, PutIn, PrioPosition;
    PutWhere(s.tcb, s.wait[q], t, flag);
  }

  lemma ListSuspendDoes(s: Sys, q: nat, t: Tid, flag: Flag)
    requires Placed(s) && q < |s.wait| && t in s.tcb && s.tcb[t].stat == Ready
    ensures WaitsIn(s, ListSuspend(s, q, t, flag), q, t, flag, s.tcb[t].(stat := Suspended))
  {
    hide Placed, Suspend, Enqueue, PutIn, Without;
    PlacedRanges(s);
    SuspendDoes(s, t);
    EnqueueDoes(Suspend(s, t), q, t, flag);
  }

  /** A blocking call: the error code is cleared, and the timer is on if and only if there is a timeout. */
  lemma BlockDoes(s: Sys, q: nat, t: Tid, flag: Flag, timed: bool)
    requires Placed(s) && q < |s.wait| && t in s.tcb && s.tcb[t].stat == Ready
    ensures WaitsIn(s, Block(s, q, t, flag, timed), q, t, flag,
                    s.tcb[t].(stat := Suspended, error := EOK, armed := timed))
  {
    hide Placed, ListSuspend, Without;
    ErrorPlaced(s, t, EOK);
    ReadyUnarmed(s, t);
    var s0 := SetError(s, t, EOK);
    ListSuspendDoes(s0, q, t, flag);
    var s1 := ListSuspend(s0, q, t, flag);
    assert s1.tcb == s.tcb[t := s.tcb[t].(stat := Suspended, error := EOK)];
    if timed { SamePut(s1.tcb, Arm(s1, t).tcb, s.wait[q], s1.wait[q], t, flag); }
  }

  /** The same with the error code left as it is. */
  lemma WaitDoes(s: Sys, q: nat, t: Tid, flag: Flag, timed: bool)
    requires Placed(s) && OpEnabled(s, OpWait(q, t, flag, timed))
    ensures WaitsIn(s, Perform(s, OpWait(q, t, flag, timed)), q, t, flag, s.tcb[t].(stat := Suspended, armed := timed))
  {
    hide Placed, ListSuspend, Without;
    ReadyUnarmed(s, t);
    ListSuspendDoes(s, q, t, flag);
    var s1 := ListSuspend(s, q, t, flag);
    if timed { SamePut(s1.tcb, Arm(s1, t).tcb, s.wait[q], s1.wait[q], t, flag); }
  }

  lemma SamePut(tcb: map<Tid, Tcb>, tcb': map<Tid, Tcb>, l: seq<Tid>, l': seq<Tid>, t: Tid, flag: Flag)
    requires PutIn(tcb, l, l', t, flag) && forall u :: u in tcb ==> u in tcb' && tcb'[u].prio == tcb[u].prio
    ensures PutIn(tcb', l, l', t, flag)
  {
    if flag != FIFO {
      var n: nat :| PutAt(tcb, l, l', t, n);
      assert PutAt(tcb', l, l', t, n);
    }
  }

  /** The first waiter of list q is READY behind all others of its priority; nobody waits: nothing. */
  ghost predicate FirstWoken(s: Sys, s': Sys, q: nat) {
    q < |s.wait| && if s.wait[q] == [] then s' == s else
      var t := s.wait[q][0];
      && t in s.tcb && s.tcb[t].prio < |s.ready|
      && s' == s.(tcb := s.tcb[t := s.tcb[t].(stat := Ready, armed := false)],
                  ready := s.ready[s.tcb[t].prio := s.ready[s.tcb[t].prio] + [t]], wait := s.wait[q := s.wait[q][1..]])
  }

  lemma WaiterOut(s: Sys, q: nat, t: Tid)
    requires Placed(s) && q < |s.wait| && t in s.wait[q]
    ensures WithoutAll(s.wait, t) == s.wait[q := Without(s.wait[q], t)] && t in s.tcb && s.tcb[t].stat == Suspended
  {
    assert forall j :: 0 <= j < |s.wait| && j != q ==> t !in s.wait[j];
    hide Placed;
    OnlyOne(s.wait, q, t);
  }

  lemma WakeDoes(s: Sys, q: nat)
    requires Placed(s) && q < |s.wait|
    ensures InRange(s, s.wait[q]) && FirstWoken(s, WakeFirst(s, q), q)
  {
    hide Resume, WithoutAll;
    PlacedRanges(s);
    hide Placed;
    if s.wait[q] != [] {
      ResumeDoes(s, s.wait[q][0]);
      WaiterOut(s, q, s.wait[q][0]);
      HeadWithout(s.wait[q]);
      hide Without;
    }
  }

  // ---- Waking everybody ----------------------------------------------------------------------

  /** The threads of l with priority p, in order. */
  function OfPriority(tcb: map<Tid, Tcb>, l: seq<Tid>, p: nat): seq<Tid>
    decreases |l|
  {
    if l == [] then [] else
      (if l[0] in tcb && tcb[l[0]].prio == p then [l[0]] else []) + OfPriority(tcb, l[1..], p)
  }

  lemma {:induction false} SamePriorities(tcb: map<Tid, Tcb>, tcb': map<Tid, Tcb>, l: seq<Tid>, p: nat)
    requires tcb'.Keys == tcb.Keys && forall t :: t in tcb ==> tcb'[t].prio == tcb[t].prio
    ensures OfPriority(tcb', l, p) == OfPriority(tcb, l, p)
    decreases |l|
  {
    if l != [] { SamePriorities(tcb, tcb', l[1..], p); }
  }

  lemma KickReady(s: Sys, q: nat)
    requires Placed(s) && q < |s.wait| && s.wait[q] != []
    ensures var t := s.wait[q][0];
      && t in s.tcb && s.tcb[t].prio < |s.ready|
      && Resume(SetError(s, t, ERROR), t).ready == s.ready[s.tcb[t].prio := s.ready[s.tcb[t].prio] + [t]]
  {
    hide Placed, Resume, WithoutAll;
    var t := s.wait[q][0];
    WaiterOut(s, q, t);
    ErrorPlaced(s, t, ERROR);
    ResumeDoes(SetError(s, t, ERROR), t);
  }

  /** rt_ipc_list_resume_all appends the waiters to their ready lists in the order they waited. */
  lemma {:induction false} ResumeAllReady(s: Sys, q: nat)
    requires Placed(s) && q < |s.wait|
    ensures InRange(s, s.wait[q])
    ensures var s' := ResumeAll(s, q);
      |s'.ready| == |s.ready| && forall p :: 0 <= p < |s.ready| ==>
        s'.ready[p] == s.ready[p] + OfPriority(s.tcb, s.wait[q], p)
    decreases |s.wait[q]|
  {
    hide Placed, Resume, Kicked;
    PlacedRanges(s);
    if s.wait[q] == [] {
      assert forall p :: 0 <= p < |s.ready| ==> s.ready[p] + OfPriority(s.tcb, s.wait[q], p) == s.ready[p];
    } else {
      ResumeAllStep(s, q);
      KickReady(s, q);
      var t := s.wait[q][0];
      var s1 := Resume(SetError(s, t, ERROR), t);
      hide InRange, ResumeAll;
      ResumeAllReady(s1, q);
      forall p | 0 <= p < |s.ready|
        ensures ResumeAll(s, q).ready[p] == s.ready[p] + OfPriority(s.tcb, s.wait[q], p)
      {
        KickedPriorities(s, s1, t, s.wait[q][1..], p);
        assert s1.ready[p] + OfPriority(s.tcb, s.wait[q][1..], p) == s.ready[p] + OfPriority(s.tcb, s.wait[q], p);
      }
    }
  }

  lemma KickedPriorities(s: Sys, s1: Sys, t: Tid, l: seq<Tid>, p: nat)
    requires t in s.tcb && s1.tcb == s.tcb[t := Kicked(s.tcb[t])]
    ensures OfPriority(s1.tcb, l, p) == OfPriority(s.tcb, l, p)
  {
    SamePriorities(s.tcb, s1.tcb, l, p);
  }

  // ---- Turns ---------------------------------------------------------------------------------

  /** The thread the scheduler runs: the longest waiting one of the best priority. */
  ghost predicate Chosen(s: Sys, t: Tid) {
    && t in s.tcb && s.tcb[t].stat == Ready
    && (forall u :: u in s.tcb && s.tcb[u].stat == Ready ==> s.tcb[t].prio <= s.tcb[u].prio)
    && s.tcb[t].prio < |s.ready| && s.ready[s.tcb[t].prio] != [] && t == s.ready[s.tcb[t].prio][0]
  }

  /** States between which the chosen thread runs and yields. */
  ghost predicate Turn(s: Sys, s': Sys, t: Tid) {
    Chosen(s, t) && s' == Yield(s, t)
  }

  ghost predicate TakeTurns(ss: seq<Sys>, ts: seq<Tid>) {
    |ss| == |ts| + 1 && forall i :: 0 <= i < |ts| ==> Turn(ss[i], ss[i + 1], ts[i])
  }

  lemma TurnDoes(s: Sys, s': Sys, t: Tid)
    requires Placed(s) && Turn(s, s', t)
    ensures Placed(s') && s.tcb[t].prio < |s.ready|
    ensures var p := s.tcb[t].prio; var l := s.ready[p];
      && s' == s.(ready := s.ready[p := l[1..] + [l[0]]])
      && forall u :: Chosen(s', u) ==> u in s.tcb && s.tcb[u].prio == p && u == s'.ready[p][0]
  {
    hide Placed, Yield, Without;
    YieldDoes(s, t);
    YieldPlaced(s, t);
  }

  /** Whoever is chosen has the best priority, which no turn changes. */
  lemma {:induction false} RoundRobinFrom(ss: seq<Sys>, ts: seq<Tid>, p: nat, l: seq<Tid>, m: seq<Tid>)
    requires |ss| > 0 && Placed(ss[0]) && TakeTurns(ss, ts) && p < |ss[0].ready| && ss[0].ready[p] == l + m && |ts| <= |l|
    requires forall u :: Chosen(ss[0], u) ==> ss[0].tcb[u].prio == p
    ensures ts == l[..|ts|]
    ensures ss[|ts|] == ss[0].(ready := ss[0].ready[p := l[|ts|..] + m + l[..|ts|]])
    decreases |ts|
  {
    if ts == [] {
      assert l[0..] + m + l[..0] == l + m;
      assert ss[0].ready[p := l + m] == ss[0].ready;
    } else {
      assert Turn(ss[0], ss[1], ts[0]);
      hide Placed, Yield, Turn, Chosen;
      FirstTurn(ss[0], ss[1], ts[0], p, l, m);
      RestTurns(ss, ts);
      hide TakeTurns;
      var k, l', m' := |ts|, l[1..], m + [l[0]];
      RoundRobinFrom(ss[1..], ts[1..], p, l', m');
      assert l'[k - 1..] + m' + l'[..k - 1] == l[k..] + m + l[..k];
      assert [l[0]] + l'[..k - 1] == l[..k];
      assert ss[1..][k - 1] == ss[k];
      assert ss[0].ready[p := l' + m'][p := l[k..] + m + l[..k]] == ss[0].ready[p := l[k..] + m + l[..k]];
    }
  }

  lemma FirstTurn(s: Sys, s': Sys, t: Tid, p: nat, l: seq<Tid>, m: seq<Tid>)
    requires Placed(s) && Turn(s, s', t) && p < |s.ready| && s.ready[p] == l + m && l != []
    requires forall u :: Chosen(s, u) ==> s.tcb[u].prio == p
    ensures Placed(s') && t == l[0] && s' == s.(ready := s.ready[p := l[1..] + (m + [l[0]])])
    ensures forall u :: Chosen(s', u) ==> s'.tcb[u].prio == p
  {
    TurnDoes(s, s', t);
    assert (l + m)[1..] + [(l + m)[0]] == l[1..] + (m + [l[0]]);
    hide Placed, Yield;
  }

  lemma RestTurns(ss: seq<Sys>, ts: seq<Tid>)
    requires TakeTurns(ss, ts) && ts != []
    ensures TakeTurns(ss[1..], ts[1..])
  {
    hide Turn;
    forall i | 0 <= i < |ts[1..]| ensures Turn(ss[1..][i], ss[1..][i + 1], ts[1..][i]) {
      assert Turn(ss[i + 1], ss[i + 2], ts[i + 1]);
    }
  }

  /** ts goes through l round after round. */
  ghost predicate Cycles(ts: seq<Tid>, l: seq<Tid>)
    decreases |ts|
  {
    l != [] && if |ts| <= |l| then ts == l[..|ts|] else ts[..|l|] == l && Cycles(ts[|l|..], l)
  }

  /** If each chosen thread runs and yields, the READY threads of the best priority run one after the
      other in the order of their ready list, round after round; and after a whole round everything is as
      it was. */
  lemma {:induction false} RoundRobin(ss: seq<Sys>, ts: seq<Tid>)
    requires |ss| > 0 && Placed(ss[0]) && TakeTurns(ss, ts) && ts != [] && Chosen(ss[0], ts[0])
    ensures var l := ss[0].ready[ss[0].tcb[ts[0]].prio];
      Cycles(ts, l) && (|ts| == |l| ==> ss[|ts|] == ss[0])
    decreases |ts|
  {
    hide Placed, TakeTurns, Turn;
    var l := ss[0].ready[ss[0].tcb[ts[0]].prio];
    if |ts| <= |l| {
      OneRound(ss, ts);
    } else {
      var k := |l|;
      FirstTurns(ss, ts, k);
      OneRound(ss[..k + 1], ts[..k]);
      LaterTurns(ss, ts, k);
      assert ss[k] == ss[..k + 1][k];
      assert ss[k..][0] == ss[k] && ts[k..][0] == ts[k];
      BestPriority(ss[0], ts[0], ts[k]);
      hide Chosen;
      RoundRobin(ss[k..], ts[k..]);
    }
  }

  lemma BestPriority(s: Sys, t: Tid, u: Tid)
    requires Chosen(s, t) && Chosen(s, u)
    ensures s.tcb[u].prio == s.tcb[t].prio
  {}

  lemma OneRound(ss: seq<Sys>, ts: seq<Tid>)
    requires |ss| > 0 && Placed(ss[0]) && TakeTurns(ss, ts) && ts != [] && Chosen(ss[0], ts[0])
    requires |ts| <= |ss[0].ready[ss[0].tcb[ts[0]].prio]|
    ensures var l := ss[0].ready[ss[0].tcb[ts[0]].prio];
      ts == l[..|ts|] && |ss| == |ts| + 1 && (|ts| == |l| ==> ss[|ts|] == ss[0])
  {
    var p := ss[0].tcb[ts[0]].prio;
    var l := ss[0].ready[p];
    assert l + [] == l;
    hide Placed, Turn;
    RoundRobinFrom(ss, ts, p, l, []);
    hide TakeTurns, Chosen;
    if |ts| == |l| { WholeRound(ss[0], p); }
  }

  lemma WholeRound(s: Sys, p: nat)
    requires p < |s.ready|
    ensures var l := s.ready[p]; s.(ready := s.ready[p := l[|l|..] + [] + l[..|l|]]) == s
  {
    var l := s.ready[p];
    assert l[|l|..] + [] + l[..|l|] == l && s.ready[p := l] == s.ready;
  }

  lemma FirstTurns(ss: seq<Sys>, ts: seq<Tid>, k: nat)
    requires TakeTurns(ss, ts) && k <= |ts|
    ensures |ss| == |ts| + 1 && TakeTurns(ss[..k + 1], ts[..k])
  {
    hide Turn;
    forall i | 0 <= i < k ensures Turn(ss[..k + 1][i], ss[..k + 1][i + 1], ts[..k][i]) {
      assert Turn(ss[i], ss[i + 1], ts[i]);
    }
  }

  lemma LaterTurns(ss: seq<Sys>, ts: seq<Tid>, k: nat)
    requires TakeTurns(ss, ts) && k < |ts|
    ensures |ss| == |ts| + 1 && TakeTurns(ss[k..], ts[k..]) && Chosen(ss[k], ts[k])
  {
    hide Chosen;
    assert Turn(ss[k], ss[k + 1], ts[k]);
    forall i | 0 <= i < |ts[k..]| ensures Turn(ss[k..][i], ss[k..][i + 1], ts[k..][i]) {
      assert Turn(ss[k + i], ss[k + i + 1], ts[k + i]);
    }
  }
}
