/** Every thread operation keeps the placement invariant. */
module ThreadLemmas {
  import opened Base
  import opened Threads

  /** Where a thread may stand: its TCB and the wait lists agree, and it is in no ready list. */
  ghost predicate Loose(s: Sys, t: Tid) {
    && t in s.tcb && s.tcb[t].prio < |s.ready| && s.tcb[t].initPrio < |s.ready|
    && (forall p :: 0 <= p < |s.ready| ==> t !in s.ready[p])
    && (forall q :: 0 <= q < |s.wait| ==> t !in s.wait[q])
  }

  /** Everybody but t is placed. */
  ghost predicate PlacedBut(s: Sys, t: Tid) {
    && (forall p :: 0 <= p < |s.ready| ==> NoDup(s.ready[p]))
    && (forall p, u :: 0 <= p < |s.ready| && u in s.ready[p] && u != t
                  ==> u in s.tcb && s.tcb[u].stat == Ready && s.tcb[u].prio == p)
    && (forall u :: u in s.tcb ==> s.tcb[u].prio < |s.ready| && s.tcb[u].initPrio < |s.ready|)
    && (forall u :: u in s.tcb && u != t && s.tcb[u].stat == Ready ==> u in s.ready[s.tcb[u].prio])
    && (forall q :: 0 <= q < |s.wait| ==> NoDup(s.wait[q]))
    && (forall q, u :: 0 <= q < |s.wait| && u in s.wait[q] && u != t
                  ==> u in s.tcb && s.tcb[u].stat == Suspended)
    && (forall q, r, u :: 0 <= q < r < |s.wait| && u in s.wait[q] && u != t ==> u !in s.wait[r])
    && (forall u :: u in s.tcb && u != t && s.tcb[u].armed ==> s.tcb[u].stat == Suspended)
  }

  lemma PlacedIsPlacedBut(s: Sys, t: Tid)
    requires Placed(s)
    ensures PlacedBut(s, t)
  {}

  /** Changing t's own TCB does not disturb the others. */
  lemma OwnTcb(s: Sys, t: Tid, c: Tcb)
    requires PlacedBut(s, t) && t in s.tcb && c.prio < |s.ready| && c.initPrio < |s.ready|
    ensures PlacedBut(s.(tcb := s.tcb[t := c]), t)
  {}

  lemma DetachLoose(s: Sys, t: Tid)
    requires PlacedBut(s, t) && t in s.tcb
    ensures PlacedBut(Detach(s, t), t) && Loose(Detach(s, t), t)
  {
    hide NoDup, Without, WithoutAll;
    var d := Detach(s, t);
    assert forall p :: 0 <= p < |s.ready| ==> d.ready[p] == Without(s.ready[p], t);
    assert forall q :: 0 <= q < |s.wait| ==> d.wait[q] == Without(s.wait[q], t);
    forall q, r, u | 0 <= q < r < |s.wait| && u in d.wait[q] && u != t ensures u !in d.wait[r] {
      assert u in s.wait[q] && u !in s.wait[r];
    }
  }

  lemma LooseSuspended(s: Sys, t: Tid)
    requires PlacedBut(s, t) && Loose(s, t) && s.tcb[t].stat == Suspended
    ensures Placed(s)
  {
    hide NoDup;
  }

  lemma InsertReadyLists(s: Sys, t: Tid)
    requires PlacedBut(s, t) && Loose(s, t)
    ensures ReadyPlaced(InsertReady(s, t))
  {
    var s', p := InsertReady(s, t), s.tcb[t].prio;
    NoDupEnds(s.ready[p], t);
    hide NoDup;
    assert s'.ready[p] == s.ready[p] + [t];
    assert forall i :: 0 <= i < |s.ready| && i != p ==> s'.ready[i] == s.ready[i];
  }

  lemma InsertReadyPlaced(s: Sys, t: Tid)
    requires PlacedBut(s, t) && Loose(s, t) && !s.tcb[t].armed
    ensures Placed(InsertReady(s, t))
  {
    hide NoDup, ReadyPlaced;
    InsertReadyLists(s, t);
  }

  lemma ErrorPlaced(s: Sys, t: Tid, e: Err)
    requires Placed(s) && t in s.tcb
    ensures Placed(SetError(s, t, e))
  {}

  lemma SuspendPlaced(s: Sys, t: Tid)
    requires Placed(s) && t in s.tcb
    ensures Placed(Suspend(s, t)) && Suspend(s, t).tcb.Keys == s.tcb.Keys
    ensures s.tcb[t].stat == Ready ==> Loose(Suspend(s, t), t) && Suspend(s, t).wait == s.wait
  {
    hide NoDup, PlacedBut, Loose;
    PlacedRanges(s);
    if s.tcb[t].stat == Ready {
      var c := s.tcb[t].(stat := Suspended);
      PlacedIsPlacedBut(s, t);
      OwnTcb(s, t, c);
      assert forall q :: 0 <= q < |s.wait| ==> t !in s.wait[q];
      hide Placed;
      DetachLoose(s.(tcb := s.tcb[t := c]), t);
      LooseSuspended(Suspend(s, t), t);
      assert Suspend(s, t).wait == s.wait;
    }
  }

  lemma ResumePlaced(s: Sys, t: Tid)
    requires Placed(s) && t in s.tcb
    ensures Placed(Resume(s, t))
  {
    hide NoDup, Placed, PlacedBut, Loose;
    PlacedRanges(s);
    if s.tcb[t].stat == Suspended {
      var c := s.tcb[t].(armed := false);
      PlacedIsPlacedBut(s, t);
      OwnTcb(s, t, c);
      DetachLoose(s.(tcb := s.tcb[t := c]), t);
      InsertReadyPlaced(Detach(s.(tcb := s.tcb[t := c]), t), t);
    }
  }

  lemma PlacedRanges(s: Sys)
    requires Placed(s)
    ensures forall t :: t in s.tcb ==> s.tcb[t].prio < |s.ready| && s.tcb[t].initPrio < |s.ready|
    ensures forall q, t :: 0 <= q < |s.wait| && t in s.wait[q] ==> t in s.tcb
  {}

  lemma TimeoutPlaced(s: Sys, t: Tid)
    requires Placed(s) && t in s.tcb
    ensures Placed(Timeout(s, t))
  {
    hide NoDup, Placed, PlacedBut, Loose;
    PlacedRanges(s);
    var c := s.tcb[t].(error := ETIMEOUT, armed := false);
    PlacedIsPlacedBut(s, t);
    OwnTcb(s, t, c);
    DetachLoose(s.(tcb := s.tcb[t := c]), t);
    InsertReadyPlaced(Detach(s.(tcb := s.tcb[t := c]), t), t);
  }

  lemma ArmPlaced(s: Sys, t: Tid)
    requires Placed(s) && t in s.tcb && s.tcb[t].stat == Suspended
    ensures Placed(Arm(s, t))
  {}

  lemma RotatedMembers(l: seq<Tid>, t: Tid)
    requires NoDup(l) && t in l
    ensures NoDup(Without(l, t) + [t]) && forall u :: u in Without(l, t) + [t] <==> u in l
  {
    NoDupEnds(Without(l, t), t);
    hide NoDup;
  }

  lemma YieldReady(s: Sys, t: Tid)
    requires ReadyPlaced(s) && t in s.tcb && s.tcb[t].stat == Ready
    ensures ReadyPlaced(Yield(s, t))
  {
    var p := s.tcb[t].prio;
    hide NoDup, Without;
    RotatedMembers(s.ready[p], t);
    var s' := Yield(s, t);
    assert forall i :: 0 <= i < |s.ready| && i != p ==> s'.ready[i] == s.ready[i];
  }

  lemma YieldPlaced(s: Sys, t: Tid)
    requires Placed(s) && t in s.tcb
    ensures Placed(Yield(s, t))
  {
    PlacedRanges(s);
    hide NoDup, Without, ReadyPlaced;
    if s.tcb[t].stat == Ready { YieldReady(s, t); }
  }

  lemma ChangePriorityPlaced(s: Sys, t: Tid, p: nat)
    requires Placed(s) && t in s.tcb && p < |s.ready|
    ensures Placed(ChangePriority(s, t, p))
  {
    hide NoDup;
    PlacedRanges(s);
    var c := s.tcb[t].(prio := p);
    if s.tcb[t].stat == Ready {
      PlacedIsPlacedBut(s, t);
      OwnTcb(s, t, c);
      hide Placed, PlacedBut;
      DetachLoose(s.(tcb := s.tcb[t := c]), t);
      InsertReadyPlaced(Detach(s.(tcb := s.tcb[t := c]), t), t);
    }
  }

  lemma StartupPlaced(s: Sys, t: Tid)
    requires Placed(s) && t in s.tcb && s.tcb[t].stat == Initial
    ensures Placed(Startup(s, t))
  {
    var c := s.tcb[t].(prio := s.tcb[t].initPrio, stat := Suspended);
    assert Placed(s.(tcb := s.tcb[t := c]));
    ResumePlaced(s.(tcb := s.tcb[t := c]), t);
  }

  lemma EnqueuePlaced(s: Sys, q: nat, t: Tid, flag: Flag)
    requires Placed(s) && q < |s.wait| && Loose(s, t) && s.tcb[t].stat == Suspended
    ensures Placed(Enqueue(s, q, t, flag))
  {
    hide NoDup, Insert, ReadyPlaced, PrioPosition;
    var n := if flag == FIFO then |s.wait[q]| else PrioPosition(s.tcb, s.wait[q], s.tcb[t].prio);
    InsertNoDup(s.wait[q], n, t);
    var s' := Enqueue(s, q, t, flag);
    assert s'.wait[q] == Insert(s.wait[q], n, t);
    assert forall i :: 0 <= i < |s.wait| && i != q ==> s'.wait[i] == s.wait[i];
    assert ReadyPlaced(s') by { SameReady(s, s'.wait); }
  }

  /** t has joined wait list q, nothing else changed. */
  ghost predicate Joined(w: seq<seq<Tid>>, w': seq<seq<Tid>>, q: nat, t: Tid) {
    && |w'| == |w| && q < |w| && t !in w[q] && |w'[q]| == |w[q]| + 1
    && (forall i :: 0 <= i < |w| && i != q ==> w'[i] == w[i])
    && (forall u :: u in w'[q] <==> u == t || u in w[q])
  }

  /** The calling thread, which is READY, goes to sleep in wait list q. */
  lemma ListSuspendPlaced(s: Sys, q: nat, t: Tid, flag: Flag)
    requires Placed(s) && q < |s.wait| && t in s.tcb && s.tcb[t].stat == Ready
    ensures Placed(ListSuspend(s, q, t, flag))
    ensures var s' := ListSuspend(s, q, t, flag);
      s'.tcb == s.tcb[t := s.tcb[t].(stat := Suspended)] && Joined(s.wait, s'.wait, q, t)
  {
    hide NoDup, Placed;
    PlacedRanges(s);
    SuspendPlaced(s, t);
    var s1 := Suspend(s, t);
    EnqueuePlaced(s1, q, t, flag);
    var n := if flag == FIFO then |s.wait[q]| else PrioPosition(s1.tcb, s.wait[q], s1.tcb[t].prio);
    InsertMembers(s.wait[q], n, t);
  }

  lemma HeadWithout(l: seq<Tid>)
    requires l != []
    ensures Without(l, l[0]) == l[1..]
  {}

  lemma ResumeShape(s: Sys, t: Tid)
    requires t in s.tcb && s.tcb[t].stat == Suspended && s.tcb[t].prio < |s.ready|
    ensures var s' := Resume(s, t);
      && s'.tcb == s.tcb[t := s.tcb[t].(stat := Ready, armed := false)] && |s'.wait| == |s.wait|
      && forall i :: 0 <= i < |s.wait| ==> s'.wait[i] == Without(s.wait[i], t)
  {
    hide Without;
  }

  /** Resuming a waiting thread takes it out of its own list and touches nothing else there. */
  lemma ResumeEffect(s: Sys, q: nat, t: Tid)
    requires Placed(s) && q < |s.wait| && t in s.wait[q]
    ensures t in s.tcb
    ensures var s' := Resume(s, t);
      && Placed(s') && s'.tcb == s.tcb[t := s.tcb[t].(stat := Ready, armed := false)]
      && |s'.wait| == |s.wait| && s'.wait[q] == Without(s.wait[q], t)
      && (forall i :: 0 <= i < |s.wait| && i != q ==> s'.wait[i] == s.wait[i])
  {
    assert s.tcb[t].stat == Suspended && forall i :: 0 <= i < |s.wait| && i != q ==> t !in s.wait[i];
    PlacedRanges(s);
    ResumePlaced(s, t);
    hide Placed, Resume;
    ResumeShape(s, t);
  }

  lemma TimeoutEffect(s: Sys, t: Tid)
    requires Placed(s) && t in s.tcb
    ensures s.tcb[t].prio < |s.ready|
    ensures var s' := Timeout(s, t);
      && Placed(s') && s'.tcb == s.tcb[t := s.tcb[t].(stat := Ready, error := ETIMEOUT, armed := false)]
      && |s'.wait| == |s.wait|
      && (forall i :: 0 <= i < |s.wait| ==> s'.wait[i] == Without(s.wait[i], t))
  {
    hide Placed, Timeout;
    PlacedRanges(s);
    TimeoutPlaced(s, t);
    TimeoutShape(s, t);
  }

  lemma TimeoutShape(s: Sys, t: Tid)
    requires t in s.tcb && s.tcb[t].prio < |s.ready|
    ensures var s' := Timeout(s, t);
      && s'.tcb == s.tcb[t := s.tcb[t].(stat := Ready, error := ETIMEOUT, armed := false)]
      && |s'.wait| == |s.wait|
      && forall i :: 0 <= i < |s.wait| ==> s'.wait[i] == Without(s.wait[i], t)
  {
    hide Without;
  }

  /** A resumed thread can not time out from the wait it was resumed from. */
  lemma ResumedCannotTimeOut(s: Sys, q: nat, t: Tid)
    requires Placed(s) && q < |s.wait| && t in s.wait[q]
    ensures var s' := Resume(s, t); t in s'.tcb && !s'.tcb[t].armed && Placed(s')
    ensures forall r :: 0 <= r < |s.wait| ==> t !in Resume(s, t).wait[r]
  {
    ResumeEffect(s, q, t);
  }

  // ---- Waking everybody ----------------------------------------------------------------------

  /** A thread after rt_ipc_list_resume_all: READY with an error code and no timer. */
  function Kicked(c: Tcb): Tcb {
    c.(stat := Ready, error := ERROR, armed := false)
  }

  lemma KickHead(s: Sys, q: nat)
    requires Placed(s) && q < |s.wait| && s.wait[q] != []
    ensures var t := s.wait[q][0];
      && t in s.tcb && s.tcb[t].prio < |s.ready|
      && var s' := Resume(SetError(s, t, ERROR), t);
      && Placed(s') && s'.tcb == s.tcb[t := Kicked(s.tcb[t])]
      && |s'.wait| == |s.wait| && s'.wait[q] == s.wait[q][1..]
      && (forall i :: 0 <= i < |s.wait| && i != q ==> s'.wait[i] == s.wait[i])
  {
    hide Placed, Resume, Without;
    PlacedRanges(s);
    var t := s.wait[q][0];
    ErrorPlaced(s, t, ERROR);
    HeadWithout(s.wait[q]);
    ResumeEffect(SetError(s, t, ERROR), q, t);
  }

  lemma ResumeAllStep(s: Sys, q: nat)
    requires Placed(s) && q < |s.wait| && s.wait[q] != [] && InRange(s, s.wait[q])
    ensures var t := s.wait[q][0];
      && t in s.tcb && s.tcb[t].prio < |s.ready|
      && var s1 := Resume(SetError(s, t, ERROR), t);
      && Placed(s1) && s1.tcb == s.tcb[t := Kicked(s.tcb[t])]
      && |s1.wait| == |s.wait| && s1.wait[q] == s.wait[q][1..]
      && (forall i :: 0 <= i < |s.wait| && i != q ==> s1.wait[i] == s.wait[i])
      && InRange(s1, s1.wait[q]) && ResumeAll(s, q) == ResumeAll(s1, q)
  {
    KickHead(s, q);
    PlacedRanges(Resume(SetError(s, s.wait[q][0], ERROR), s.wait[q][0]));
    hide Placed, Resume, SetError, Kicked;
  }

  /** rt_ipc_list_resume_all empties its list and changes nobody who was not in it. */
  lemma {:induction false} ResumeAllEffect(s: Sys, q: nat)
    requires Placed(s) && q < |s.wait|
    ensures InRange(s, s.wait[q])
    ensures var s' := ResumeAll(s, q);
      && Placed(s') && s'.tcb.Keys == s.tcb.Keys && |s'.wait| == |s.wait| && s'.wait[q] == []
      && (forall i :: 0 <= i < |s.wait| && i != q ==> s'.wait[i] == s.wait[i])
      && (forall t :: t in s.tcb ==> s'.tcb[t] == (if t in s.wait[q] then Kicked(s.tcb[t]) else s.tcb[t]))
    decreases |s.wait[q]|
  {
    hide Placed, Resume, Kicked;
    PlacedRanges(s);
    if s.wait[q] != [] {
      ResumeAllStep(s, q);
      HeadOnce(s, q);
      var s1 := Resume(SetError(s, s.wait[q][0], ERROR), s.wait[q][0]);
      hide InRange, ResumeAll;
      ResumeAllEffect(s1, q);
    }
  }

  lemma HeadOnce(s: Sys, q: nat)
    requires Placed(s) && q < |s.wait| && s.wait[q] != []
    ensures s.wait[q][0] !in s.wait[q][1..] && s.wait[q][0] in s.tcb
    ensures forall t :: t in s.wait[q] <==> t == s.wait[q][0] || t in s.wait[q][1..]
  {}

  // ---- Priority order ------------------------------------------------------------------------

  ghost predicate Sorted(tcb: map<Tid, Tcb>, l: seq<Tid>) {
    && (forall t :: t in l ==> t in tcb)
    && forall i, j :: 0 <= i < j < |l| ==> tcb[l[i]].prio <= tcb[l[j]].prio
  }

  /** A PRIO wait list is kept in priority order, equal priorities in order of arrival. */
  lemma PrioInsert(tcb: map<Tid, Tcb>, l: seq<Tid>, t: Tid)
    requires Sorted(tcb, l) && t in tcb
    ensures var n := PrioPosition(tcb, l, tcb[t].prio);
      && (forall i :: 0 <= i < n ==> tcb[l[i]].prio <= tcb[t].prio)
      && (forall i :: n <= i < |l| ==> tcb[t].prio < tcb[l[i]].prio)
      && Sorted(tcb, Insert(l, n, t))
  {
    hide PrioPosition, Insert, Sorted;
    PositionSplits(tcb, l, tcb[t].prio);
    SortedInsert(tcb, l, PrioPosition(tcb, l, tcb[t].prio), t);
  }

  lemma SortedInsert(tcb: map<Tid, Tcb>, l: seq<Tid>, n: nat, t: Tid)
    requires Sorted(tcb, l) && t in tcb && n <= |l|
    requires forall i :: 0 <= i < n ==> l[i] in tcb && tcb[l[i]].prio <= tcb[t].prio
    requires forall i :: n <= i < |l| ==> l[i] in tcb && tcb[t].prio < tcb[l[i]].prio
    ensures Sorted(tcb, Insert(l, n, t))
  {
    InsertMembers(l, n, t);
    hide Insert;
    var r := Insert(l, n, t);
    InsertAt(l, n, t, 0);
    forall i, j | 0 <= i < j < |r| ensures tcb[r[i]].prio <= tcb[r[j]].prio {
      InsertAt(l, n, t, i);
      InsertAt(l, n, t, j);
      if j < n {
        assert tcb[l[i]].prio <= tcb[l[j]].prio;
      } else if i > n {
        assert tcb[l[i - 1]].prio <= tcb[l[j - 1]].prio;
      }
    }
  }

  lemma {:induction false} PositionSplits(tcb: map<Tid, Tcb>, l: seq<Tid>, p: nat)
    requires Sorted(tcb, l)
    ensures var n := PrioPosition(tcb, l, p);
      && (forall i :: 0 <= i < n ==> l[i] in tcb && tcb[l[i]].prio <= p)
      && (forall i :: n <= i < |l| ==> l[i] in tcb && p < tcb[l[i]].prio)
  {
    if l != [] && tcb[l[0]].prio <= p {
      PositionSplits(tcb, l[1..], p);
      var n := PrioPosition(tcb, l[1..], p);
      forall i | 0 <= i < |l| ensures i < n + 1 ==> tcb[l[i]].prio <= p
                              ensures i >= n + 1 ==> p < tcb[l[i]].prio {
        if i > 0 { assert l[i] == l[1..][i - 1]; }
      }
    }
  }

  /** Wait lists nobody waits in. */
  lemma NobodyWaits(s: Sys, lists: seq<seq<Tid>>)
    requires Placed(s) && forall q :: 0 <= q < |lists| ==> lists[q] == []
    ensures Placed(s.(wait := lists))
  {
    hide ReadyPlaced;
    assert ReadyPlaced(s.(wait := lists)) by { SameReady(s, lists); }
  }

  lemma SameReady(s: Sys, lists: seq<seq<Tid>>)
    requires ReadyPlaced(s)
    ensures ReadyPlaced(s.(wait := lists))
  {
    hide NoDup;
  }

  // ---- Runs ----------------------------------------------------------------------------------

  lemma ExitPlaced(s: Sys, t: Tid)
    requires Placed(s) && t in s.tcb && s.tcb[t].stat == Ready
    ensures Placed(Exit(s, t))
  {
    hide NoDup, PlacedBut, Loose;
    var c := s.tcb[t].(stat := Closed);
    PlacedIsPlacedBut(s, t);
    PlacedRanges(s);
    OwnTcb(s, t, c);
    DetachLoose(s.(tcb := s.tcb[t := c]), t);
    assert !c.armed;
    LooseClosed(Exit(s, t), t);
  }

  lemma LooseClosed(s: Sys, t: Tid)
    requires PlacedBut(s, t) && Loose(s, t) && s.tcb[t].stat == Closed && !s.tcb[t].armed
    ensures Placed(s)
  {
    hide NoDup;
  }

  lemma PerformPlaced(s: Sys, op: Op)
    requires Placed(s) && OpEnabled(s, op)
    ensures Placed(Perform(s, op))
  {
    PlacedRanges(s);
    match op
    case OpStartup(t) => StartupPlaced(s, t);
    case OpSuspend(t) => SuspendPlaced(s, t);
    case OpResume(t) => ResumePlaced(s, t);
    case OpSleep(t) => SleepPlaced(s, t);
    case OpYield(t) => YieldPlaced(s, t);
    case OpTimeout(t) => TimeoutPlaced(s, t);
    case OpPriority(t, p) => ChangePriorityPlaced(s, t, p);
    case OpExit(t) => ExitPlaced(s, t);
    case OpWait(q, t, flag, timed) =>
      ListSuspendPlaced(s, q, t, flag);
      if timed { ArmPlaced(ListSuspend(s, q, t, flag), t); }
    case OpWake(q) => ResumePlaced(s, s.wait[q][0]);
    case OpWakeAll(q) => ResumeAllEffect(s, q);
  }

  lemma SleepPlaced(s: Sys, t: Tid)
    requires Placed(s) && t in s.tcb && s.tcb[t].stat == Ready
    ensures Placed(Sleep(s, t))
    ensures Sleep(s, t).tcb == s.tcb[t := s.tcb[t].(stat := Suspended, armed := true)]
    ensures Sleep(s, t).wait == s.wait
  {
    SuspendPlaced(s, t);
    ArmPlaced(Suspend(s, t), t);
  }

  /** Over every run of thread, timer and wait-list operations every thread stays where its state
      says it is. */
  lemma {:induction false} RunPlaced(s: Sys, ops: seq<Op>)
    requires Placed(s) && OpsEnabled(s, ops)
    ensures Placed(RunOps(s, ops))
    decreases |ops|
  {
    if ops != [] {
      PerformPlaced(s, ops[0]);
      RunPlaced(Perform(s, ops[0]), ops[1..]);
    }
  }

  // ---- Blocking calls ------------------------------------------------------------------------

  lemma ReadyUnarmed(s: Sys, t: Tid)
    requires Placed(s) && t in s.tcb && s.tcb[t].stat == Ready
    ensures !s.tcb[t].armed
  {
    hide ReadyPlaced, WaitPlaced;
  }

  lemma UntimedBlock(s: Sys, q: nat, t: Tid, flag: Flag)
    requires Placed(s) && q < |s.wait| && t in s.tcb && s.tcb[t].stat == Ready
    ensures !s.tcb[t].armed
    ensures var s' := ListSuspend(SetError(s, t, EOK), q, t, flag);
      && Placed(s') && s'.tcb == s.tcb[t := s.tcb[t].(stat := Suspended, error := EOK)]
      && Joined(s.wait, s'.wait, q, t)
  {
    hide Placed, ListSuspend, Joined;
    ReadyUnarmed(s, t);
    ErrorPlaced(s, t, EOK);
    ListSuspendPlaced(SetError(s, t, EOK), q, t, flag);
  }

  lemma BlockEffect(s: Sys, q: nat, t: Tid, flag: Flag, timed: bool)
    requires Placed(s) && q < |s.wait| && t in s.tcb && s.tcb[t].stat == Ready
    ensures var s' := Block(s, q, t, flag, timed);
      && Placed(s') && s'.tcb == s.tcb[t := s.tcb[t].(stat := Suspended, error := EOK, armed := timed)]
      && Joined(s.wait, s'.wait, q, t)
  {
    hide Placed, ListSuspend, Joined;
    UntimedBlock(s, q, t, flag);
    if timed { ArmPlaced(ListSuspend(SetError(s, t, EOK), q, t, flag), t); }
  }

  /** The first thread of wait list q has left it, nothing else changed. */
  ghost predicate Popped(w: seq<seq<Tid>>, w': seq<seq<Tid>>, q: nat) {
    && |w'| == |w| && q < |w| && w[q] != [] && w'[q] == w[q][1..]
    && (forall i :: 0 <= i < |w| && i != q ==> w'[i] == w[i])
  }

  lemma WakeEffect(s: Sys, q: nat)
    requires Placed(s) && q < |s.wait|
    ensures InRange(s, s.wait[q])
    ensures s.wait[q] == [] ==> WakeFirst(s, q) == s
    ensures s.wait[q] != [] ==>
      var s', t := WakeFirst(s, q), s.wait[q][0];
      && t in s.tcb && s.tcb[t].stat == Suspended
      && Placed(s') && s'.tcb == s.tcb[t := s.tcb[t].(stat := Ready, armed := false)]
      && Popped(s.wait, s'.wait, q)
  {
    PlacedRanges(s);
    if s.wait[q] != [] {
      HeadWithout(s.wait[q]);
      assert s.tcb[s.wait[q][0]].stat == Suspended;
      hide Placed, Resume;
      ResumeEffect(s, q, s.wait[q][0]);
    }
  }

  /** One round of the search of rt_ipc_list_suspend. */
  lemma {:induction false} PositionStep(tcb: map<Tid, Tcb>, l: seq<Tid>, p: nat, n: nat)
    requires n < |l| && l[n] in tcb && tcb[l[n]].prio <= p
    requires n + PrioPosition(tcb, l[n..], p) == PrioPosition(tcb, l, p)
    ensures n + 1 + PrioPosition(tcb, l[n + 1..], p) == PrioPosition(tcb, l, p)
  {
    assert l[n..][1..] == l[n + 1..];
  }

  /** The remaining timeout is the original one less the ticks passed, and never negative, if and only
      if at most half the tick range more than the timeout has passed; after that it comes out
      positive again. */
  lemma TimeLeftIs(timeout: int, start: int, now: int)
    requires timeout < TICKS / 2 && 0 <= start < TICKS && 0 <= now < TICKS
    ensures timeout <= 0 ==> TimeLeft(timeout, start, now) == timeout
    ensures timeout > 0 ==> var passed := (now - start) % TICKS;
      && (TimeLeft(timeout, start, now) == Max(0, timeout - passed) <==> passed <= timeout + TICKS / 2)
      && (passed > timeout + TICKS / 2 ==> TimeLeft(timeout, start, now) == timeout - passed + TICKS > 0)
  {}

  /** The half range is met: 2147483660 ticks after a timeout of 10 began, nearly as many are left. */
  lemma LateTimeLeft()
    ensures TimeLeft(10, 0, 0x8000_000C) == 0x7FFF_FFFE
  {}

  /** If anything is left, the due tick is the same, as the 32-bit tick counts. */
  lemma SameDue(timeout: int, start: int, now: int)
    requires timeout > 0 && TimeLeft(timeout, start, now) != 0
    ensures TimeLeft(timeout, start, now) > 0
    ensures (now + TimeLeft(timeout, start, now)) % TICKS == (start + timeout) % TICKS
  {
    var d := now - start;
    assert (timeout - d % TICKS) % TICKS == (timeout - d) % TICKS;
    assert (now + (timeout - d) % TICKS) % TICKS == (now + timeout - d) % TICKS;
  }
}
