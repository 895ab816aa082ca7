/** The kernel's thread operations as they update the thread table, the ready table and the wait
    lists in place (software/src/thread.c, software/src/ipc.c:82-182). */
module Kernel {
  import opened Base
  import opened Threads
  import opened ThreadLemmas
  import opened ThreadEffects
  import opened ReadyTable

  /** A READY thread is in no other ready list and in no wait list. */
  lemma DetachReady(s: Sys, t: Tid, c: Tcb)
    requires Placed(s) && t in s.tcb && s.tcb[t].stat == Ready
    ensures t in s.ready[s.tcb[t].prio]
    ensures var p := s.tcb[t].prio;
      && WithoutAll(s.ready, t) == s.ready[p := Without(s.ready[p], t)]
      && WithoutAll(s.wait, t) == s.wait
  {
    var p := s.tcb[t].prio;
    assert forall i :: 0 <= i < |s.ready| && i != p ==> t !in s.ready[i];
    assert forall i :: 0 <= i < |s.wait| ==> t !in s.wait[i];
  }

  /** A suspended thread is in no ready list. */
  lemma DetachSuspended(s: Sys, t: Tid)
    requires Placed(s) && t in s.tcb && s.tcb[t].stat != Ready
    ensures WithoutAll(s.ready, t) == s.ready
  {
    assert forall i :: 0 <= i < |s.ready| ==> t !in s.ready[i];
  }

  /** Before the first thread is started all lists are empty. */
  lemma NobodyStarted(s: Sys)
    requires (forall p :: 0 <= p < |s.ready| ==> s.ready[p] == []) && (forall q :: 0 <= q < |s.wait| ==> s.wait[q] == [])
    requires forall t :: t in s.tcb ==>
      s.tcb[t].stat == Initial && !s.tcb[t].armed && s.tcb[t].prio < |s.ready| && s.tcb[t].initPrio < |s.ready|
    ensures Placed(s)
  {}

  /** A thread on its way from Initial to READY. */
  lemma AwakePlaced(s: Sys, t: Tid)
    requires Placed(s) && t in s.tcb && s.tcb[t].stat == Initial
    ensures Placed(s.(tcb := s.tcb[t := s.tcb[t].(prio := s.tcb[t].initPrio, stat := Suspended)]))
  {}

  /** The first thread of the first ready list outranks all READY threads. */
  lemma FirstOutranks(s: Sys, p: nat)
    requires Placed(s) && FirstReady(s.ready, p)
    ensures s.ready[p][0] in s.tcb && s.tcb[s.ready[p][0]].stat == Ready && s.tcb[s.ready[p][0]].prio == p
    ensures forall u :: u in s.tcb && s.tcb[u].stat == Ready ==> p <= s.tcb[u].prio
  {
    assert s.ready[p][0] in s.ready[p];
    forall u | u in s.tcb && s.tcb[u].stat == Ready ensures p <= s.tcb[u].prio {
      assert u in s.ready[s.tcb[u].prio];
    }
  }

  lemma SomeReady(s: Sys, u: Tid)
    requires Placed(s) && u in s.tcb && s.tcb[u].stat == Ready
    ensures s.tcb[u].prio < |s.ready| && s.ready[s.tcb[u].prio] != []
  {
    assert u in s.ready[s.tcb[u].prio];
  }

  /** Every started thread carries the attribute of its current priority. */
  ghost predicate AttrsAgree(max: nat, tcb: map<Tid, Tcb>, attr: map<Tid, Attr>) {
    && max <= LIMIT && attr.Keys == tcb.Keys
    && (forall t :: t in tcb && tcb[t].stat != Initial ==> tcb[t].prio < max && attr[t] == AttrOf(max, tcb[t].prio))
  }

  /** The bits of the ready table and those the threads carry. */
  ghost predicate BitsInOrder(max: nat, table: seq<seq<Tid>>, ready: seq<bv8>, group: bv32,
                              tcb: map<Tid, Tcb>, attr: map<Tid, Attr>) {
    BitsAgree(max, table, ready, group) && AttrsAgree(max, tcb, attr)
  }

  lemma AttrOwn(max: nat, tcb: map<Tid, Tcb>, attr: map<Tid, Attr>, t: Tid)
    requires AttrsAgree(max, tcb, attr) && t in tcb && tcb[t].stat != Initial
    ensures t in attr && tcb[t].prio < max <= LIMIT && attr[t] == AttrOf(max, tcb[t].prio)
  {}

  /** A change that leaves the priorities alone and starts no thread. */
  lemma AttrsSame(max: nat, tcb: map<Tid, Tcb>, attr: map<Tid, Attr>, t: Tid, x: Tcb)
    requires AttrsAgree(max, tcb, attr) && t in tcb && x.prio == tcb[t].prio
    requires tcb[t].stat == Initial ==> x.stat == Initial
    ensures AttrsAgree(max, tcb[t := x], attr)
  {}

  /** A new priority with the attribute recalculated. */
  lemma AttrsRanked(max: nat, tcb: map<Tid, Tcb>, attr: map<Tid, Attr>, t: Tid, x: Tcb)
    requires AttrsAgree(max, tcb, attr) && t in tcb && x.prio < max
    ensures AttrsAgree(max, tcb[t := x], attr[t := AttrOf(max, x.prio)])
  {}

  /** A thread that has been given its attribute may be started. */
  lemma AttrsStarted(max: nat, tcb: map<Tid, Tcb>, attr: map<Tid, Attr>, t: Tid)
    requires AttrsAgree(max, tcb, attr) && t in tcb && tcb[t].prio < max && attr[t] == AttrOf(max, tcb[t].prio)
    ensures AttrsAgree(max, tcb[t := tcb[t].(stat := Suspended)], attr)
  {}

  const NEST: int := 0x1_0000    // rt_scheduler_lock_nest is a signed 16-bit integer

  /** A 16-bit result read as signed. */
  function Signed16(n: int): (r: int)
    ensures -NEST / 2 <= r < NEST / 2 && (r - n) % NEST == 0
    ensures -NEST / 2 <= n < NEST / 2 ==> r == n
  {
    (n + NEST / 2) % NEST - NEST / 2
  }

  class Kernel {
    const rq: ReadyTable
    var tcb: map<Tid, Tcb>
    var attr: map<Tid, Attr>   // number, number_mask and high_mask of the threads
    var wait: seq<seq<Tid>>
    var current: Option<Tid>   // rt_current_thread
    var lockNest: int          // rt_scheduler_lock_nest

    ghost function View(): Sys
      reads this, rq
    {
      Sys(tcb, rq.table, wait)
    }

    ghost predicate Valid()
      reads this, rq
    {
      BitsInOrder(rq.max, rq.table, rq.ready, rq.group, tcb, attr) && Placed(View())
    }

    /** No thread started yet, `lists` empty wait lists. */
    constructor (max: nat, threads: map<Tid, nat>, lists: nat)
      requires 0 < max <= LIMIT && forall t :: t in threads ==> threads[t] < max
      ensures Valid() && fresh(rq) && rq.max == max && current == None && lockNest == 0
      ensures tcb == map t | t in threads :: Tcb(Initial, threads[t], threads[t], EOK, false)
      ensures wait == seq(lists, _ => [])
    {
      hide Placed, BitsAgree;
      rq := new ReadyTable(max);
      tcb := map t | t in threads :: Tcb(Initial, threads[t], threads[t], EOK, false);
      attr := map t | t in threads :: Attr(0, 0, 0);
      wait := seq(lists, _ => []);
      current, lockNest := None, 0;
      new;
      NobodyStarted(View());
    }

    /** rt_thread_suspend */
    method Suspend(t: Tid)
      requires Valid() && t in tcb
      modifies this`tcb, rq
      ensures Valid() && View() == Threads.Suspend(old(View()), t)
    {
      hide Placed, AttrsAgree, AttrOf, BitsAgree, Loose;
      SuspendPlaced(View(), t);
      if tcb[t].stat != Ready {
        return;
      }
      DetachReady(View(), t, tcb[t]);
      PlacedRanges(View());
      AttrOwn(rq.max, tcb, attr, t);
      AttrsSame(rq.max, tcb, attr, t, tcb[t].(stat := Suspended));
      tcb := tcb[t := tcb[t].(stat := Suspended)];
      rq.Remove(t, tcb[t].prio, attr[t]);
    }

    /** rt_schedule_insert_thread */
    method InsertReady(t: Tid)
      requires rq.Valid() && t in tcb && tcb[t].stat != Initial && AttrsAgree(rq.max, tcb, attr)
      requires |rq.table| == rq.max
      modifies this`tcb, rq
      ensures rq.Valid() && old(tcb[t].prio) < old(|rq.table|) && AttrsAgree(rq.max, tcb, attr)
      ensures View() == Threads.InsertReady(old(View()), t)
    {
      hide AttrsAgree, AttrOf, BitsAgree;
      AttrOwn(rq.max, tcb, attr, t);
      AttrsSame(rq.max, tcb, attr, t, tcb[t].(stat := Ready));
      tcb := tcb[t := tcb[t].(stat := Ready)];
      rq.Insert(t, tcb[t].prio, attr[t]);
    }

    /** rt_thread_resume */
    method Resume(t: Tid)
      requires Valid() && t in tcb
      modifies this`tcb, this`wait, rq
      ensures Valid() && tcb.Keys == old(tcb.Keys) && |rq.table| == old(|rq.table|)
      ensures old(tcb[t].prio) < old(|rq.table|) && View() == Threads.Resume(old(View()), t)
    {
      hide Placed, AttrsAgree, AttrOf, BitsAgree;
      TableSize();
      PlacedRanges(View());
      ResumePlaced(View(), t);
      if tcb[t].stat != Suspended {
        return;
      }
      DetachSuspended(View(), t);
      AttrsSame(rq.max, tcb, attr, t, tcb[t].(armed := false));
      wait := WithoutAll(wait, t);
      tcb := tcb[t := tcb[t].(armed := false)];
      InsertReady(t);
    }

    lemma TableSize()
      requires rq.Valid()
      ensures |rq.table| == rq.max
    {
      BitSizes(rq.max, rq.table, rq.ready, rq.group);
    }

    /** rt_thread_timeout together with the deactivation rt_timer_check does around it. */
    method Timeout(t: Tid)
      requires Valid() && t in tcb && tcb[t].stat == Suspended
      modifies this`tcb, this`wait, rq
      ensures Valid() && old(tcb[t].prio) < old(|rq.table|)
      ensures View() == Threads.Timeout(old(View()), t)
    {
      hide Placed, AttrsAgree, AttrOf, BitsAgree;
      TableSize();
      PlacedRanges(View());
      TimeoutPlaced(View(), t);
      DetachSuspended(View(), t);
      AttrsSame(rq.max, tcb, attr, t, tcb[t].(error := ETIMEOUT, armed := false));
      tcb := tcb[t := tcb[t].(error := ETIMEOUT, armed := false)];
      wait := WithoutAll(wait, t);
      InsertReady(t);
    }

    /** rt_timer_start on the thread timer */
    method Arm(t: Tid)
      requires Valid() && t in tcb && tcb[t].stat == Suspended
      modifies this`tcb
      ensures Valid() && View() == Threads.Arm(old(View()), t)
    {
      hide Placed, AttrsAgree, AttrOf, BitsAgree;
      ArmPlaced(View(), t);
      AttrsSame(rq.max, tcb, attr, t, tcb[t].(armed := true));
      tcb := tcb[t := tcb[t].(armed := true)];
    }

    method SetError(t: Tid, e: Err)
      requires Valid() && t in tcb
      modifies this`tcb
      ensures Valid() && View() == Threads.SetError(old(View()), t, e)
    {
      hide Placed, AttrsAgree, AttrOf, BitsAgree;
      ErrorPlaced(View(), t, e);
      AttrsSame(rq.max, tcb, attr, t, tcb[t].(error := e));
      tcb := tcb[t := tcb[t].(error := e)];
    }

    /** rt_thread_sleep up to rt_schedule */
    method Sleep(t: Tid)
      requires Valid() && t in tcb && tcb[t].stat == Ready
      modifies this`tcb, rq
      ensures Valid() && View() == Threads.Sleep(old(View()), t)
    {
      hide Placed, AttrsAgree, AttrOf, BitsAgree;
      SleepPlaced(View(), t);
      Suspend(t);
      Arm(t);
    }

    /** rt_thread_yield */
    method Yield(t: Tid)
      requires Valid() && t in tcb
      modifies rq
      ensures Valid() && old(tcb[t].prio) < old(|rq.table|)
      ensures View() == Threads.Yield(old(View()), t)
    {
      hide Placed, AttrsAgree, AttrOf, BitsAgree;
      TableSize();
      PlacedRanges(View());
      YieldPlaced(View(), t);
      if tcb[t].stat == Ready && |rq.table[tcb[t].prio]| > 1 {
        DetachReady(View(), t, tcb[t]);
        rq.Rotate(t, tcb[t].prio);
      }
    }

    /** The new priority with its attribute, as rt_thread_startup and rt_thread_control set them. */
    method SetPriority(t: Tid, p: nat)
      requires rq.Valid() && t in tcb && p < rq.max && AttrsAgree(rq.max, tcb, attr)
      modifies this`tcb, this`attr
      ensures tcb == old(tcb)[t := old(tcb[t]).(prio := p)] && AttrsAgree(rq.max, tcb, attr)
      ensures rq.max <= LIMIT && t in attr && attr[t] == AttrOf(rq.max, p)
    {
      AttrsRanked(rq.max, tcb, attr, t, tcb[t].(prio := p));
      assert rq.max <= LIMIT;
      hide AttrsAgree;
      tcb := tcb[t := tcb[t].(prio := p)];
      attr := attr[t := AttrOf(rq.max, p)];
    }

    /** rt_thread_control with RT_THREAD_CTRL_CHANGE_PRIORITY */
    method ChangePriority(t: Tid, p: nat)
      requires Valid() && t in tcb && p < |rq.table|
      modifies this`tcb, this`attr, rq
      ensures Valid() && p < old(|rq.table|) && View() == Threads.ChangePriority(old(View()), t, p)
    {
      hide Placed, AttrsAgree, AttrOf, BitsAgree;
      TableSize();
      PlacedRanges(View());
      ChangePriorityPlaced(View(), t, p);
      if tcb[t].stat == Ready {
        DetachReady(View(), t, tcb[t]);
        AttrOwn(rq.max, tcb, attr, t);
        rq.Remove(t, tcb[t].prio, attr[t]);
        TableSize();
        SetPriority(t, p);
        InsertReady(t);
      } else {
        SetPriority(t, p);
      }
    }

    /** rt_thread_startup up to rt_schedule */
    method Startup(t: Tid)
      requires Valid() && t in tcb && tcb[t].stat == Initial
      modifies this`tcb, this`attr, this`wait, rq
      ensures Valid() && old(tcb[t].initPrio) < old(|rq.table|)
      ensures View() == Threads.Startup(old(View()), t)
    {
      hide Placed, AttrsAgree, AttrOf, BitsAgree, Threads.Resume;
      TableSize();
      PlacedRanges(View());
      ghost var s := View();
      StartupPlaced(s, t);
      AwakePlaced(s, t);
      SetPriority(t, tcb[t].initPrio);
      AttrsStarted(rq.max, tcb, attr, t);
      tcb := tcb[t := tcb[t].(stat := Suspended)];
      assert View().tcb == s.tcb[t := s.tcb[t].(prio := s.tcb[t].initPrio, stat := Suspended)];
      Resume(t);
    }

    /** The search of rt_ipc_list_suspend for the place of a RT_IPC_FLAG_PRIO waiter. */
    method PrioPlace(q: nat, t: Tid) returns (n: nat)
      requires t in tcb && q < |wait| && forall u :: u in wait[q] ==> u in tcb
      ensures n <= |wait[q]| && n == PrioPosition(tcb, wait[q], tcb[t].prio)
    {
      var l, p := wait[q], tcb[t].prio;
      n := 0;
      while n < |l| && p >= tcb[l[n]].prio
        invariant n <= |l| && n + PrioPosition(tcb, l[n..], p) == PrioPosition(tcb, l, p)
      {
        PositionStep(tcb, l, p, n);
        n := n + 1;
      }
    }

    /** rt_ipc_list_suspend */
    method ListSuspend(q: nat, t: Tid, flag: Flag)
      requires Valid() && t in tcb && tcb[t].stat == Ready && q < |wait|
      modifies this`tcb, this`wait, rq
      ensures Valid() && View() == Threads.ListSuspend(old(View()), q, t, flag)
    {
      hide Placed, AttrsAgree, BitsAgree, Threads.Suspend, Loose, Joined;
      ListSuspendPlaced(View(), q, t, flag);
      SuspendPlaced(View(), t);
      Suspend(t);
      PlacedRanges(View());
      if flag == FIFO {
        wait := wait[q := Insert(wait[q], |wait[q]|, t)];
      } else {
        var n := PrioPlace(q, t);
        wait := wait[q := Insert(wait[q], n, t)];
      }
    }

    /** rt_ipc_list_resume */
    method ListResume(q: nat)
      requires Valid() && q < |wait| && wait[q] != []
      modifies this`tcb, this`wait, rq
      ensures Valid() && old(wait[q][0]) in old(tcb) && old(tcb[wait[q][0]].prio) < old(|rq.table|)
      ensures View() == Threads.ListResume(old(View()), q)
    {
      hide Placed, AttrsAgree, BitsAgree, Threads.Resume;
      PlacedRanges(View());
      Resume(wait[q][0]);
    }

    /** One round of rt_ipc_list_resume_all. */
    method Kick(q: nat)
      requires Valid() && q < |wait| && wait[q] != []
      modifies this`tcb, this`wait, rq
      ensures Valid() && |wait| == old(|wait|) && wait[q] == old(wait[q])[1..]
      ensures InRange(old(View()), old(wait[q])) && InRange(View(), wait[q])
      ensures View() == Threads.Resume(Threads.SetError(old(View()), old(wait[q])[0], ERROR), old(wait[q])[0])
    {
      hide Placed, AttrsAgree, BitsAgree, Threads.Resume;
      PlacedRanges(View());
      KickHead(View(), q);
      var t := wait[q][0];
      SetError(t, ERROR);
      Resume(t);
      PlacedRanges(View());
    }

    /** rt_ipc_list_resume_all */
    method ResumeAll(q: nat)
      requires Valid() && q < |wait|
      modifies this`tcb, this`wait, rq
      ensures Valid() && InRange(old(View()), old(wait[q]))
      ensures View() == Threads.ResumeAll(old(View()), q)
    {
      hide Placed, AttrsAgree, BitsAgree, Threads.Resume;
      ghost var s := View();
      PlacedRanges(s);
      while wait[q] != []
        invariant Valid() && q < |wait| && InRange(View(), wait[q])
        invariant ResumeEach(View(), wait[q]) == ResumeEach(s, s.wait[q])
        decreases |wait[q]|
      {
        Kick(q);
      }
    }

    /** A blocking call goes to sleep: error code cleared, into its wait list, timer if asked for. */
    method Block(q: nat, t: Tid, flag: Flag, timed: bool)
      requires Valid() && t in tcb && tcb[t].stat == Ready && q < |wait|
      modifies this`tcb, this`wait, rq
      ensures Valid() && View() == Threads.Block(old(View()), q, t, flag, timed)
    {
      hide Placed, AttrsAgree, BitsAgree, Threads.ListSuspend, Joined;
      UntimedBlock(View(), q, t, flag);
      SetError(t, EOK);
      ListSuspend(q, t, flag);
      if timed {
        Arm(t);
      }
    }

    /** The end of a successful call: the first waiting thread of list q is resumed. */
    method WakeFirst(q: nat)
      requires Valid() && q < |wait|
      modifies this`tcb, this`wait, rq
      ensures Valid() && InRange(old(View()), old(wait[q]))
      ensures View() == Threads.WakeFirst(old(View()), q)
    {
      hide Placed, AttrsAgree, BitsAgree, Threads.ListResume;
      PlacedRanges(View());
      if wait[q] != [] {
        ListResume(q);
      }
    }

    /** The choice rt_schedule makes: the longest waiting thread of the best ready priority. */
    method Choose() returns (t: Tid)
      requires Valid() && exists u :: u in tcb && tcb[u].stat == Ready
      ensures Chosen(View(), t)
    {
      hide Placed, AttrsAgree, BitsAgree;
      ghost var u :| u in tcb && tcb[u].stat == Ready;
      SomeReady(View(), u);
      var number, first := rq.Pick();
      FirstOutranks(View(), number);
      return first;
    }

    /** rt_schedule: while the scheduler is locked the current thread goes on. */
    method Schedule()
      requires Valid() && exists u :: u in tcb && tcb[u].stat == Ready
      modifies this`current
      ensures Valid() && (lockNest != 0 ==> current == old(current))
      ensures lockNest == 0 ==> current.Some? && Chosen(View(), current.value)
    {
      hide Placed, AttrsAgree, BitsAgree;
      if lockNest == 0 {
        var t := Choose();
        if Some(t) != current {
          current := Some(t);
        }
      }
    }

    /** rt_enter_critical */
    method EnterCritical()
      modifies this`lockNest
      ensures lockNest == Signed16(old(lockNest) + 1)
    {
      lockNest := Signed16(lockNest + 1);
    }

    /** rt_exit_critical */
    method ExitCritical()
      requires Valid() && exists u :: u in tcb && tcb[u].stat == Ready
      modifies this`current, this`lockNest
      ensures Valid() && lockNest == Max(0, Signed16(old(lockNest) - 1))
      ensures lockNest > 0 ==> current == old(current)
      ensures lockNest == 0 ==> current.Some? && Chosen(View(), current.value)
    {
      hide Placed, AttrsAgree, BitsAgree, Signed16;
      lockNest := Signed16(lockNest - 1);
      if lockNest <= 0 {
        lockNest := 0;
        Schedule();
      }
    }
  }

  /** The lock after n calls of rt_enter_critical, and after n of rt_exit_critical. */
  function Entered(nest: int, n: nat): int {
    if n == 0 then nest else Signed16(Entered(nest, n - 1) + 1)
  }

  function Exited(nest: int, n: nat): int {
    if n == 0 then nest else Max(0, Signed16(Exited(nest, n - 1) - 1))
  }

  lemma SmallSigned(n: int)
    requires -NEST / 2 <= n < NEST / 2
    ensures Signed16(n) == n
  {}

  lemma SignedStep(n: int)
    ensures Signed16(Signed16(n) + 1) == Signed16(n + 1)
  {
    var x := n + NEST / 2;
    assert (x % NEST + 1) % NEST == (x + 1) % NEST;
  }

  lemma {:induction false} EnteredIs(n: nat)
    ensures Entered(0, n) == Signed16(n)
  {
    hide Signed16;
    if n > 0 {
      EnteredIs(n - 1);
      SignedStep(n - 1);
    } else {
      SmallSigned(0);
    }
  }

  lemma {:induction false} ExitedIs(nest: nat, k: nat)
    requires k <= nest < NEST / 2
    ensures Exited(nest, k) == nest - k
  {
    if k > 0 { ExitedIs(nest, k - 1); }
  }

  /** The count -32768 goes down to 32767. */
  lemma {:induction false} ExitedLowest(k: nat)
    requires 0 < k <= NEST / 2
    ensures Exited(-NEST / 2, k) == NEST / 2 - k
  {
    if k > 1 {
      ExitedLowest(k - 1);
    } else {
      assert Exited(-NEST / 2, 0) == -NEST / 2;
    }
  }

  /** How often the scheduler has to be left before it is unlocked after n nested sections. */
  function Unlocks(n: nat): nat {
    var m := Signed16(n);
    if m == -NEST / 2 then NEST / 2 else if m < 0 then 1 else m
  }

  lemma UnlocksAt(n: nat)
    ensures Exited(Entered(0, n), Unlocks(n)) == 0
    ensures forall k: nat :: k < Unlocks(n) ==> Exited(Entered(0, n), k) != 0
  {
    EnteredIs(n);
    var m := Signed16(n);
    if m == -NEST / 2 {
      ExitedLowest(NEST / 2);
      forall k: nat | k < NEST / 2 ensures Exited(m, k) != 0 {
        if k > 0 { ExitedLowest(k); }
      }
    } else if m < 0 {
      assert Exited(m, 0) == m && Exited(m, 1) == 0;
    } else {
      ExitedIs(m, m);
      forall k: nat | k < m ensures Exited(m, k) != 0 { ExitedIs(m, k); }
    }
  }

  /** n nested critical sections keep the scheduler locked until the last one is left if and only if
      there are at most 32768 of them; the count has 16 bits. */
  lemma LockedUntilLast(n: nat)
    ensures (Exited(Entered(0, n), n) == 0 && forall k: nat :: k < n ==> Exited(Entered(0, n), k) != 0)
       <==> n <= NEST / 2
  {
    UnlocksAt(n);
    hide Entered, Exited;
    if n <= NEST / 2 {
      assert Unlocks(n) == n;
    } else {
      assert Unlocks(n) < n;
    }
  }
}
