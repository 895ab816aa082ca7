/** Threads inside blocking calls on one IPC object. `blocked` says which wait list of the object
    the call of a thread is about; the entry stays until the thread has run again and its call
    returns, so a resumed thread that has not run yet is still in it. */
module Waiters {
  import opened Base
  import opened Threads
  import opened ThreadLemmas

  datatype Core = Core(sys: Sys, blocked: map<Tid, nat>)

  /** Threads waiting in a list are in a blocking call about that list and have a clear error code;
      a thread in a call is either in its list or READY again. */
  ghost predicate CallsOk(tcb: map<Tid, Tcb>, wait: seq<seq<Tid>>, blocked: map<Tid, nat>) {
    && (forall q, t :: 0 <= q < |wait| && t in wait[q] ==> Sleeper(tcb, blocked, q, t))
    && (forall t :: t in blocked ==> Caller(tcb, wait, blocked, t))
  }

  ghost predicate Sleeper(tcb: map<Tid, Tcb>, blocked: map<Tid, nat>, q: int, t: Tid) {
    t in blocked && blocked[t] == q && t in tcb && tcb[t].stat == Suspended && tcb[t].error == EOK
  }

  ghost predicate Caller(tcb: map<Tid, Tcb>, wait: seq<seq<Tid>>, blocked: map<Tid, nat>, t: Tid)
    requires t in blocked
  {
    && t in tcb && blocked[t] < |wait|
    && (tcb[t].stat == Ready || (tcb[t].stat == Suspended && t in wait[blocked[t]]))
  }

  ghost predicate CoreInv(c: Core) {
    Placed(c.sys) && CallsOk(c.sys.tcb, c.sys.wait, c.blocked)
  }

  /** Resumed, without error, but not yet run. */
  ghost predicate IsResumed(tcb: map<Tid, Tcb>, blocked: map<Tid, nat>, q: nat, t: Tid) {
    t in blocked && blocked[t] == q && t in tcb && tcb[t].stat == Ready && tcb[t].error == EOK
  }

  ghost function ResumedOf(tcb: map<Tid, Tcb>, blocked: map<Tid, nat>, q: nat): set<Tid> {
    set t | t in blocked && IsResumed(tcb, blocked, q, t)
  }

  ghost function Resumed(c: Core, q: nat): set<Tid> {
    ResumedOf(c.sys.tcb, c.blocked, q)
  }

  /** Every resumed set lost at most t. */
  ghost predicate Less(c: Core, c': Core, t: Tid) {
    forall q :: Resumed(c', q) == Resumed(c, q) - {t}
  }

  ghost predicate SameResumed(c: Core, c': Core) {
    forall q :: Resumed(c', q) == Resumed(c, q)
  }

  // ---- Steps ---------------------------------------------------------------------------------

  function Enter(c: Core, q: nat, t: Tid, flag: Flag, timed: bool): (r: Core)
    requires t in c.sys.tcb && q < |c.sys.wait|
    ensures |r.sys.ready| == |c.sys.ready|
  {
    Core(Block(c.sys, q, t, flag, timed), c.blocked[t := q])
  }

  function Leave(c: Core, t: Tid): (r: Core)
    ensures |r.sys.ready| == |c.sys.ready|
  {
    c.(blocked := c.blocked - {t})
  }

  function Wake(c: Core, q: nat): (r: Core)
    requires q < |c.sys.wait| && InRange(c.sys, c.sys.wait[q])
    ensures |r.sys.ready| == |c.sys.ready| && r.blocked == c.blocked
  {
    c.(sys := WakeFirst(c.sys, q))
  }

  function Expire(c: Core, t: Tid): (r: Core)
    requires t in c.sys.tcb && c.sys.tcb[t].prio < |c.sys.ready|
    ensures |r.sys.ready| == |c.sys.ready| && r.blocked == c.blocked
  {
    c.(sys := Timeout(c.sys, t))
  }

  function KickAll(c: Core, q: nat): (r: Core)
    requires q < |c.sys.wait| && InRange(c.sys, c.sys.wait[q])
    ensures |r.sys.ready| == |c.sys.ready| && r.blocked == c.blocked
  {
    c.(sys := ResumeAll(c.sys, q))
  }

  function Fail(c: Core, t: Tid, e: Err): (r: Core)
    requires t in c.sys.tcb
    ensures |r.sys.ready| == |c.sys.ready| && r.blocked == c.blocked
  {
    c.(sys := SetError(c.sys, t, e))
  }

  /** rt_thread_resume on a suspended thread, called by somebody else than the object. */
  function Rouse(c: Core, t: Tid): (r: Core)
    requires t in c.sys.tcb && c.sys.tcb[t].prio < |c.sys.ready|
    ensures |r.sys.ready| == |c.sys.ready| && r.blocked == c.blocked
  {
    c.(sys := Resume(c.sys, t))
  }

  /** Thread operations that do not concern the object. */
  datatype Other = Doze(t: Tid) | Spin(t: Tid) | Rank(t: Tid, p: nat) | Stir(t: Tid)

  predicate OtherEnabled(c: Core, o: Other) {
    match o
    case Doze(t) => t in c.sys.tcb && c.sys.tcb[t].stat == Ready && t !in c.blocked
    case Spin(t) => t in c.sys.tcb && c.sys.tcb[t].prio < |c.sys.ready|
    case Rank(t, p) => t in c.sys.tcb && p < |c.sys.ready|
    case Stir(t) => t in c.sys.tcb && c.sys.tcb[t].prio < |c.sys.ready| && c.sys.tcb[t].stat == Suspended
                    && t !in c.blocked
  }

  function Aside(c: Core, o: Other): (r: Core)
    requires OtherEnabled(c, o)
    ensures |r.sys.ready| == |c.sys.ready| && r.blocked == c.blocked
  {
    match o
    case Doze(t) => c.(sys := Sleep(c.sys, t))
    case Spin(t) => c.(sys := Yield(c.sys, t))
    case Rank(t, p) => c.(sys := ChangePriority(c.sys, t, p))
    case Stir(t) => Rouse(c, t)
  }

  // ---- The effect of a change to one thread --------------------------------------------------

  lemma CallsJoined(tcb: map<Tid, Tcb>, w: seq<seq<Tid>>, w': seq<seq<Tid>>, blocked: map<Tid, nat>,
                    q: nat, t: Tid, x: Tcb)
    requires CallsOk(tcb, w, blocked) && Joined(w, w', q, t)
    requires t in tcb && tcb[t].stat == Ready && x.stat == Suspended && x.error == EOK
    ensures CallsOk(tcb[t := x], w', blocked[t := q])
  {
    assert forall i :: 0 <= i < |w| ==> t !in w[i] by {
      assert forall i :: 0 <= i < |w| && t in w[i] ==> Sleeper(tcb, blocked, i, t);
    }
    forall i, u | 0 <= i < |w'| && u in w'[i] ensures Sleeper(tcb[t := x], blocked[t := q], i, u) {
      assert u != t ==> u in w[i];
    }
    var b := blocked[t := q];
    forall u | u in b ensures Caller(tcb[t := x], w', b, u) {
      assert u != t ==> Caller(tcb, w, blocked, u);
    }
  }

  lemma CallsLeft(tcb: map<Tid, Tcb>, w: seq<seq<Tid>>, blocked: map<Tid, nat>, t: Tid)
    requires CallsOk(tcb, w, blocked) && t in tcb && tcb[t].stat == Ready
    ensures CallsOk(tcb, w, blocked - {t})
  {
    forall i, u | 0 <= i < |w| && u in w[i] ensures Sleeper(tcb, blocked - {t}, i, u) {
      assert Sleeper(tcb, blocked, i, u);
    }
    forall u | u in blocked - {t} ensures Caller(tcb, w, blocked - {t}, u) {
      assert Caller(tcb, w, blocked, u);
    }
  }

  /** t, READY again, has left every wait list; the others stay where they are. */
  lemma CallsReady(tcb: map<Tid, Tcb>, w: seq<seq<Tid>>, w': seq<seq<Tid>>, blocked: map<Tid, nat>,
                   t: Tid, x: Tcb)
    requires CallsOk(tcb, w, blocked) && t in tcb && x.stat == Ready && |w'| == |w|
    requires forall i :: 0 <= i < |w| ==> t !in w'[i]
    requires forall i, u :: 0 <= i < |w| && u != t ==> (u in w'[i] <==> u in w[i])
    ensures CallsOk(tcb[t := x], w', blocked)
  {
    forall i, u | 0 <= i < |w'| && u in w'[i] ensures Sleeper(tcb[t := x], blocked, i, u) {
      assert u != t && Sleeper(tcb, blocked, i, u);
    }
    forall u | u in blocked ensures Caller(tcb[t := x], w', blocked, u) {
      assert Caller(tcb, w, blocked, u);
    }
  }

  lemma PoppedReady(s: Sys, w': seq<seq<Tid>>, q: nat)
    requires Placed(s) && Popped(s.wait, w', q)
    ensures var t := s.wait[q][0];
      && (forall i :: 0 <= i < |s.wait| ==> t !in w'[i])
      && (forall i, u :: 0 <= i < |s.wait| && u != t ==> (u in w'[i] <==> u in s.wait[i]))
  {
    HeadOnce(s, q);
    assert forall i :: 0 <= i < |s.wait| && i != q ==> s.wait[q][0] !in s.wait[i];
    hide Placed;
  }

  lemma ResumedUnlike(tcb: map<Tid, Tcb>, blocked: map<Tid, nat>, t: Tid, x: Tcb, q: nat)
    ensures ResumedOf(tcb[t := x], blocked, q) - {t} == ResumedOf(tcb, blocked, q) - {t}
  {
    forall u | u != t
      ensures IsResumed(tcb[t := x], blocked, q, u) <==> IsResumed(tcb, blocked, q, u) {}
  }

  lemma ResumedMember(tcb: map<Tid, Tcb>, blocked: map<Tid, nat>, q: nat, t: Tid)
    ensures t in ResumedOf(tcb, blocked, q) <==> IsResumed(tcb, blocked, q, t)
  {}

  /** A new TCB for t that is not resumed. */
  lemma ResumedLoses(tcb: map<Tid, Tcb>, blocked: map<Tid, nat>, t: Tid, x: Tcb, q: nat)
    requires x.stat != Ready || x.error != EOK || t !in blocked
    ensures ResumedOf(tcb[t := x], blocked, q) == ResumedOf(tcb, blocked, q) - {t}
  {
    ResumedUnlike(tcb, blocked, t, x, q);
    ResumedMember(tcb[t := x], blocked, q, t);
  }

  lemma ResumedGains(tcb: map<Tid, Tcb>, blocked: map<Tid, nat>, t: Tid, x: Tcb, q: nat)
    requires t in blocked && x.stat == Ready && x.error == EOK && t in tcb && tcb[t].stat != Ready
    ensures ResumedOf(tcb[t := x], blocked, q)
         == ResumedOf(tcb, blocked, q) + (if blocked[t] == q then {t} else {})
    ensures t !in ResumedOf(tcb, blocked, q)
  {
    ResumedUnlike(tcb, blocked, t, x, q);
    ResumedMember(tcb[t := x], blocked, q, t);
    ResumedMember(tcb, blocked, q, t);
  }

  lemma ResumedLeaves(tcb: map<Tid, Tcb>, blocked: map<Tid, nat>, t: Tid, q: nat)
    ensures ResumedOf(tcb, blocked - {t}, q) == ResumedOf(tcb, blocked, q) - {t}
  {
    forall u | u != t
      ensures IsResumed(tcb, blocked - {t}, q, u) <==> IsResumed(tcb, blocked, q, u) {}
  }

  /** Entering a call without being READY. */
  lemma ResumedEnters(tcb: map<Tid, Tcb>, blocked: map<Tid, nat>, t: Tid, p: nat, x: Tcb, q: nat)
    requires x.stat != Ready
    ensures ResumedOf(tcb[t := x], blocked[t := p], q) == ResumedOf(tcb, blocked, q) - {t}
  {
    forall u | u != t
      ensures IsResumed(tcb[t := x], blocked[t := p], q, u) <==> IsResumed(tcb, blocked, q, u) {}
    ResumedMember(tcb[t := x], blocked[t := p], q, t);
  }

  /** The resumed sets depend on the state and the error code of the threads in calls only. */
  lemma ResumedSame(tcb: map<Tid, Tcb>, tcb': map<Tid, Tcb>, blocked: map<Tid, nat>, q: nat)
    requires tcb'.Keys == tcb.Keys
    requires forall t :: t in blocked && t in tcb ==>
      (tcb'[t].stat == Ready && tcb'[t].error == EOK <==> tcb[t].stat == Ready && tcb[t].error == EOK)
    ensures ResumedOf(tcb', blocked, q) == ResumedOf(tcb, blocked, q)
  {
    forall t | t in blocked
      ensures IsResumed(tcb', blocked, q, t) <==> IsResumed(tcb, blocked, q, t) {}
  }

  // ---- What the steps keep -------------------------------------------------------------------

  lemma CoreRanges(c: Core)
    requires CoreInv(c)
    ensures forall t :: t in c.sys.tcb ==> c.sys.tcb[t].prio < |c.sys.ready|
    ensures forall q :: 0 <= q < |c.sys.wait| ==> InRange(c.sys, c.sys.wait[q])
  {
    PlacedRanges(c.sys);
  }

  lemma ArmedSuspended(c: Core, t: Tid)
    requires CoreInv(c) && t in c.sys.tcb && c.sys.tcb[t].armed
    ensures c.sys.tcb[t].stat == Suspended
  {
    hide CallsOk, ReadyPlaced, WaitPlaced;
  }

  lemma EnterKeeps(c: Core, q: nat, t: Tid, flag: Flag, timed: bool)
    requires CoreInv(c) && q < |c.sys.wait| && t in c.sys.tcb && c.sys.tcb[t].stat == Ready
    ensures var c' := Enter(c, q, t, flag, timed);
      && CoreInv(c') && Less(c, c', t) && Joined(c.sys.wait, c'.sys.wait, q, t)
      && c'.sys.tcb == c.sys.tcb[t := c.sys.tcb[t].(stat := Suspended, error := EOK, armed := timed)]
  {
    hide Placed, CallsOk, Joined, Block, ResumedOf;
    var x := c.sys.tcb[t].(stat := Suspended, error := EOK, armed := timed);
    BlockEffect(c.sys, q, t, flag, timed);
    CallsJoined(c.sys.tcb, c.sys.wait, Block(c.sys, q, t, flag, timed).wait, c.blocked, q, t, x);
    forall p ensures Resumed(Enter(c, q, t, flag, timed), p) == Resumed(c, p) - {t} {
      ResumedEnters(c.sys.tcb, c.blocked, t, q, x, p);
    }
  }

  lemma LeaveKeeps(c: Core, t: Tid)
    requires CoreInv(c) && t in c.sys.tcb && c.sys.tcb[t].stat == Ready
    ensures CoreInv(Leave(c, t)) && Less(c, Leave(c, t), t)
  {
    hide Placed, CallsOk, ResumedOf;
    CallsLeft(c.sys.tcb, c.sys.wait, c.blocked, t);
    forall p ensures Resumed(Leave(c, t), p) == Resumed(c, p) - {t} {
      ResumedLeaves(c.sys.tcb, c.blocked, t, p);
    }
  }

  lemma CoreHead(c: Core, q: nat)
    requires CoreInv(c) && q < |c.sys.wait| && c.sys.wait[q] != []
    ensures Sleeper(c.sys.tcb, c.blocked, q, c.sys.wait[q][0])
  {
    hide Placed;
    assert c.sys.wait[q][0] in c.sys.wait[q];
  }

  lemma WakeKeeps(c: Core, q: nat)
    requires CoreInv(c) && q < |c.sys.wait|
    ensures InRange(c.sys, c.sys.wait[q])
    ensures c.sys.wait[q] == [] ==> Wake(c, q) == c
    ensures c.sys.wait[q] != [] ==>
      var c', t := Wake(c, q), c.sys.wait[q][0];
      && CoreInv(c') && Popped(c.sys.wait, c'.sys.wait, q) && Sleeper(c.sys.tcb, c.blocked, q, t)
      && c'.sys.tcb == c.sys.tcb[t := c.sys.tcb[t].(stat := Ready, armed := false)]
      && t !in Resumed(c, q) && Resumed(c', q) == Resumed(c, q) + {t}
      && (forall p :: p != q ==> Resumed(c', p) == Resumed(c, p))
  {
    hide Placed, CallsOk, Popped, WakeFirst, ResumedOf;
    CoreRanges(c);
    WakeEffect(c.sys, q);
    if c.sys.wait[q] != [] {
      var c', t := Wake(c, q), c.sys.wait[q][0];
      var x := c.sys.tcb[t].(stat := Ready, armed := false);
      CoreHead(c, q);
      PoppedReady(c.sys, c'.sys.wait, q);
      assert |c'.sys.wait| == |c.sys.wait| by { PoppedLength(c.sys.wait, c'.sys.wait, q); }
      CallsReady(c.sys.tcb, c.sys.wait, c'.sys.wait, c.blocked, t, x);
      forall p ensures Resumed(c', p) == Resumed(c, p) + (if p == q then {t} else {})
               ensures t !in Resumed(c, p) {
        ResumedGains(c.sys.tcb, c.blocked, t, x, p);
      }
    }
  }

  lemma PoppedLength(w: seq<seq<Tid>>, w': seq<seq<Tid>>, q: nat)
    requires Popped(w, w', q)
    ensures |w'| == |w|
  {}

  lemma ExpireKeeps(c: Core, t: Tid)
    requires CoreInv(c) && t in c.sys.tcb && c.sys.tcb[t].stat == Suspended
    ensures c.sys.tcb[t].prio < |c.sys.ready|
    ensures var c' := Expire(c, t);
      && CoreInv(c') && SameResumed(c, c') && |c'.sys.wait| == |c.sys.wait|
      && c'.sys.tcb == c.sys.tcb[t := c.sys.tcb[t].(stat := Ready, error := ETIMEOUT, armed := false)]
      && (forall q :: 0 <= q < |c.sys.wait| ==> c'.sys.wait[q] == Without(c.sys.wait[q], t))
  {
    CoreRanges(c);
    TimeoutEffect(c.sys, t);
    DroppedReady(c.sys, t);
    hide Placed, CallsOk, Timeout, ResumedOf, Without;
    var x := c.sys.tcb[t].(stat := Ready, error := ETIMEOUT, armed := false);
    var c' := Expire(c, t);
    CallsReady(c.sys.tcb, c.sys.wait, c'.sys.wait, c.blocked, t, x);
    forall q ensures Resumed(c', q) == Resumed(c, q) {
      ResumedLoses(c.sys.tcb, c.blocked, t, x, q);
      ResumedMember(c.sys.tcb, c.blocked, q, t);
    }
  }

  lemma DroppedReady(s: Sys, t: Tid)
    requires Placed(s)
    ensures forall i :: 0 <= i < |s.wait| ==> t !in Without(s.wait[i], t)
    ensures forall i, u :: 0 <= i < |s.wait| && u != t ==> (u in Without(s.wait[i], t) <==> u in s.wait[i])
  {
    assert forall i :: 0 <= i < |s.wait| ==> NoDup(s.wait[i]);
    hide Placed, NoDup;
  }

  ghost predicate KickedAll(c: Core, c': Core, q: nat) {
    && q < |c.sys.wait| && c'.sys.tcb.Keys == c.sys.tcb.Keys && |c'.sys.wait| == |c.sys.wait|
    && c'.sys.wait[q] == [] && c'.blocked == c.blocked
    && (forall i :: 0 <= i < |c.sys.wait| && i != q ==> c'.sys.wait[i] == c.sys.wait[i])
    && (forall t :: t in c.sys.tcb ==>
          c'.sys.tcb[t] == (if t in c.sys.wait[q] then Kicked(c.sys.tcb[t]) else c.sys.tcb[t]))
  }

  lemma KickAllKeeps(c: Core, q: nat)
    requires CoreInv(c) && q < |c.sys.wait|
    ensures InRange(c.sys, c.sys.wait[q])
    ensures var c' := KickAll(c, q); CoreInv(c') && SameResumed(c, c') && KickedAll(c, c', q)
  {
    hide Placed, CallsOk, ResumeAll, ResumedOf;
    CoreRanges(c);
    ResumeAllEffect(c.sys, q);
    var c' := KickAll(c, q);
    assert KickedAll(c, c', q);
    hide KickedAll;
    KickCalls(c, c', q);
    forall p ensures Resumed(c', p) == Resumed(c, p) { KickResumed(c, c', q, p); }
  }

  lemma KickCalls(c: Core, c': Core, q: nat)
    requires CallsOk(c.sys.tcb, c.sys.wait, c.blocked) && KickedAll(c, c', q)
    ensures CallsOk(c'.sys.tcb, c'.sys.wait, c'.blocked)
  {
    forall i, u | 0 <= i < |c'.sys.wait| && u in c'.sys.wait[i]
      ensures Sleeper(c'.sys.tcb, c'.blocked, i, u)
    {
      assert i != q && Sleeper(c.sys.tcb, c.blocked, i, u);
      assert u in c.sys.wait[q] ==> Sleeper(c.sys.tcb, c.blocked, q, u);
    }
    forall u | u in c.blocked ensures Caller(c'.sys.tcb, c'.sys.wait, c'.blocked, u) {
      assert Caller(c.sys.tcb, c.sys.wait, c.blocked, u);
    }
  }

  lemma KickResumed(c: Core, c': Core, q: nat, p: nat)
    requires CallsOk(c.sys.tcb, c.sys.wait, c.blocked) && KickedAll(c, c', q)
    ensures Resumed(c', p) == Resumed(c, p)
  {
    forall t | t in c.sys.wait[q] ensures t in c.sys.tcb && c.sys.tcb[t].stat == Suspended {
      assert Sleeper(c.sys.tcb, c.blocked, q, t);
    }
    hide CallsOk, ResumedOf;
    ResumedSame(c.sys.tcb, c'.sys.tcb, c.blocked, p);
  }

  /** Setting the error code of a thread that is in no call. */
  lemma FailKeeps(c: Core, t: Tid, e: Err)
    requires CoreInv(c) && t in c.sys.tcb && t !in c.blocked
    ensures CoreInv(Fail(c, t, e)) && SameResumed(c, Fail(c, t, e))
  {
    hide Placed, ResumedOf, CallsOk;
    ErrorPlaced(c.sys, t, e);
    CallsSame(c.sys.tcb, Fail(c, t, e).sys.tcb, c.sys.wait, c.blocked);
    forall q ensures Resumed(Fail(c, t, e), q) == Resumed(c, q) {
      ResumedSame(c.sys.tcb, Fail(c, t, e).sys.tcb, c.blocked, q);
    }
  }

  lemma CallsSame(tcb: map<Tid, Tcb>, tcb': map<Tid, Tcb>, w: seq<seq<Tid>>, blocked: map<Tid, nat>)
    requires CallsOk(tcb, w, blocked) && tcb'.Keys == tcb.Keys
    requires forall t :: t in blocked && t in tcb ==>
      tcb'[t].stat == tcb[t].stat && tcb'[t].error == tcb[t].error
    ensures CallsOk(tcb', w, blocked)
  {
    forall i, u | 0 <= i < |w| && u in w[i] ensures Sleeper(tcb', blocked, i, u) {
      assert Sleeper(tcb, blocked, i, u);
    }
    forall u | u in blocked ensures Caller(tcb', w, blocked, u) {
      assert Caller(tcb, w, blocked, u);
    }
  }

  ghost predicate Untouched(c: Core, c': Core) {
    && c'.sys.wait == c.sys.wait && c'.sys.tcb.Keys == c.sys.tcb.Keys && c'.blocked == c.blocked
    && (forall t :: t in c.blocked && t in c.sys.tcb ==>
          c'.sys.tcb[t].stat == c.sys.tcb[t].stat && c'.sys.tcb[t].error == c.sys.tcb[t].error)
  }

  lemma UntouchedKeeps(c: Core, c': Core)
    requires CoreInv(c) && Placed(c'.sys) && Untouched(c, c')
    ensures CoreInv(c') && SameResumed(c, c')
  {
    hide Placed, ResumedOf, CallsOk;
    CallsSame(c.sys.tcb, c'.sys.tcb, c.sys.wait, c.blocked);
    forall q ensures Resumed(c', q) == Resumed(c, q) {
      ResumedSame(c.sys.tcb, c'.sys.tcb, c.blocked, q);
    }
  }

  lemma DozeUntouched(c: Core, t: Tid)
    requires CoreInv(c) && OtherEnabled(c, Doze(t))
    ensures Placed(Aside(c, Doze(t)).sys) && Untouched(c, Aside(c, Doze(t)))
  {
    SleepPlaced(c.sys, t);
    hide Placed, Sleep, CallsOk;
  }

  lemma SpinUntouched(c: Core, t: Tid)
    requires CoreInv(c) && OtherEnabled(c, Spin(t))
    ensures Placed(Aside(c, Spin(t)).sys) && Untouched(c, Aside(c, Spin(t)))
  {
    YieldPlaced(c.sys, t);
    hide Placed, CallsOk;
  }

  lemma RankUntouched(c: Core, t: Tid, p: nat)
    requires CoreInv(c) && OtherEnabled(c, Rank(t, p))
    ensures Placed(Aside(c, Rank(t, p)).sys) && Untouched(c, Aside(c, Rank(t, p)))
  {
    hide Placed, ChangePriority, CallsOk;
    CoreRanges(c);
    RankShape(c.sys, t, p);
    ChangePriorityPlaced(c.sys, t, p);
  }

  lemma RouseEffect(c: Core, t: Tid)
    requires CoreInv(c) && t in c.sys.tcb && c.sys.tcb[t].stat == Suspended
    ensures c.sys.tcb[t].prio < |c.sys.ready|
    ensures var c' := Rouse(c, t);
      && Placed(c'.sys) && |c'.sys.wait| == |c.sys.wait| && c'.blocked == c.blocked
      && c'.sys.tcb == c.sys.tcb[t := c.sys.tcb[t].(stat := Ready, armed := false)]
      && (forall q :: 0 <= q < |c.sys.wait| ==> c'.sys.wait[q] == Without(c.sys.wait[q], t))
  {
    CoreRanges(c);
    ResumePlaced(c.sys, t);
    ResumeShape(c.sys, t);
  }

  /** A thread in no call is in no wait list. */
  lemma NotWaiting(c: Core, t: Tid)
    requires CoreInv(c) && t !in c.blocked
    ensures forall q :: 0 <= q < |c.sys.wait| ==> t !in c.sys.wait[q]
  {
    hide Placed;
    forall q | 0 <= q < |c.sys.wait| ensures t !in c.sys.wait[q] {
      assert t in c.sys.wait[q] ==> Sleeper(c.sys.tcb, c.blocked, q, t);
    }
  }

  lemma StirUntouched(c: Core, t: Tid)
    requires CoreInv(c) && OtherEnabled(c, Stir(t))
    ensures Placed(Aside(c, Stir(t)).sys) && Untouched(c, Aside(c, Stir(t)))
  {
    hide CoreInv, Placed, Without, Resume;
    NotWaiting(c, t);
    RouseEffect(c, t);
    assert Rouse(c, t).sys.wait == c.sys.wait;
  }

  /** A waiting thread that somebody else resumes joins the resumed threads of its list. */
  lemma RouseKeeps(c: Core, t: Tid)
    requires CoreInv(c) && t in c.sys.tcb && c.sys.tcb[t].stat == Suspended && t in c.blocked
    ensures c.sys.tcb[t].prio < |c.sys.ready|
    ensures var c' := Rouse(c, t);
      && CoreInv(c') && |c'.sys.wait| == |c.sys.wait| && c'.blocked == c.blocked
      && c'.sys.tcb == c.sys.tcb[t := c.sys.tcb[t].(stat := Ready, armed := false)]
      && (forall q :: 0 <= q < |c.sys.wait| ==> c'.sys.wait[q] == Without(c.sys.wait[q], t))
      && (forall q :: Resumed(c', q) == Resumed(c, q) + (if c.blocked[t] == q then {t} else {}))
  {
    RouseEffect(c, t);
    DroppedReady(c.sys, t);
    SleeperError(c, t);
    hide Placed, CallsOk, Resume, ResumedOf, Without;
    var x := c.sys.tcb[t].(stat := Ready, armed := false);
    var c' := Rouse(c, t);
    CallsReady(c.sys.tcb, c.sys.wait, c'.sys.wait, c.blocked, t, x);
    forall q ensures Resumed(c', q) == Resumed(c, q) + (if c.blocked[t] == q then {t} else {}) {
      ResumedGains(c.sys.tcb, c.blocked, t, x, q);
    }
  }

  lemma SleeperError(c: Core, t: Tid)
    requires CoreInv(c) && t in c.blocked && t in c.sys.tcb && c.sys.tcb[t].stat == Suspended
    ensures c.sys.tcb[t].error == EOK && c.blocked[t] < |c.sys.wait| && t in c.sys.wait[c.blocked[t]]
  {
    hide Placed;
    assert Caller(c.sys.tcb, c.sys.wait, c.blocked, t);
    assert Sleeper(c.sys.tcb, c.blocked, c.blocked[t], t);
  }

  lemma AsideKeeps(c: Core, o: Other)
    requires CoreInv(c) && OtherEnabled(c, o)
    ensures CoreInv(Aside(c, o)) && SameResumed(c, Aside(c, o)) && Untouched(c, Aside(c, o))
  {
    match o {
      case Doze(t) => DozeUntouched(c, t);
      case Spin(t) => SpinUntouched(c, t);
      case Rank(t, p) => RankUntouched(c, t, p);
      case Stir(t) => StirUntouched(c, t);
    }
    hide Aside, Placed, Untouched, OtherEnabled, CallsOk;
    UntouchedKeeps(c, Aside(c, o));
  }

  lemma RankShape(s: Sys, t: Tid, p: nat)
    requires Placed(s) && t in s.tcb && p < |s.ready|
    ensures var s' := ChangePriority(s, t, p);
      s'.tcb == s.tcb[t := s.tcb[t].(prio := p)] && s'.wait == s.wait
  {
    assert s.tcb[t].stat == Ready ==> forall q :: 0 <= q < |s.wait| ==> t !in s.wait[q];
    hide Placed, Without;
    if s.tcb[t].stat == Ready { assert WithoutAll(s.wait, t) == s.wait; }
  }

  // ---- Wake-ups not lost ---------------------------------------------------------------------

  /** If anybody sleeps in list q, at least n resumed threads of that list are on their way. */
  ghost predicate Covered(c: Core, q: nat, n: int) {
    q < |c.sys.wait| && (c.sys.wait[q] != [] ==> |Resumed(c, q)| >= n)
  }

  lemma WakeCovers(c: Core, q: nat, n: int)
    requires CoreInv(c) && q < |c.sys.wait| && Covered(c, q, n)
    ensures InRange(c.sys, c.sys.wait[q])
    ensures Covered(Wake(c, q), q, n + 1)
    ensures forall p, k :: p != q && Covered(c, p, k) ==> Covered(Wake(c, q), p, k)
  {
    CoreRanges(c);
    WakeCoversOwn(c, q, n);
    hide CoreInv, Covered, Wake, InRange;
    forall p, k | p != q && Covered(c, p, k) ensures Covered(Wake(c, q), p, k) {
      WakeCoversOther(c, q, p, k);
    }
  }

  lemma WakeCoversOwn(c: Core, q: nat, n: int)
    requires CoreInv(c) && q < |c.sys.wait| && Covered(c, q, n)
    ensures InRange(c.sys, c.sys.wait[q])
    ensures Covered(Wake(c, q), q, n + 1)
  {
    WakeKeeps(c, q);
    hide CoreInv, Resumed, Wake, Sleeper, InRange;
    if c.sys.wait[q] != [] {
      PoppedLength(c.sys.wait, Wake(c, q).sys.wait, q);
      hide Popped;
      assert |Resumed(Wake(c, q), q)| == |Resumed(c, q)| + 1;
    }
  }

  lemma WakeCoversOther(c: Core, q: nat, p: nat, n: int)
    requires CoreInv(c) && q < |c.sys.wait| && Covered(c, p, n) && p != q
    ensures InRange(c.sys, c.sys.wait[q])
    ensures Covered(Wake(c, q), p, n)
  {
    WakeKeeps(c, q);
    hide CoreInv, Resumed, Wake, Sleeper, InRange;
    if c.sys.wait[q] != [] {
      PoppedOther(c.sys.wait, Wake(c, q).sys.wait, q, p);
      hide Popped;
      assert Resumed(Wake(c, q), p) == Resumed(c, p);
    }
  }

  lemma PoppedOther(w: seq<seq<Tid>>, w': seq<seq<Tid>>, q: nat, p: nat)
    requires Popped(w, w', q) && p < |w| && p != q
    ensures |w'| == |w| && w'[p] == w[p]
  {}

  lemma LeaveCovers(c: Core, t: Tid, p: nat, n: int)
    requires CoreInv(c) && t in c.sys.tcb && c.sys.tcb[t].stat == Ready
    ensures Covered(c, p, n + 1) ==> Covered(Leave(c, t), p, n)
    ensures Covered(c, p, n) && t !in Resumed(c, p) ==> Covered(Leave(c, t), p, n)
  {
    LeaveKeeps(c, t);
    hide CoreInv, Resumed;
    assert Resumed(Leave(c, t), p) == Resumed(c, p) - {t};
    if t !in Resumed(c, p) { assert Resumed(c, p) - {t} == Resumed(c, p); }
  }

  lemma EnterCovers(c: Core, q: nat, t: Tid, flag: Flag, timed: bool, p: nat, n: int)
    requires CoreInv(c) && q < |c.sys.wait| && t in c.sys.tcb && c.sys.tcb[t].stat == Ready
    ensures Covered(Enter(c, q, t, flag, timed), q, 0)
    ensures p != q && Covered(c, p, n) && t !in Resumed(c, p) ==> Covered(Enter(c, q, t, flag, timed), p, n)
  {
    EnterKeeps(c, q, t, flag, timed);
    hide CoreInv, Resumed, Less, Covered, Enter;
    JoinedOther(c.sys.wait, Enter(c, q, t, flag, timed).sys.wait, q, t, p);
    hide Joined;
    LessCovers(c, Enter(c, q, t, flag, timed), t, q, 0, q);
    LessCovers(c, Enter(c, q, t, flag, timed), t, p, n, q);
  }

  lemma JoinedLength(w: seq<seq<Tid>>, w': seq<seq<Tid>>, q: nat, t: Tid)
    requires Joined(w, w', q, t)
    ensures |w'| == |w|
  {}

  lemma JoinedAt(w: seq<seq<Tid>>, w': seq<seq<Tid>>, q: nat, t: Tid)
    requires Joined(w, w', q, t)
    ensures |w'| == |w| && q < |w| && forall u :: u in w'[q] ==> u == t || u in w[q]
  {}

  lemma JoinedOther(w: seq<seq<Tid>>, w': seq<seq<Tid>>, q: nat, t: Tid, p: nat)
    requires Joined(w, w', q, t)
    ensures |w'| == |w|
    ensures p < |w| && p != q ==> w'[p] == w[p]
  {}

  lemma LessCovers(c: Core, c': Core, t: Tid, p: nat, n: int, q: nat)
    requires Less(c, c', t) && |c'.sys.wait| == |c.sys.wait|
    requires p < |c.sys.wait| && p != q ==> c'.sys.wait[p] == c.sys.wait[p]
    ensures p < |c.sys.wait| && n <= 0 ==> Covered(c', p, n)
    ensures p != q && Covered(c, p, n) && t !in Resumed(c, p) ==> Covered(c', p, n)
  {
    hide Resumed;
    assert Resumed(c', p) == Resumed(c, p) - {t};
    if t !in Resumed(c, p) { assert Resumed(c', p) == Resumed(c, p); }
  }

  lemma ExpireCovers(c: Core, t: Tid, p: nat, n: int)
    requires CoreInv(c) && t in c.sys.tcb && c.sys.tcb[t].stat == Suspended
    ensures c.sys.tcb[t].prio < |c.sys.ready|
    ensures Covered(c, p, n) ==> Covered(Expire(c, t), p, n)
  {
    ExpireKeeps(c, t);
    hide CoreInv, Resumed, Expire;
    assert Resumed(Expire(c, t), p) == Resumed(c, p);
  }

  /** Resuming a waiting thread from outside takes no cover away. */
  lemma RouseCovers(c: Core, t: Tid, p: nat, n: int)
    requires CoreInv(c) && t in c.sys.tcb && c.sys.tcb[t].stat == Suspended && t in c.blocked
    ensures c.sys.tcb[t].prio < |c.sys.ready|
    ensures Covered(c, p, n) ==> Covered(Rouse(c, t), p, n)
  {
    hide CoreInv, Resumed, Rouse, Without;
    RouseKeeps(c, t);
    if Covered(c, p, n) {
      WithoutNil(t);
      Larger(Resumed(c, p), if c.blocked[t] == p then {t} else {});
    }
  }

  lemma WithoutNil(t: Tid)
    ensures Without([], t) == []
  {}

  lemma Larger(a: set<Tid>, b: set<Tid>)
    ensures |a + b| >= |a|
  {
    assert a + b == a + (b - a);
    assert |a + (b - a)| == |a| + |b - a|;
  }

  lemma SameCovers(c: Core, c': Core, p: nat, n: int)
    requires SameResumed(c, c') && |c'.sys.wait| == |c.sys.wait|
    requires p < |c.sys.wait| ==> c'.sys.wait[p] == [] || c'.sys.wait[p] == c.sys.wait[p]
    ensures Covered(c, p, n) ==> Covered(c', p, n)
  {
    hide Resumed;
    assert Resumed(c', p) == Resumed(c, p);
  }

  /** A thread that is in no call about list p is not resumed from it. */
  lemma NotResumed(c: Core, p: nat, t: Tid)
    requires t !in c.blocked || c.blocked[t] != p
    ensures t !in Resumed(c, p)
  {}
}
