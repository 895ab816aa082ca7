/** No receiver sleeps although its bits are there, and waiting changes nothing about the answer. */
module EventLemmas {
  import opened Base
  import opened Threads
  import opened ThreadLemmas
  import opened Waiters
  import opened EventSpec

  // ---- Bits ----------------------------------------------------------------------------------

  /** A receive that had to wait returns the same bits and leaves the same bits as one that finds
      them at once. */
  lemma LaterIsNow(w: Want, bits: bv32)
    requires Met(w, bits)
    ensures GotLater(w, bits) == GotNow(w, bits) && LeftLater(w, bits) == LeftNow(w, bits)
  {
    CommonFacts(w.bits, bits);
    hide Has, AllIn, Common, Cleared;
  }

  lemma CommonFacts(want: bv32, bits: bv32)
    ensures Common(want, bits) == Common(bits, want)
    ensures AllIn(want, bits) ==> Common(want, bits) == want
    ensures Cleared(bits, Common(want, bits)) == Cleared(bits, want)
  {}

  /** Clearing bits satisfies nobody. */
  lemma FewerBits(w: Want, bits: bv32, gone: bv32)
    requires !Met(w, bits)
    ensures !Met(w, Cleared(bits, gone))
  {
    AllLost(w.bits, bits, gone);
    AnyLost(w.bits, bits, gone);
    hide Has, AllIn, Common, Cleared;
  }

  lemma AllLost(want: bv32, bits: bv32, gone: bv32)
    ensures AllIn(want, Cleared(bits, gone)) ==> AllIn(want, bits)
  {}

  lemma AnyLost(want: bv32, bits: bv32, gone: bv32)
    ensures Common(want, bits) == 0 ==> Common(want, Cleared(bits, gone)) == 0
  {}

  lemma LeftMeetsNobody(w: Want, u: Want, bits: bv32)
    requires !Met(u, bits)
    ensures !Met(u, LeftLater(w, bits)) && !Met(u, LeftNow(w, bits))
  {
    hide Met, Cleared, Has, GotLater;
    FewerBits(u, bits, GotLater(w, bits));
    FewerBits(u, bits, w.bits);
  }

  // ---- The invariant -------------------------------------------------------------------------

  /** Nobody outside `rest` waits although its condition holds. */
  ghost predicate NobodyMet(wait: seq<Tid>, rest: seq<Tid>, want: map<Tid, Want>, bits: bv32) {
    forall t :: t in wait && t !in rest ==> t in want && !Met(want[t], bits)
  }

  /** A receiver that a send has resumed holds what it is owed. */
  ghost predicate Paid(e: Event) {
    forall t :: IsResumed(e.core.sys.tcb, e.core.blocked, WAITERS, t) && t !in e.stray ==>
      t in e.want && t in e.owed && e.want[t].bits == e.owed[t]
  }

  ghost predicate Sound(e: Event) {
    CoreInv(e.core) && |e.core.sys.wait| == 1 && (forall t :: t in e.core.blocked ==> t in e.want)
  }

  ghost predicate Inv(e: Event) {
    Sound(e) && Paid(e) && NobodyMet(e.core.sys.wait[WAITERS], [], e.want, e.bits)
  }

  lemma InvShape(e: Event)
    requires Sound(e)
    ensures Shape(e) && forall t :: t in e.core.sys.tcb ==> Knows(e, t)
  {
    CoreRanges(e.core);
    assert forall t :: t in e.core.sys.wait[WAITERS] ==> Sleeper(e.core.sys.tcb, e.core.blocked, WAITERS, t);
  }

  // ---- Send ----------------------------------------------------------------------------------

  /** Resuming one thread out of the middle of a wait list. */
  lemma PickKeeps(c: Core, q: nat, t: Tid)
    requires CoreInv(c) && q < |c.sys.wait| && t in c.sys.wait[q]
    ensures t in c.sys.tcb && c.sys.tcb[t].prio < |c.sys.ready| && t in c.blocked && c.blocked[t] == q
    ensures var c' := c.(sys := Resume(c.sys, t));
      && CoreInv(c') && |c'.sys.wait| == |c.sys.wait| && c'.sys.wait[q] == Without(c.sys.wait[q], t)
      && c'.sys.tcb == c.sys.tcb[t := c.sys.tcb[t].(stat := Ready, armed := false)]
      && NoDup(c.sys.wait[q])
  {
    assert Sleeper(c.sys.tcb, c.blocked, q, t);
    CoreRanges(c);
    ResumeEffect(c.sys, q, t);
    assert NoDup(c.sys.wait[q]);
    var c' := c.(sys := Resume(c.sys, t));
    var x := c.sys.tcb[t].(stat := Ready, armed := false);
    PickedLists(c.sys, c'.sys.wait, q, t);
    hide Placed, CallsOk, Resume, Without, NoDup;
    CallsReady(c.sys.tcb, c.sys.wait, c'.sys.wait, c.blocked, t, x);
  }

  lemma PickedLists(s: Sys, w': seq<seq<Tid>>, q: nat, t: Tid)
    requires Placed(s) && q < |s.wait| && t in s.wait[q] && |w'| == |s.wait|
    requires w'[q] == Without(s.wait[q], t) && forall i :: 0 <= i < |s.wait| && i != q ==> w'[i] == s.wait[i]
    ensures forall i :: 0 <= i < |s.wait| ==> t !in w'[i]
    ensures forall i, u :: 0 <= i < |s.wait| && u != t ==> (u in w'[i] <==> u in s.wait[i])
  {
    assert forall i :: 0 <= i < |s.wait| && i != q ==> t !in s.wait[i];
    assert NoDup(s.wait[q]);
    hide Placed;
  }

  /** What the loop of rt_event_send keeps while it still has to visit l. */
  ghost predicate Scanning(e: Event, l: seq<Tid>) {
    && Sound(e) && Paid(e) && NobodyMet(e.core.sys.wait[WAITERS], l, e.want, e.bits)
    && NoDup(l) && (forall t :: t in l ==> t in e.core.sys.wait[WAITERS])
  }

  lemma ScanningShape(e: Event, l: seq<Tid>)
    requires Scanning(e, l)
    ensures Shape(e) && Waiting(e, l) && forall t :: t in e.core.sys.tcb ==> Knows(e, t)
  {
    InvShape(e);
    hide Sound, Paid, NobodyMet;
  }

  lemma VisitKeeps(e: Event, l: seq<Tid>)
    requires Scanning(e, l) && l != []
    ensures Knows(e, l[0]) && l[0] in e.want && Scanning(Visit(e, l[0]), l[1..])
  {
    ScanningShape(e, l);
    NoDupTail(l);
    hide Sound, Paid, Met, NobodyMet, NoDup, Grant;
    var t := l[0];
    assert t in l;
    if Met(e.want[t], e.bits) {
      GrantBase(e, t);
      GrantPaid(e, t);
      GrantMeets(e, t, l);
      GrantWaits(e, t);
    } else {
      SkipMeets(e, l);
    }
  }

  lemma SkipMeets(e: Event, l: seq<Tid>)
    requires |e.core.sys.wait| == 1 && l != [] && l[0] in e.want && !Met(e.want[l[0]], e.bits)
    requires NobodyMet(e.core.sys.wait[WAITERS], l, e.want, e.bits)
    requires forall t :: t in l <==> t == l[0] || t in l[1..]
    ensures NobodyMet(e.core.sys.wait[WAITERS], l[1..], e.want, e.bits)
  {
    hide Met;
  }

  lemma GrantBase(e: Event, t: Tid)
    requires Sound(e) && t in e.core.sys.wait[WAITERS] && Knows(e, t) && t in e.want
    ensures Sound(Grant(e, t))
  {
    PickKeeps(e.core, WAITERS, t);
    hide CoreInv, Resume, GotLater, LeftLater, GotNow;
  }

  lemma GrantWaits(e: Event, t: Tid)
    requires Sound(e) && t in e.core.sys.wait[WAITERS] && Knows(e, t) && t in e.want
    ensures Sound(Grant(e, t)) && forall u :: u in e.core.sys.wait[WAITERS] && u != t ==>
              u in Grant(e, t).core.sys.wait[WAITERS]
  {
    GrantBase(e, t);
    PickKeeps(e.core, WAITERS, t);
    hide CoreInv, Resume, Without, GotLater, LeftLater, GotNow;
  }

  lemma GrantPaid(e: Event, t: Tid)
    requires Sound(e) && Paid(e) && t in e.core.sys.wait[WAITERS] && Knows(e, t) && t in e.want
    requires Met(e.want[t], e.bits)
    ensures Paid(Grant(e, t))
  {
    PickKeeps(e.core, WAITERS, t);
    LaterIsNow(e.want[t], e.bits);
    hide CoreInv, Resume, GotLater, LeftLater, GotNow, Met;
    var e' := Grant(e, t);
    forall u | IsResumed(e'.core.sys.tcb, e'.core.blocked, WAITERS, u) && u !in e'.stray
      ensures u in e'.want && u in e'.owed && e'.want[u].bits == e'.owed[u]
    {
      if u != t { assert IsResumed(e.core.sys.tcb, e.core.blocked, WAITERS, u); }
    }
  }

  lemma GrantMeets(e: Event, t: Tid, l: seq<Tid>)
    requires Sound(e) && t in e.core.sys.wait[WAITERS] && Knows(e, t) && t in e.want
    requires l != [] && t == l[0] && forall u :: u in l <==> u == l[0] || u in l[1..]
    requires NobodyMet(e.core.sys.wait[WAITERS], l, e.want, e.bits)
    ensures Sound(Grant(e, t))
    ensures NobodyMet(Grant(e, t).core.sys.wait[WAITERS], l[1..], Grant(e, t).want, Grant(e, t).bits)
  {
    GrantBase(e, t);
    PickKeeps(e.core, WAITERS, t);
    hide CoreInv, Resume, GotLater, LeftLater, GotNow, Met, Without, NoDup;
    var e' := Grant(e, t);
    forall u | u in e'.core.sys.wait[WAITERS] && u !in l[1..]
      ensures u in e'.want && !Met(e'.want[u], e'.bits)
    {
      assert u != t && u !in l;
      LeftMeetsNobody(e.want[t], e.want[u], e.bits);
    }
  }

  lemma {:induction false} ScanKeeps(e: Event, l: seq<Tid>)
    requires Scanning(e, l)
    ensures Waiting(e, l) && Inv(Scan(e, l))
    decreases |l|
  {
    ScanningShape(e, l);
    if l != [] {
      VisitKeeps(e, l);
      ScanningShape(Visit(e, l[0]), l[1..]);
      hide Scanning, Visit, Inv;
      ScanKeeps(Visit(e, l[0]), l[1..]);
    }
  }

  lemma SendKeeps(e: Event, mask: bv32)
    requires Inv(e)
    ensures Shape(e) && Inv(Send(e, mask).0)
  {
    InvShape(e);
    if mask != 0 {
      hide Scanning, Scan, Inv, Added, Waiting;
      SendScans(e, Added(e.bits, mask));
      ScanKeeps(e.(bits := Added(e.bits, mask)), e.core.sys.wait[WAITERS]);
    }
  }

  lemma SendScans(e: Event, bits: bv32)
    requires Inv(e)
    ensures Scanning(e.(bits := bits), e.core.sys.wait[WAITERS])
  {
    WaitDistinct(e.core);
    hide CoreInv, NoDup, Met;
  }

  lemma WaitDistinct(c: Core)
    requires CoreInv(c) && |c.sys.wait| == 1
    ensures NoDup(c.sys.wait[WAITERS])
  {
    hide CallsOk, NoDup;
  }

  // ---- The other steps -----------------------------------------------------------------------

  /** Nobody joins the waiting or the resumed threads. */
  lemma InvLess(e: Event, e': Event)
    requires Inv(e) && Sound(e') && e'.want == e.want && e'.owed == e.owed && e'.stray == e.stray
    requires e'.bits == e.bits || exists w :: e'.bits == LeftNow(w, e.bits)
    requires forall t :: t in e'.core.sys.wait[WAITERS] ==> t in e.core.sys.wait[WAITERS]
    requires forall t :: IsResumed(e'.core.sys.tcb, e'.core.blocked, WAITERS, t)
                     ==> IsResumed(e.core.sys.tcb, e.core.blocked, WAITERS, t)
    ensures Inv(e')
  {
    hide CoreInv, Met, IsResumed, LeftNow;
    forall t | t in e'.core.sys.wait[WAITERS] ensures t in e'.want && !Met(e'.want[t], e'.bits) {
      if e'.bits != e.bits {
        var w :| e'.bits == LeftNow(w, e.bits);
        LeftMeetsNobody(w, e.want[t], e.bits);
      }
    }
  }

  lemma ErrorLess(e: Event, t: Tid, err: Err, w: Want, take: bool)
    requires Inv(e) && t in e.core.sys.tcb && t !in e.core.blocked
    ensures Inv(e.(core := Fail(e.core, t, err), bits := if take then LeftNow(w, e.bits) else e.bits))
  {
    FailKeeps(e.core, t, err);
    hide CoreInv, Resumed, Met, LeftNow, NobodyMet, Paid;
    InvLess(e, e.(core := Fail(e.core, t, err), bits := if take then LeftNow(w, e.bits) else e.bits));
  }

  lemma JoinKeeps(e: Event, t: Tid, w: Want, timed: bool)
    requires Inv(e) && t in e.core.sys.tcb && e.core.sys.tcb[t].stat == Ready && !Met(w, e.bits)
    requires t !in e.core.blocked
    ensures Shape(e)
    ensures Inv(e.(core := Enter(e.core, WAITERS, t, e.flag, timed), want := e.want[t := w], stray := e.stray - {t}))
  {
    InvShape(e);
    NotWaiting(e.core, t);
    EnterCore(e.core, t, e.flag, timed);
    hide CoreInv, Met, Enter, IsResumed, Paid, NobodyMet;
    var e' := e.(core := Enter(e.core, WAITERS, t, e.flag, timed), want := e.want[t := w], stray := e.stray - {t});
    assert e'.core.blocked.Keys == e.core.blocked.Keys + {t};
    JoinMeets(e, e', t, w);
    JoinPaid(e, e', t, w);
  }

  lemma JoinMeets(e: Event, e': Event, t: Tid, w: Want)
    requires |e.core.sys.wait| == 1 && |e'.core.sys.wait| == 1 && !Met(w, e.bits) && e'.bits == e.bits
    requires NobodyMet(e.core.sys.wait[WAITERS], [], e.want, e.bits) && e'.want == e.want[t := w]
    requires forall u :: u in e'.core.sys.wait[WAITERS] ==> u == t || u in e.core.sys.wait[WAITERS]
    ensures NobodyMet(e'.core.sys.wait[WAITERS], [], e'.want, e'.bits)
  {
    hide Met;
  }

  lemma JoinPaid(e: Event, e': Event, t: Tid, w: Want)
    requires Paid(e) && e'.want == e.want[t := w] && e'.owed == e.owed && e'.stray == e.stray - {t}
    requires forall u :: IsResumed(e'.core.sys.tcb, e'.core.blocked, WAITERS, u) ==>
               u != t && IsResumed(e.core.sys.tcb, e.core.blocked, WAITERS, u)
    ensures Paid(e')
  {
    hide IsResumed;
  }

  lemma EnterCore(c: Core, t: Tid, flag: Flag, timed: bool)
    requires CoreInv(c) && |c.sys.wait| == 1 && t in c.sys.tcb && c.sys.tcb[t].stat == Ready
    ensures var c' := Enter(c, WAITERS, t, flag, timed);
      && CoreInv(c') && |c'.sys.wait| == 1 && c'.blocked.Keys == c.blocked.Keys + {t}
      && (forall u :: u in c'.sys.wait[WAITERS] ==> u == t || u in c.sys.wait[WAITERS])
      && (forall u :: IsResumed(c'.sys.tcb, c'.blocked, WAITERS, u) ==>
            u != t && IsResumed(c.sys.tcb, c.blocked, WAITERS, u))
  {
    hide CoreInv, Block, Joined, ResumedOf;
    EnterKeeps(c, WAITERS, t, flag, timed);
    var c' := Enter(c, WAITERS, t, flag, timed);
    JoinedAt(c.sys.wait, c'.sys.wait, WAITERS, t);
    forall u | IsResumed(c'.sys.tcb, c'.blocked, WAITERS, u)
      ensures u != t && IsResumed(c.sys.tcb, c.blocked, WAITERS, u) {}
  }

  lemma RecvKeeps(e: Event, t: Tid, mask: bv32, option: bv8, timeout: int)
    requires Inv(e) && Enabled(e, DoRecv(t, mask, option, timeout))
    ensures Inv(Recv(e, t, mask, option, timeout).0)
  {
    hide Inv, Met, GotNow, LeftNow, Waiting;
    var w := Want(mask, option);
    if mask != 0 {
      if Met(w, e.bits) {
        ErrorLess(e, t, EOK, w, true);
      } else if timeout == 0 {
        ErrorLess(e, t, ETIMEOUT, w, false);
      } else {
        JoinKeeps(e, t, w, timeout > 0);
      }
    }
  }

  lemma ContinueKeeps(e: Event, t: Tid)
    requires Inv(e) && t in e.core.sys.tcb && e.core.sys.tcb[t].stat == Ready
    ensures Inv(e.(core := Leave(e.core, t)))
  {
    LeaveKeeps(e.core, t);
    hide CoreInv, Resumed, Met, NobodyMet, Paid;
    InvLess(e, e.(core := Leave(e.core, t)));
  }

  lemma EventExpireKeeps(e: Event, t: Tid)
    requires Inv(e) && t in e.core.sys.tcb && e.core.sys.tcb[t].armed
    ensures e.core.sys.tcb[t].stat == Suspended && e.core.sys.tcb[t].prio < |e.core.sys.ready|
    ensures Inv(e.(core := Expire(e.core, t)))
  {
    assert e.core.sys.tcb[t].stat == Suspended by { hide ReadyPlaced, WaitPlaced, CallsOk; }
    ExpireKeeps(e.core, t);
    hide CoreInv, Resumed, Met, NobodyMet, Paid, Timeout;
    InvLess(e, e.(core := Expire(e.core, t)));
  }

  /** A receiver that somebody else resumes is no longer waiting and gets nothing it is owed. */
  lemma RousedKeeps(e: Event, t: Tid)
    requires Inv(e) && t in e.core.sys.tcb && e.core.sys.tcb[t].stat == Suspended && t in e.core.blocked
    ensures Knows(e, t) && Inv(Roused(e, t)) && e.core.sys.tcb[t].error == EOK
  {
    hide CoreInv, Met, Rouse, IsResumed, Without;
    SleeperError(e.core, t);
    RouseKeeps(e.core, t);
    RouseResumed(e.core, t);
    var e' := Roused(e, t);
    RousedMeets(e, e', t);
    RousedPaid(e, e', t);
  }

  lemma RouseResumed(c: Core, t: Tid)
    requires CoreInv(c) && t in c.sys.tcb && c.sys.tcb[t].prio < |c.sys.ready|
    ensures forall u :: u != t ==>
      (IsResumed(Rouse(c, t).sys.tcb, c.blocked, WAITERS, u) <==> IsResumed(c.sys.tcb, c.blocked, WAITERS, u))
  {}

  lemma RousedMeets(e: Event, e': Event, t: Tid)
    requires |e.core.sys.wait| == 1 && |e'.core.sys.wait| == 1 && e'.bits == e.bits && e'.want == e.want
    requires e'.core.sys.wait[WAITERS] == Without(e.core.sys.wait[WAITERS], t)
    requires NobodyMet(e.core.sys.wait[WAITERS], [], e.want, e.bits)
    ensures NobodyMet(e'.core.sys.wait[WAITERS], [], e'.want, e'.bits)
  {
    hide Met;
  }

  lemma RousedPaid(e: Event, e': Event, t: Tid)
    requires Paid(e) && e'.want == e.want && e'.owed == e.owed && e'.stray == e.stray + {t}
    requires forall u :: u != t && IsResumed(e'.core.sys.tcb, e'.core.blocked, WAITERS, u) ==>
               IsResumed(e.core.sys.tcb, e.core.blocked, WAITERS, u)
    ensures Paid(e')
  {
    hide IsResumed;
  }

  lemma ResetKeeps(e: Event)
    requires Inv(e)
    ensures Shape(e) && Inv(Reset(e)) && Reset(e).core.sys.wait == [[]]
  {
    hide CoreInv, Resumed, Met, KickAll, IsResumed, NobodyMet, Waiting;
    InvShape(e);
    KickAllKeeps(e.core, WAITERS);
    KickNobody(e.core);
    NobodyThere(e.want, 0);
  }

  lemma KickNobody(c: Core)
    requires CoreInv(c) && |c.sys.wait| == 1
    ensures InRange(c.sys, c.sys.wait[WAITERS])
    ensures forall t :: IsResumed(KickAll(c, WAITERS).sys.tcb, c.blocked, WAITERS, t) ==>
              IsResumed(c.sys.tcb, c.blocked, WAITERS, t)
  {
    hide CoreInv, KickAll, IsResumed, KickedAll;
    KickAllKeeps(c, WAITERS);
    var c' := KickAll(c, WAITERS);
    assert Resumed(c', WAITERS) == Resumed(c, WAITERS);
    forall t | IsResumed(c'.sys.tcb, c.blocked, WAITERS, t) ensures IsResumed(c.sys.tcb, c.blocked, WAITERS, t) {
      ResumedMember(c'.sys.tcb, c'.blocked, WAITERS, t);
      ResumedMember(c.sys.tcb, c.blocked, WAITERS, t);
    }
  }

  lemma NobodyThere(want: map<Tid, Want>, bits: bv32)
    ensures NobodyMet([], [], want, bits)
  {}

  lemma EventAsideKeeps(e: Event, o: Other)
    requires Inv(e) && OtherEnabled(e.core, o)
    ensures Inv(e.(core := Aside(e.core, o)))
  {
    AsideKeeps(e.core, o);
    hide CoreInv, Resumed, Met, NobodyMet, Paid, Aside;
    InvLess(e, e.(core := Aside(e.core, o)));
  }

  lemma NextKeeps(e: Event, s: Step)
    requires Inv(e) && Enabled(e, s)
    ensures Inv(Next(e, s))
  {
    hide Inv, Send, Recv, Reset, Expire, Roused, Aside, Waiting;
    match s
    case DoSend(mask) => SendKeeps(e, mask);
    case DoRecv(t, mask, option, timeout) => RecvKeeps(e, t, mask, option, timeout);
    case DoContinue(t) => ContinueKeeps(e, t);
    case DoExpire(t) => EventExpireKeeps(e, t);
    case DoRouse(t) => RousedKeeps(e, t);
    case DoReset => ResetKeeps(e);
    case DoAside(o) => EventAsideKeeps(e, o);
  }

  // ---- Over every run ------------------------------------------------------------------------

  lemma CreateInv(sys: Sys, flag: Flag)
    requires Placed(sys)
    ensures Inv(Create(sys, flag))
  {
    hide Placed;
    NobodyWaits(sys, [[]]);
  }

  lemma {:induction false} RunKeeps(e: Event, ss: seq<Step>)
    requires Inv(e) && EnabledRun(e, ss)
    ensures Inv(Run(e, ss))
    decreases |ss|
  {
    hide Inv, Next, Enabled;
    if ss != [] {
      NextKeeps(e, ss[0]);
      RunKeeps(Next(e, ss[0]), ss[1..]);
    }
  }

  /** After every step of every run nobody waits for bits that are set. */
  lemma NoMissedWakeup(sys: Sys, flag: Flag, ss: seq<Step>)
    requires Placed(sys) && EnabledRun(Create(sys, flag), ss)
    ensures var e := Run(Create(sys, flag), ss);
      && |e.core.sys.wait| == 1
      && forall t :: t in e.core.sys.wait[WAITERS] ==> t in e.want && !Met(e.want[t], e.bits)
  {
    CreateInv(sys, flag);
    RunKeeps(Create(sys, flag), ss);
    hide Run, Create, EnabledRun, CoreInv, Met;
  }

  /** A waiting receiver that somebody else resumes reports all the bits it has asked for although
      its condition does not hold. */
  lemma StrayReceives(e: Event, t: Tid)
    requires Inv(e) && Enabled(e, DoRouse(t))
    ensures Knows(Roused(e, t), t) && t in e.want && !Met(e.want[t], e.bits)
    ensures Continue(Roused(e, t), t).1 == Returned(EOK, e.want[t].bits)
  {
    hide CoreInv, Met, Rouse, Without, Paid;
    SleeperError(e.core, t);
    RouseEffect(e.core, t);
  }

  // ---- What a receiver asked for and who resumed it ------------------------------------------

  /** The bits a thread asked for in its last call, and whether somebody else has resumed it since. */
  datatype Call = Call(mask: bv32, stray: bool)

  function After(c: Call, s: Step, t: Tid): Call {
    match s
    case DoRecv(u, mask, _, _) => if u == t then Call(mask, false) else c
    case DoRouse(u) => if u == t then c.(stray := true) else c
    case _ => c
  }

  /** Read off the steps of a run alone. */
  function History(c: Call, ss: seq<Step>, t: Tid): Call
    decreases |ss|
  {
    if ss == [] then c else History(After(c, ss[0], t), ss[1..], t)
  }

  /** A thread in a call: whether it is stray, and that it still has the bits it asked for unless a
      send has resumed it. */
  ghost predicate Agrees(e: Event, t: Tid, c: Call) {
    |e.core.sys.wait| == 1 && (t in e.core.blocked ==>
      && t in e.want && (t in e.stray <==> c.stray) && (t in e.stray ==> t !in e.core.sys.wait[WAITERS])
      && (t in e.core.sys.wait[WAITERS] || t in e.stray ==> e.want[t].bits == c.mask))
  }

  /** A step that is not about thread t. */
  lemma AgreesElsewhere(e: Event, e': Event, t: Tid, c: Call)
    requires Agrees(e, t, c) && |e'.core.sys.wait| == 1 && (t in e'.stray <==> t in e.stray)
    requires t in e'.core.blocked ==> t in e.core.blocked
    requires t in e'.core.sys.wait[WAITERS] ==> t in e.core.sys.wait[WAITERS]
    requires t in e.want ==> t in e'.want && e'.want[t] == e.want[t]
    ensures Agrees(e', t, c)
  {}

  lemma GrantAgrees(e: Event, u: Tid, t: Tid, c: Call)
    requires Sound(e) && Agrees(e, t, c) && u in e.core.sys.wait[WAITERS] && Knows(e, u) && u in e.want
    ensures Agrees(Grant(e, u), t, c)
  {
    hide CoreInv, Resume, GotLater, LeftLater, GotNow, NoDup;
    PickKeeps(e.core, WAITERS, u);
    if u != t {
      hide Without, Agrees;
      AgreesElsewhere(e, Grant(e, u), t, c);
    }
  }

  lemma {:induction false} ScanAgrees(e: Event, l: seq<Tid>, t: Tid, c: Call)
    requires Scanning(e, l) && Agrees(e, t, c)
    ensures Waiting(e, l) && Agrees(Scan(e, l), t, c)
    decreases |l|
  {
    ScanningShape(e, l);
    if l != [] {
      VisitKeeps(e, l);
      ScanningShape(Visit(e, l[0]), l[1..]);
      assert l[0] in l;
      if Met(e.want[l[0]], e.bits) { GrantAgrees(e, l[0], t, c); }
      hide Scanning, Agrees, Grant, Met;
      ScanAgrees(Visit(e, l[0]), l[1..], t, c);
    }
  }

  lemma SendAgrees(e: Event, mask: bv32, t: Tid, c: Call)
    requires Inv(e) && Agrees(e, t, c)
    ensures Shape(e) && Agrees(Send(e, mask).0, t, c)
  {
    InvShape(e);
    if mask != 0 {
      var e1 := e.(bits := Added(e.bits, mask));
      AgreesElsewhere(e, e1, t, c);
      hide Scanning, Scan, Inv, Added, Waiting, Agrees;
      SendScans(e, Added(e.bits, mask));
      ScanAgrees(e1, e.core.sys.wait[WAITERS], t, c);
    }
  }

  lemma RecvAgrees(e: Event, s: Step, t: Tid, c: Call)
    requires Inv(e) && s.DoRecv? && Enabled(e, s) && Agrees(e, t, c)
    ensures Agrees(Next(e, s), t, After(c, s, t))
  {
    hide CoreInv, Enter, IsResumed, Paid, NobodyMet, Met, Waiting, LeftNow, GotNow;
    EnterCore(e.core, s.t, e.flag, s.timeout > 0);
    EnterSelf(e.core, s.t, e.flag, s.timeout > 0);
    if s.t != t {
      hide Agrees;
      AgreesElsewhere(e, Next(e, s), t, c);
    }
  }

  lemma EnterSelf(c: Core, t: Tid, flag: Flag, timed: bool)
    requires t in c.sys.tcb && |c.sys.wait| == 1
    ensures Enter(c, WAITERS, t, flag, timed).blocked == c.blocked[t := WAITERS]
  {}

  lemma RouseAgrees(e: Event, u: Tid, t: Tid, c: Call)
    requires Inv(e) && Enabled(e, DoRouse(u)) && Agrees(e, t, c)
    ensures Agrees(Roused(e, u), t, After(c, DoRouse(u), t))
  {
    SleeperError(e.core, u);
    RouseKeeps(e.core, u);
    InItsList(e.core, u);
    hide CoreInv, Rouse, IsResumed, Resumed, Paid, NobodyMet, Waiting;
  }

  lemma InItsList(c: Core, t: Tid)
    requires CoreInv(c) && |c.sys.wait| == 1 && t in c.blocked && t in c.sys.tcb && c.sys.tcb[t].stat == Suspended
    ensures t in c.sys.wait[WAITERS] && NoDup(c.sys.wait[WAITERS]) && t !in Without(c.sys.wait[WAITERS], t)
  {
    assert Caller(c.sys.tcb, c.sys.wait, c.blocked, t);
    WaitDistinct(c);
    hide CoreInv, NoDup;
  }

  lemma NextAgrees(e: Event, s: Step, t: Tid, c: Call)
    requires Inv(e) && Enabled(e, s) && Agrees(e, t, c)
    ensures Agrees(Next(e, s), t, After(c, s, t))
  {
    hide CoreInv, Paid, NobodyMet, Send, Recv, Expire, Roused, Aside, KickAll, Waiting, Resumed, Agrees, Timeout, Without;
    match s
    case DoSend(mask) => SendAgrees(e, mask, t, c);
    case DoRecv(_, _, _, _) => RecvAgrees(e, s, t, c);
    case DoRouse(u) => RouseAgrees(e, u, t, c);
    case DoContinue(_) => AgreesElsewhere(e, Next(e, s), t, c);
    case DoExpire(u) =>
      EventExpireKeeps(e, u);
      ExpireKeeps(e.core, u);
      AgreesElsewhere(e, Next(e, s), t, c);
    case DoReset =>
      ResetKeeps(e);
      AgreesElsewhere(e, Next(e, s), t, c);
    case DoAside(o) =>
      AsideKeeps(e.core, o);
      AgreesElsewhere(e, Next(e, s), t, c);
  }

  lemma {:induction false} RunAgrees(e: Event, ss: seq<Step>, t: Tid, c: Call)
    requires Inv(e) && EnabledRun(e, ss) && Agrees(e, t, c)
    ensures Agrees(Run(e, ss), t, History(c, ss, t))
    decreases |ss|
  {
    hide Inv, Next, Enabled, Agrees, After;
    if ss != [] {
      NextKeeps(e, ss[0]);
      NextAgrees(e, ss[0], t, c);
      RunAgrees(Next(e, ss[0]), ss[1..], t, After(c, ss[0], t));
    }
  }

  lemma {:induction false} NeverRoused(c: Call, ss: seq<Step>, t: Tid)
    requires !c.stray && forall s :: s in ss ==> s != DoRouse(t)
    ensures !History(c, ss, t).stray
    decreases |ss|
  {
    if ss != [] {
      assert ss[0] in ss && forall s :: s in ss[1..] ==> s in ss;
      assert ss[0].DoRouse? ==> ss[0] == DoRouse(ss[0].t);
      NeverRoused(After(c, ss[0], t), ss[1..], t);
    }
  }

  /** Whatever happens before it runs again: a receiver that a send has resumed returns exactly the bits
      an immediate receive would have returned when it was resumed. One that somebody else has resumed
      since it called, and only such a one, returns all the bits it has asked for instead. */
  lemma ResumedReceive(sys: Sys, flag: Flag, ss: seq<Step>, t: Tid)
    requires Placed(sys) && EnabledRun(Create(sys, flag), ss)
    requires Enabled(Run(Create(sys, flag), ss), DoContinue(t))
    ensures var e, c := Run(Create(sys, flag), ss), History(Call(0, false), ss, t);
      && (t in e.stray <==> c.stray)
      && (e.core.sys.tcb[t].error == EOK && !c.stray ==> t in e.owed && Continue(e, t).1 == Returned(EOK, e.owed[t]))
      && (e.core.sys.tcb[t].error == EOK && c.stray ==> Continue(e, t).1 == Returned(EOK, c.mask))
    ensures var e := Run(Create(sys, flag), ss);
      (forall s :: s in ss ==> s != DoRouse(t)) && e.core.sys.tcb[t].error == EOK ==>
        t in e.owed && Continue(e, t).1 == Returned(EOK, e.owed[t])
  {
    CreateInv(sys, flag);
    RunKeeps(Create(sys, flag), ss);
    CreateAgrees(sys, flag, t);
    RunAgrees(Create(sys, flag), ss, t, Call(0, false));
    hide Run, Create, EnabledRun, Inv, History;
    if forall s :: s in ss ==> s != DoRouse(t) { NeverRoused(Call(0, false), ss, t); }
    Answer(Run(Create(sys, flag), ss), t, History(Call(0, false), ss, t));
  }

  lemma Answer(e: Event, t: Tid, c: Call)
    requires Inv(e) && Agrees(e, t, c) && Enabled(e, DoContinue(t))
    ensures t in e.stray <==> c.stray
    ensures e.core.sys.tcb[t].error == EOK && !c.stray ==> t in e.owed && Continue(e, t).1 == Returned(EOK, e.owed[t])
    ensures e.core.sys.tcb[t].error == EOK && c.stray ==> Continue(e, t).1 == Returned(EOK, c.mask)
  {
    hide Met, NobodyMet, Placed, Waiting;
    assert Caller(e.core.sys.tcb, e.core.sys.wait, e.core.blocked, t);
    if e.core.sys.tcb[t].error == EOK {
      assert IsResumed(e.core.sys.tcb, e.core.blocked, WAITERS, t);
    }
  }

  lemma CreateAgrees(sys: Sys, flag: Flag, t: Tid)
    ensures Agrees(Create(sys, flag), t, Call(0, false))
  {}
}

/** struct rt_event, updated in place. */
module Event {
  import opened Base
  import opened Threads
  import opened Waiters
  import opened EventLemmas
  import S = EventSpec
  import opened EventSpec
  import K = Kernel

  lemma ScanStep(e: S.Event, l: seq<Tid>)
    requires Scanning(e, l) && l != []
    ensures Waiting(e, l) && Knows(e, l[0]) && l[0] in e.want && Scanning(Visit(e, l[0]), l[1..])
    ensures Waiting(Visit(e, l[0]), l[1..]) && Scan(e, l) == Scan(Visit(e, l[0]), l[1..])
  {
    ScanningShape(e, l);
    VisitKeeps(e, l);
    ScanningShape(Visit(e, l[0]), l[1..]);
    hide Scanning, Visit;
  }

  /** An event with the threads that wait for it; `want` is their event_set and event_info. */
  class Event {
    const k: K.Kernel
    const flag: Flag
    var bits: bv32
    var want: map<Tid, Want>
    var calls: map<Tid, nat>
    ghost var owed: map<Tid, bv32>
    ghost var stray: set<Tid>

    ghost function View(): S.Event
      reads this, k, k.rq
    {
      S.Event(Core(k.View(), calls), flag, bits, want, owed, stray)
    }

    ghost predicate Valid()
      reads this, k, k.rq
    {
      k.Valid() && Inv(View())
    }

    /** rt_event_init on a kernel with one wait list nobody waits in. */
    constructor (kernel: K.Kernel, kind: Flag)
      requires kernel.Valid() && kernel.wait == [[]]
      ensures Valid() && k == kernel && View() == Create(kernel.View(), kind)
    {
      hide K.BitsInOrder, Inv, Placed;
      k, flag, bits, want, calls, owed, stray := kernel, kind, 0, map[], map[], map[], {};
      new;
      CreateInv(kernel.View(), kind);
    }

    /** The bits t gets, and the bits it takes away. */
    method Store(t: Tid)
      requires t in want
      modifies this`want, this`bits, this`owed
      ensures bits == LeftLater(old(want[t]), old(bits))
      ensures want == old(want)[t := old(want[t]).(bits := GotLater(old(want[t]), old(bits)))]
      ensures owed == old(owed)[t := GotNow(old(want[t]), old(bits))]
    {
      hide Has, Common, Cleared;
      var w := want[t];
      owed := owed[t := GotNow(w, bits)];
      if !Has(w.option, FLAG_AND) {
        want := want[t := w.(bits := Common(w.bits, bits))];
      } else {
        want := want[t := w];
      }
      if Has(w.option, FLAG_CLEAR) {
        bits := Cleared(bits, want[t].bits);
      }
    }

    /** The resumption of the n-th waiting thread, whose condition holds. */
    method Grant(n: nat)
      requires k.Valid() && Sound(View()) && n < |k.wait[WAITERS]| && Waiting(View(), k.wait[WAITERS])
      modifies this, k`tcb, k`wait, k.rq
      ensures k.Valid() && |k.wait| == 1 && n <= |k.wait[WAITERS]| == old(|k.wait[WAITERS]|) - 1
      ensures k.wait[WAITERS][n..] == old(k.wait[WAITERS])[n + 1..]
      ensures View() == S.Grant(old(View()), old(k.wait[WAITERS])[n])
    {
      hide K.BitsInOrder, Placed, Has, Common, Cleared, NoDup, CoreInv, Without, Threads.Resume, GotNow, GotLater,
        LeftLater;
      var t := k.wait[WAITERS][n];
      PickKeeps(View().core, WAITERS, t);
      WithoutAt(k.wait[WAITERS], n);
      Store(t);
      k.Resume(t);
    }

    /** The loop of rt_event_send: n moves on before the thread may leave the list. */
    method ScanList()
      requires k.Valid() && |k.wait| == 1 && Scanning(View(), k.wait[WAITERS])
      modifies this, k`tcb, k`wait, k.rq
      ensures Valid() && Waiting(old(View()), old(k.wait[WAITERS]))
      ensures View() == Scan(old(View()), old(k.wait[WAITERS]))
    {
      ghost var e, l := View(), k.wait[WAITERS];
      ScanningShape(e, l);
      hide K.BitsInOrder, Scanning, Scan, Waiting, Placed;
      assert l[0..] == l;
      var n: nat := 0;
      while n < |k.wait[WAITERS]|
        invariant k.Valid() && |k.wait| == 1 && n <= |k.wait[WAITERS]|
        invariant Scanning(View(), k.wait[WAITERS][n..]) && Waiting(View(), k.wait[WAITERS][n..])
        invariant Scan(View(), k.wait[WAITERS][n..]) == Scan(e, l)
        decreases |k.wait[WAITERS]| - n
      {
        n := Round(n);
      }
      assert k.wait[WAITERS][n..] == [];
      ScanKeeps(View(), []);
      ScanDone(View());
      hide Inv;
    }

    lemma ScanDone(e: S.Event)
      ensures Waiting(e, []) && Scan(e, []) == e
    {}

    /** One round of the loop of rt_event_send. */
    method Round(n: nat) returns (m: nat)
      requires k.Valid() && |k.wait| == 1 && n < |k.wait[WAITERS]|
      requires Scanning(View(), k.wait[WAITERS][n..]) && Waiting(View(), k.wait[WAITERS][n..])
      modifies this, k`tcb, k`wait, k.rq
      ensures k.Valid() && |k.wait| == 1 && m <= |k.wait[WAITERS]|
      ensures |k.wait[WAITERS]| - m == old(|k.wait[WAITERS]|) - n - 1
      ensures Scanning(View(), k.wait[WAITERS][m..]) && Waiting(View(), k.wait[WAITERS][m..])
      ensures Scan(View(), k.wait[WAITERS][m..]) == Scan(old(View()), old(k.wait[WAITERS])[n..])
    {
      ghost var l := k.wait[WAITERS][n..];
      var t := k.wait[WAITERS][n];
      assert l[0] == t && l[1..] == k.wait[WAITERS][n + 1..];
      hide K.BitsInOrder, Scanning, Scan, S.Grant, Waiting, Sound, Met, Placed;
      ScanStep(View(), l);
      ScanningParts(View(), l);
      if Met(want[t], bits) {
        Grant(n);
        m := n;
      } else {
        m := n + 1;
      }
    }

    lemma ScanningParts(e: S.Event, l: seq<Tid>)
      requires Scanning(e, l)
      ensures Sound(e) && |e.core.sys.wait| == 1 && Waiting(e, e.core.sys.wait[WAITERS])
    {
      ScanningShape(e, l);
      hide CoreInv, Paid, NobodyMet;
    }

    lemma SendReady(e: S.Event)
      requires Inv(e)
      ensures Shape(e)
    {
      InvShape(e);
    }

    /** rt_event_send */
    method Send(mask: bv32) returns (o: Outcome)
      requires Valid()
      modifies this, k`tcb, k`wait, k.rq
      ensures Valid() && Shape(old(View()))
      ensures View() == S.Send(old(View()), mask).0 && o == S.Send(old(View()), mask).1
    {
      hide K.BitsInOrder, Inv, Scanning, Scan, Added, Waiting, Placed;
      SendReady(View());
      if mask == 0 {
        return Returned(ERROR, 0);
      }
      SendScans(View(), Added(bits, mask));
      bits := Added(bits, mask);
      ScanList();
      return Returned(EOK, 0);
    }

    /** rt_event_recv up to its rt_schedule. */
    method Recv(t: Tid, mask: bv32, option: bv8, timeout: int) returns (o: Outcome)
      requires Valid() && t in k.tcb && k.tcb[t].stat == Ready && t !in calls
      modifies this, k`tcb, k`wait, k.rq
      ensures Valid() && Shape(old(View())) && Knows(old(View()), t)
      ensures View() == S.Recv(old(View()), t, mask, option, timeout).0
      ensures o == S.Recv(old(View()), t, mask, option, timeout).1
    {
      hide K.BitsInOrder, Inv, Placed, Met, LeftNow, GotNow, Waiting, Threads.Block;
      RecvKnown(View(), t);
      if mask == 0 {
        return Returned(ERROR, 0);
      }
      RecvKeeps(View(), t, mask, option, timeout);
      var w := Want(mask, option);
      if Met(w, bits) {
        k.SetError(t, EOK);
        o := Returned(EOK, GotNow(w, bits));
        bits := LeftNow(w, bits);
      } else if timeout == 0 {
        k.SetError(t, ETIMEOUT);
        o := Returned(ETIMEOUT, 0);
      } else {
        want := want[t := w];
        stray := stray - {t};
        calls := calls[t := WAITERS];
        k.Block(WAITERS, t, flag, timeout > 0);
        o := Blocked;
      }
    }

    lemma ContinueKnown(e: S.Event, t: Tid)
      requires Inv(e) && t in e.core.sys.tcb && t in e.core.blocked
      ensures Knows(e, t) && t in e.want
    {
      InvShape(e);
    }

    lemma RecvKnown(e: S.Event, t: Tid)
      requires Inv(e) && t in e.core.sys.tcb
      ensures Knows(e, t) && Shape(e) && |e.core.sys.wait| == 1
    {
      InvShape(e);
    }

    /** A waiting receiver goes on after rt_schedule. */
    method Continue(t: Tid) returns (o: Outcome)
      requires Valid() && t in k.tcb && k.tcb[t].stat == Ready && t in calls
      modifies this`calls
      ensures Valid() && Knows(old(View()), t) && t in old(want)
      ensures View() == S.Continue(old(View()), t).0 && o == S.Continue(old(View()), t).1
    {
      hide K.BitsInOrder, Inv, Placed, Waiting;
      ContinueKnown(View(), t);
      ContinueKeeps(View(), t);
      calls := calls - {t};
      o := if k.tcb[t].error != EOK then Returned(k.tcb[t].error, 0) else Returned(EOK, want[t].bits);
    }

    /** The timer of a waiting thread fires. */
    method Expire(t: Tid)
      requires Valid() && t in k.tcb && k.tcb[t].armed
      modifies k`tcb, k`wait, k.rq
      ensures Valid() && Knows(old(View()), t)
      ensures View() == old(View()).(core := Waiters.Expire(old(View()).core, t))
    {
      hide K.BitsInOrder, Inv, Placed, Waiting;
      EventExpireKeeps(View(), t);
      k.Timeout(t);
    }

    /** rt_thread_resume on a waiting receiver, called by somebody else */
    method Rouse(t: Tid)
      requires Valid() && t in k.tcb && k.tcb[t].stat == Suspended && t in calls
      modifies this`stray, k`tcb, k`wait, k.rq
      ensures Valid() && Knows(old(View()), t) && View() == Roused(old(View()), t)
    {
      hide K.BitsInOrder, Inv, Placed, Waiting;
      RousedKeeps(View(), t);
      stray := stray + {t};
      k.Resume(t);
    }

    /** rt_event_control with RT_IPC_CMD_RESET */
    method Reset()
      requires Valid()
      modifies this, k`tcb, k`wait, k.rq
      ensures Valid() && Shape(old(View())) && View() == S.Reset(old(View()))
      ensures k.wait == [[]] && bits == 0
    {
      hide K.BitsInOrder, Inv, Placed, Threads.ResumeAll, Waiting;
      ResetKeeps(View());
      k.ResumeAll(WAITERS);
      bits := 0;
    }
  }
}
