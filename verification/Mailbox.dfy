/** No mail is lost, none is overtaken, and nobody sleeps through a wake-up. */
module MailboxLemmas {
  import opened Base
  import opened Threads
  import opened ThreadLemmas
  import opened Waiters
  import opened MailboxSpec

  // ---- The ring is a queue -------------------------------------------------------------------

  function Slot(off: nat, i: nat, size: nat): int {
    if off + i < size then off + i else off + i - size
  }

  function Contents(r: Ring): (c: seq<Mail>)
    requires RingShape(r)
    ensures |c| == r.entry
  {
    seq(r.entry, i requires 0 <= i < r.entry => r.buf[Slot(r.outOff, i, |r.buf|)])
  }

  ghost predicate RingInv(r: Ring) {
    RingShape(r) && (|r.buf| > 0 ==> r.inOff == Slot(r.outOff, r.entry, |r.buf|))
  }

  /** Putting a mail in appends it, leaving all mails already there as they are. */
  lemma PutAppends(r: Ring, v: Mail)
    requires RingInv(r) && !Full(r)
    ensures RingInv(Put(r, v)) && Contents(Put(r, v)) == Contents(r) + [v]
  {
    var r' := Put(r, v);
    forall i | 0 <= i < r'.entry ensures Contents(r')[i] == (Contents(r) + [v])[i] {}
  }

  /** Taking a mail out removes the oldest one. */
  lemma TakeRemoves(r: Ring)
    requires RingInv(r) && r.entry > 0
    ensures RingInv(Take(r).0) && Contents(r) == [Take(r).1] + Contents(Take(r).0)
  {
    var r' := Take(r).0;
    forall i | 0 <= i < r.entry ensures Contents(r)[i] == ([Take(r).1] + Contents(r'))[i] {}
  }

  // ---- The invariant -------------------------------------------------------------------------

  ghost predicate CoreOk(c: Core, locals: map<Tid, Locals>) {
    CoreInv(c) && |c.sys.wait| == 2 && forall t :: t in c.blocked ==> t in locals
  }

  /** A sleeping receiver is backed by as many resumed receivers as there are mails, a sleeping
      sender by as many resumed senders as there are free slots. */
  ghost predicate NoLostWakeup(c: Core, entry: int, free: int) {
    Covered(c, RECEIVERS, entry) && Covered(c, SENDERS, free)
  }

  ghost predicate Inv(m: Mb) {
    && CoreOk(m.core, m.locals)
    && RingInv(m.ring) && m.sent == m.got + Contents(m.ring)
    && NoLostWakeup(m.core, m.ring.entry, |m.ring.buf| - m.ring.entry)
  }

  lemma InvShape(m: Mb)
    requires CoreOk(m.core, m.locals) && RingInv(m.ring)
    ensures Shape(m) && forall t :: t in m.core.sys.tcb ==> Knows(m, t)
  {
    CoreRanges(m.core);
  }

  // ---- Sections ------------------------------------------------------------------------------

  /** The mail is in and a receiver is on its way; one free slot less is needed by senders. */
  lemma DepositKeeps(m: Mb, v: Mail)
    requires Inv(m) && !Full(m.ring)
    ensures Shape(m)
    ensures var m' := Deposit(m, v);
      && CoreOk(m'.core, m'.locals) && RingInv(m'.ring) && m'.sent == m'.got + Contents(m'.ring)
      && NoLostWakeup(m'.core, m'.ring.entry, |m'.ring.buf| - m'.ring.entry + 1)
      && m'.ring.entry == m.ring.entry + 1
      && (forall t :: t in m.core.sys.tcb && m.core.sys.tcb[t].stat == Ready ==>
            (t in m'.core.sys.tcb && m'.core.sys.tcb[t] == m.core.sys.tcb[t]))
  {
    InvShape(m);
    DepositBooks(m, v);
    WakeCovers(m.core, RECEIVERS, m.ring.entry);
    WakeSize(m.core, RECEIVERS);
    assert Covered(m.core, SENDERS, |m.ring.buf| - m.ring.entry);
    hide CoreInv, Covered, RingInv, Contents, Put, Wake, Inv, RingShape, InRange;
  }

  lemma DepositBooks(m: Mb, v: Mail)
    requires RingInv(m.ring) && !Full(m.ring) && m.sent == m.got + Contents(m.ring) && Shape(m)
    ensures var m' := Deposit(m, v);
      && RingInv(m'.ring) && m'.sent == m'.got + Contents(m'.ring)
      && |m'.ring.buf| == |m.ring.buf| && m'.ring.entry == m.ring.entry + 1
  {
    PutAppends(m.ring, v);
    PutSizes(m.ring, v);
    hide RingInv, Contents, Put, Wake, InRange, RingShape;
    assert (m.got + Contents(m.ring)) + [v] == m.got + (Contents(m.ring) + [v]);
  }

  lemma PutSizes(r: Ring, v: Mail)
    requires RingShape(r) && !Full(r)
    ensures |Put(r, v).buf| == |r.buf| && Put(r, v).entry == r.entry + 1
  {}

  lemma WakeSize(c: Core, q: nat)
    requires CoreInv(c) && q < |c.sys.wait|
    ensures InRange(c.sys, c.sys.wait[q])
    ensures |Wake(c, q).sys.wait| == |c.sys.wait| && Wake(c, q).blocked == c.blocked
    ensures CoreInv(Wake(c, q))
    ensures forall t :: t in c.sys.tcb && c.sys.tcb[t].stat == Ready ==>
      t in Wake(c, q).sys.tcb && Wake(c, q).sys.tcb[t] == c.sys.tcb[t]
  {
    WakeKeeps(c, q);
  }

  lemma TakeSizes(r: Ring)
    requires RingShape(r) && r.entry > 0
    ensures |Take(r).0.buf| == |r.buf| && Take(r).0.entry == r.entry - 1
  {}

  /** The mail is out and a sender is on its way; one mail less is needed by receivers. */
  lemma WithdrawKeeps(m: Mb)
    requires Inv(m) && m.ring.entry > 0
    ensures Shape(m)
    ensures var m' := Withdraw(m);
      && CoreOk(m'.core, m'.locals) && RingInv(m'.ring) && m'.sent == m'.got + Contents(m'.ring)
      && Covered(m'.core, RECEIVERS, m'.ring.entry + 1)
      && Covered(m'.core, SENDERS, |m'.ring.buf| - m'.ring.entry)
      && m'.ring.entry == m.ring.entry - 1 && m'.core.blocked == m.core.blocked
      && (forall t :: t in m.core.sys.tcb && m.core.sys.tcb[t].stat == Ready ==>
            (t in m'.core.sys.tcb && m'.core.sys.tcb[t] == m.core.sys.tcb[t]))
  {
    InvShape(m);
    WithdrawBooks(m);
    WakeCovers(m.core, SENDERS, |m.ring.buf| - m.ring.entry);
    WakeSize(m.core, SENDERS);
    assert Covered(m.core, RECEIVERS, m.ring.entry);
    hide CoreInv, Covered, RingInv, Contents, Take, Wake, Inv, RingShape, InRange;
  }

  lemma WithdrawBooks(m: Mb)
    requires RingInv(m.ring) && m.ring.entry > 0 && m.sent == m.got + Contents(m.ring) && Shape(m)
    ensures var m' := Withdraw(m);
      && RingInv(m'.ring) && m'.sent == m'.got + Contents(m'.ring)
      && |m'.ring.buf| == |m.ring.buf| && m'.ring.entry == m.ring.entry - 1
  {
    TakeRemoves(m.ring);
    TakeSizes(m.ring);
    hide RingInv, Contents, Take, Wake, InRange, RingShape;
    var m' := Withdraw(m);
    assert m.got + ([Take(m.ring).1] + Contents(m'.ring)) == (m.got + [Take(m.ring).1]) + Contents(m'.ring);
  }

  /** A running thread that is in no call, or in one about list q. */
  ghost predicate Runs(c: Core, t: Tid, q: nat) {
    t in c.sys.tcb && c.sys.tcb[t].stat == Ready && (t in c.blocked ==> c.blocked[t] == q)
  }

  /** The call of t returns: the other list keeps its cover, its own list may lose one. */
  lemma StepOut(c: Core, t: Tid, q: nat, p: nat, n: int, k: int)
    requires CoreInv(c) && Runs(c, t, q) && p != q
    requires Covered(c, p, n) && (Covered(c, q, k + 1) || (k == 0 && q < |c.sys.wait|))
    ensures Covered(Leave(c, t), p, n) && Covered(Leave(c, t), q, k) && CoreInv(Leave(c, t))
  {
    hide CoreInv, Resumed;
    NotResumed(c, p, t);
    LeaveCovers(c, t, p, n);
    LeaveCovers(c, t, q, k);
    LeaveKeeps(c, t);
  }

  lemma LeaveLocals(c: Core, t: Tid, locals: map<Tid, Locals>)
    requires CoreOk(c, locals) && t in c.sys.tcb && c.sys.tcb[t].stat == Ready
    ensures CoreOk(Leave(c, t), locals)
  {
    LeaveKeeps(c, t);
    hide CoreInv;
  }

  lemma SendDone(m: Mb, t: Tid, v: Mail)
    requires Inv(m) && !Full(m.ring) && Runs(m.core, t, SENDERS)
    ensures Shape(m) && Inv(Finish(Deposit(m, v), t))
  {
    DepositKeeps(m, v);
    hide CoreInv, Covered, RingInv, Contents, Put;
    assert Deposit(m, v).core.blocked == m.core.blocked by { DepositBlocked(m, v); }
    var d := Deposit(m, v);
    StepOut(d.core, t, SENDERS, RECEIVERS, d.ring.entry, |d.ring.buf| - d.ring.entry);
    LeaveLocals(d.core, t, d.locals);
  }

  lemma DepositBlocked(m: Mb, v: Mail)
    requires Shape(m) && !Full(m.ring)
    ensures Deposit(m, v).core.blocked == m.core.blocked
  {}

  lemma RecvDone(m: Mb, t: Tid)
    requires Inv(m) && m.ring.entry > 0 && Runs(m.core, t, RECEIVERS)
    ensures Shape(m) && Inv(Finish(Withdraw(m), t))
  {
    WithdrawKeeps(m);
    hide CoreInv, Covered, RingInv, Contents, Take;
    var d := Withdraw(m);
    StepOut(d.core, t, RECEIVERS, SENDERS, |d.ring.buf| - d.ring.entry, d.ring.entry);
    LeaveLocals(d.core, t, d.locals);
  }

  lemma FailCovers(c: Core, t: Tid, e: Err, p: nat, n: int)
    requires CoreInv(c) && t in c.sys.tcb && t !in c.blocked && Covered(c, p, n)
    ensures CoreInv(Fail(c, t, e)) && Covered(Fail(c, t, e), p, n)
  {
    FailKeeps(c, t, e);
    hide CoreInv, Resumed;
    SameCovers(c, Fail(c, t, e), p, n);
  }

  /** Giving up costs the own list nothing, because it needs no cover then. */
  lemma GiveUp(m: Mb, t: Tid, q: nat, e: Err)
    requires Inv(m) && q < 2 && Runs(m.core, t, q)
    requires q == RECEIVERS ==> m.ring.entry == 0
    requires q == SENDERS ==> Full(m.ring)
    ensures Inv(Clear(m, t, e))
  {
    hide CoreInv, Covered, RingInv, Contents;
    var need := if q == RECEIVERS then |m.ring.buf| - m.ring.entry else m.ring.entry;
    StepOut(m.core, t, q, 1 - q, need, 0);
    LeaveLocals(m.core, t, m.locals);
    FailCovers(Leave(m.core, t), t, e, 1 - q, need);
    FailCovers(Leave(m.core, t), t, e, q, 0);
  }

  lemma FallAsleep(m: Mb, q: nat, t: Tid, l: Locals)
    requires Inv(m) && q < 2 && Runs(m.core, t, q)
    requires q == RECEIVERS ==> m.ring.entry == 0
    requires q == SENDERS ==> Full(m.ring)
    ensures Shape(m) && Knows(m, t) && Inv(Sleepy(m, q, t, l))
  {
    hide CoreInv, Covered, RingInv, Contents, Enter, Resumed, InRange, RingShape;
    InvShape(m);
    var need := if q == RECEIVERS then |m.ring.buf| - m.ring.entry else m.ring.entry;
    EnterCore(m.core, q, t, m.flag, l.timeout > 0, need);
    assert CoreOk(Sleepy(m, q, t, l).core, m.locals[t := l]);
  }

  lemma EnterCore(c: Core, q: nat, t: Tid, flag: Flag, timed: bool, need: int)
    requires CoreInv(c) && |c.sys.wait| == 2 && q < 2 && Runs(c, t, q) && Covered(c, 1 - q, need)
    ensures var c' := Enter(c, q, t, flag, timed);
      && CoreInv(c') && |c'.sys.wait| == 2 && Covered(c', 1 - q, need) && Covered(c', q, 0)
      && c'.blocked == c.blocked[t := q]
  {
    hide CoreInv, Resumed, Block, Joined, Covered;
    NotResumed(c, 1 - q, t);
    EnterCovers(c, q, t, flag, timed, 1 - q, need);
    EnterKeeps(c, q, t, flag, timed);
    JoinedLength(c.sys.wait, Enter(c, q, t, flag, timed).sys.wait, q, t);
  }

  lemma SendLoopKeeps(m: Mb, t: Tid, v: Mail, timeout: int)
    requires Inv(m) && Runs(m.core, t, SENDERS)
    ensures Shape(m) && Knows(m, t) && Inv(SendLoop(m, t, v, timeout).0)
  {
    InvShape(m);
    hide Inv, Deposit, Clear, Sleepy, Finish;
    if !Full(m.ring) {
      SendDone(m, t, v);
    } else if timeout == 0 {
      GiveUp(m, t, SENDERS, EOK);
    } else {
      FallAsleep(m, SENDERS, t, Locals(v, timeout, m.now));
    }
  }

  lemma RecvLoopKeeps(m: Mb, t: Tid, timeout: int)
    requires Inv(m) && Runs(m.core, t, RECEIVERS)
    ensures Shape(m) && Knows(m, t) && Inv(RecvLoop(m, t, timeout).0)
  {
    InvShape(m);
    hide Inv, Withdraw, Clear, Sleepy, Finish;
    if m.ring.entry > 0 {
      RecvDone(m, t);
    } else if timeout == 0 {
      GiveUp(m, t, RECEIVERS, ETIMEOUT);
    } else {
      FallAsleep(m, RECEIVERS, t, Locals(0, timeout, m.now));
    }
  }

  /** A call that was timed out or reset was never counted on. */
  lemma AbandonKeeps(m: Mb, t: Tid)
    requires Inv(m) && t in m.core.blocked && t in m.core.sys.tcb
    requires m.core.sys.tcb[t].stat == Ready && m.core.sys.tcb[t].error != EOK
    ensures Inv(Finish(m, t))
  {
    LeaveLocals(m.core, t, m.locals);
    assert forall p :: t !in Resumed(m.core, p);
    LeaveCovers(m.core, t, RECEIVERS, m.ring.entry);
    LeaveCovers(m.core, t, SENDERS, |m.ring.buf| - m.ring.entry);
    hide CoreInv, Covered, RingInv, Contents, Resumed, CoreOk;
  }

  lemma ContinueKeeps(m: Mb, t: Tid)
    requires Inv(m) && Enabled(m, DoContinue(t))
    ensures Inv(Continue(m, t).0)
  {
    assert m.core.blocked[t] < 2 by {
      assert Caller(m.core.sys.tcb, m.core.sys.wait, m.core.blocked, t);
    }
    hide Inv, SendLoop, RecvLoop, Finish, TimeLeft;
    var l := m.locals[t];
    if m.core.sys.tcb[t].error != EOK {
      AbandonKeeps(m, t);
    } else if m.core.blocked[t] == SENDERS {
      SendLoopKeeps(m, t, l.value, TimeLeft(l.timeout, l.start, m.now));
    } else {
      RecvLoopKeeps(m, t, TimeLeft(l.timeout, l.start, m.now));
    }
  }

  lemma PostKeeps(m: Mb, v: Mail)
    requires Inv(m)
    ensures Shape(m) && Inv(Post(m, v).0)
  {
    InvShape(m);
    if !Full(m.ring) {
      DepositKeeps(m, v);
      hide CoreInv, CoreOk, RingInv, Contents, Resumed, Deposit;
    }
  }

  lemma PollKeeps(m: Mb)
    requires Inv(m)
    ensures Shape(m) && Inv(Poll(m).0)
  {
    InvShape(m);
    if m.ring.entry > 0 {
      WithdrawKeeps(m);
      hide CoreInv, CoreOk, RingInv, Contents, Resumed, Withdraw;
    }
  }

  /** A change that keeps the covers and the calls. */
  lemma CoreChanges(m: Mb, c: Core)
    requires Inv(m) && CoreInv(c) && |c.sys.wait| == |m.core.sys.wait| && c.blocked == m.core.blocked
    requires Covered(m.core, RECEIVERS, m.ring.entry) ==> Covered(c, RECEIVERS, m.ring.entry)
    requires Covered(m.core, SENDERS, |m.ring.buf| - m.ring.entry) ==> Covered(c, SENDERS, |m.ring.buf| - m.ring.entry)
    ensures Inv(m.(core := c))
  {
    hide CoreInv, Covered, RingInv, Contents;
  }

  lemma InvCore(m: Mb)
    requires Inv(m)
    ensures CoreInv(m.core) && |m.core.sys.wait| == 2
  {
    hide CoreInv, RingInv, Covered;
  }

  lemma MbExpireKeeps(m: Mb, t: Tid)
    requires Inv(m) && t in m.core.sys.tcb && m.core.sys.tcb[t].armed
    ensures m.core.sys.tcb[t].stat == Suspended && m.core.sys.tcb[t].prio < |m.core.sys.ready|
    ensures Inv(m.(core := Expire(m.core, t)))
  {
    hide Inv, CoreInv, Covered, Expire, SameResumed, Without;
    InvCore(m);
    ArmedSuspended(m.core, t);
    ExpireKeeps(m.core, t);
    ExpireCovers(m.core, t, RECEIVERS, m.ring.entry);
    ExpireCovers(m.core, t, SENDERS, |m.ring.buf| - m.ring.entry);
    ExpireBlocked(m.core, t);
    CoreChanges(m, Expire(m.core, t));
  }

  lemma ExpireBlocked(c: Core, t: Tid)
    requires t in c.sys.tcb && c.sys.tcb[t].prio < |c.sys.ready|
    ensures Expire(c, t).blocked == c.blocked
  {}

  /** A waiting thread that anybody resumes tests the mailbox again like one the mailbox resumed. */
  lemma MbRouseKeeps(m: Mb, t: Tid)
    requires Inv(m) && t in m.core.sys.tcb && m.core.sys.tcb[t].stat == Suspended && t in m.core.blocked
    ensures m.core.sys.tcb[t].prio < |m.core.sys.ready| && Inv(m.(core := Rouse(m.core, t)))
  {
    hide Inv, CoreInv, Covered, Rouse, Resumed, Without;
    InvCore(m);
    RouseKeeps(m.core, t);
    RouseCovers(m.core, t, RECEIVERS, m.ring.entry);
    RouseCovers(m.core, t, SENDERS, |m.ring.buf| - m.ring.entry);
    CoreChanges(m, Rouse(m.core, t));
  }

  lemma ResetKeeps(m: Mb)
    requires Inv(m)
    ensures Shape(m) && Inv(Reset(m))
    ensures Reset(m).core.sys.wait == [[], []] && Reset(m).ring == Ring(m.ring.buf, 0, 0, 0)
    ensures Reset(m).sent == [] && Reset(m).got == []
  {
    hide CoreInv, KickAll, Resumed, InRange, Contents, RingInv, RingShape;
    InvShape(m);
    EmptyRing(m.ring.buf);
    KickBoth(m.core);
  }

  /** Both wait lists are emptied one after the other. */
  lemma KickBoth(c: Core)
    requires CoreInv(c) && |c.sys.wait| == 2
    ensures InRange(c.sys, c.sys.wait[RECEIVERS])
    ensures var c1 := KickAll(c, RECEIVERS);
      && |c1.sys.wait| == 2 && InRange(c1.sys, c1.sys.wait[SENDERS])
      && var c2 := KickAll(c1, SENDERS);
      && CoreInv(c2) && c2.sys.wait == [[], []] && c2.blocked == c.blocked
  {
    hide CoreInv, KickAll, Resumed, InRange, SameResumed;
    KickAllKeeps(c, RECEIVERS);
    KickAllKeeps(KickAll(c, RECEIVERS), SENDERS);
  }

  lemma MbAsideKeeps(m: Mb, o: Other)
    requires Inv(m) && OtherEnabled(m.core, o)
    ensures Inv(m.(core := Aside(m.core, o)))
  {
    AsideKeeps(m.core, o);
    hide CoreInv, RingInv, Contents, Resumed, Aside;
    SameCovers(m.core, Aside(m.core, o), RECEIVERS, m.ring.entry);
    SameCovers(m.core, Aside(m.core, o), SENDERS, |m.ring.buf| - m.ring.entry);
  }

  lemma NextKeeps(m: Mb, s: Step)
    requires Inv(m) && Enabled(m, s)
    ensures Inv(Next(m, s))
  {
    hide CoreOk, RingInv, Contents, Send, Recv, Continue, Post, Poll, Reset, Expire, Rouse, Aside, Covered, RingShape, InRange;
    match s
    case DoSend(t, v, timeout) => SendKeeps(m, t, v, timeout);
    case DoRecv(t, timeout) => RecvKeeps(m, t, timeout);
    case DoContinue(t) => ContinueKeeps(m, t);
    case DoPost(v) => PostKeeps(m, v);
    case DoPoll => PollKeeps(m);
    case DoExpire(t) => MbExpireKeeps(m, t);
    case DoRouse(t) => MbRouseKeeps(m, t);
    case DoReset => ResetKeeps(m);
    case DoTick =>
    case DoAside(o) => MbAsideKeeps(m, o);
  }

  lemma SendKeeps(m: Mb, t: Tid, v: Mail, timeout: int)
    requires Inv(m) && Enabled(m, DoSend(t, v, timeout))
    ensures Inv(Send(m, t, v, timeout).0)
  {
    hide Inv, SendLoop;
    SendLoopKeeps(m, t, v, timeout);
  }

  lemma RecvKeeps(m: Mb, t: Tid, timeout: int)
    requires Inv(m) && Enabled(m, DoRecv(t, timeout))
    ensures Inv(Recv(m, t, timeout).0)
  {
    hide Inv, RecvLoop;
    RecvLoopKeeps(m, t, timeout);
  }

  // ---- Over every run ------------------------------------------------------------------------

  lemma CreateInv(sys: Sys, flag: Flag, buf: seq<Mail>)
    requires Placed(sys)
    ensures Inv(Create(sys, flag, buf))
  {
    var m := Create(sys, flag, buf);
    hide Placed, RingShape;
    NobodyWaits(sys, [[], []]);
    assert RingInv(Ring(buf, 0, 0, 0)) && Contents(Ring(buf, 0, 0, 0)) == [] by { EmptyRing(buf); }
    hide Contents, RingInv, Resumed;
  }

  lemma EmptyRing(buf: seq<Mail>)
    ensures RingInv(Ring(buf, 0, 0, 0)) && Contents(Ring(buf, 0, 0, 0)) == []
  {
  }

  lemma {:induction false} RunKeeps(m: Mb, ss: seq<Step>)
    requires Inv(m) && EnabledRun(m, ss)
    ensures Inv(Run(m, ss))
    decreases |ss|
  {
    hide Inv, Next, Enabled;
    if ss != [] {
      NextKeeps(m, ss[0]);
      RunKeeps(Next(m, ss[0]), ss[1..]);
    }
  }

  /** Whatever the interleaving: the mails taken out since the last reset are the mails put in, in
      order, up to those still in the mailbox. */
  lemma FirstInFirstOut(sys: Sys, flag: Flag, buf: seq<Mail>, ss: seq<Step>)
    requires Placed(sys) && EnabledRun(Create(sys, flag, buf), ss)
    ensures var m := Run(Create(sys, flag, buf), ss);
      RingInv(m.ring) && m.sent == m.got + Contents(m.ring)
  {
    CreateInv(sys, flag, buf);
    RunKeeps(Create(sys, flag, buf), ss);
    hide Run, RingInv, Contents, CoreOk, Create, EnabledRun;
  }

  /** Once every resumed thread has run, nobody sleeps beside a mail or a free slot. */
  lemma NobodyLeftAsleep(sys: Sys, flag: Flag, buf: seq<Mail>, ss: seq<Step>)
    requires Placed(sys) && EnabledRun(Create(sys, flag, buf), ss)
    ensures var m := Run(Create(sys, flag, buf), ss);
      && |m.core.sys.wait| == 2
      && (m.core.sys.wait[RECEIVERS] != [] ==> |Resumed(m.core, RECEIVERS)| >= m.ring.entry)
      && (m.core.sys.wait[SENDERS] != [] ==> |Resumed(m.core, SENDERS)| >= |m.ring.buf| - m.ring.entry)
      && (Resumed(m.core, RECEIVERS) == {} && m.core.sys.wait[RECEIVERS] != [] ==> m.ring.entry == 0)
      && (Resumed(m.core, SENDERS) == {} && m.core.sys.wait[SENDERS] != [] ==> Full(m.ring))
  {
    CreateInv(sys, flag, buf);
    RunKeeps(Create(sys, flag, buf), ss);
    hide Run, Contents, CoreInv, Create, EnabledRun, Resumed;
  }

  // ---- What a call returns -------------------------------------------------------------------

  ghost predicate SameMails(m: Mb, m': Mb) {
    m'.ring == m.ring && m'.sent == m.sent && m'.got == m.got
  }

  /** From the test of the loop on: a send that reports success has put exactly its mail behind all
      others; any other outcome leaves the mails alone, and a call that blocks keeps its mail. */
  lemma SendLoopOutcome(m: Mb, t: Tid, v: Mail, timeout: int)
    requires Inv(m) && Shape(m) && Knows(m, t)
    ensures var (m', o) := SendLoop(m, t, v, timeout);
      && (o == Returned(EOK, 0) <==> !Full(m.ring))
      && (!Full(m.ring) ==> RingInv(m'.ring) && Contents(m'.ring) == Contents(m.ring) + [v])
      && (Full(m.ring) ==> SameMails(m, m'))
      && (Full(m.ring) ==> o == (if timeout == 0 then Returned(EFULL, 0) else Blocked))
      && (o == Blocked ==> t in m'.locals && m'.locals[t] == Locals(v, timeout, m.now)
                           && t in m'.core.blocked && m'.core.blocked[t] == SENDERS)
  {
    if !Full(m.ring) { PutAppends(m.ring, v); }
    hide CoreInv, Contents, RingInv, Put, Wake, Fail, Block;
  }

  lemma RecvLoopOutcome(m: Mb, t: Tid, timeout: int)
    requires Inv(m) && Shape(m) && Knows(m, t)
    ensures var (m', o) := RecvLoop(m, t, timeout);
      && (m.ring.entry > 0 ==> o == Returned(EOK, Contents(m.ring)[0])
                               && RingInv(m'.ring) && Contents(m'.ring) == Contents(m.ring)[1..])
      && (m.ring.entry == 0 ==> SameMails(m, m') && o == (if timeout == 0 then Returned(ETIMEOUT, 0) else Blocked))
      && (o == Blocked ==> t in m'.locals && m'.locals[t].timeout == timeout && m'.locals[t].start == m.now
                           && t in m'.core.blocked && m'.core.blocked[t] == RECEIVERS)
  {
    if m.ring.entry > 0 { TakeRemoves(m.ring); }
    hide CoreInv, Contents, RingInv, Take, Wake, Fail, Block;
  }

  /** The first section of a send. */
  lemma SendOutcome(m: Mb, t: Tid, v: Mail, timeout: int)
    requires Inv(m) && Shape(m) && Knows(m, t)
    ensures var (m', o) := Send(m, t, v, timeout);
      && (o == Returned(EOK, 0) <==> !Full(m.ring))
      && (!Full(m.ring) ==> RingInv(m'.ring) && Contents(m'.ring) == Contents(m.ring) + [v])
      && (Full(m.ring) ==> SameMails(m, m'))
      && (Full(m.ring) ==> o == (if timeout == 0 then Returned(EFULL, 0) else Blocked))
      && (o == Blocked ==> t in m'.locals && m'.locals[t] == Locals(v, timeout, m.now)
                           && t in m'.core.blocked && m'.core.blocked[t] == SENDERS)
  {
    hide Inv, SendLoop, RingInv, Contents, Shape;
    SendLoopOutcome(m, t, v, timeout);
  }

  /** A receive that reports success returns the oldest mail and removes it. */
  lemma RecvOutcome(m: Mb, t: Tid, timeout: int)
    requires Inv(m) && Shape(m) && Knows(m, t)
    ensures var (m', o) := Recv(m, t, timeout);
      && (m.ring.entry > 0 ==> o == Returned(EOK, Contents(m.ring)[0])
                               && RingInv(m'.ring) && Contents(m'.ring) == Contents(m.ring)[1..])
      && (m.ring.entry == 0 ==> SameMails(m, m') && o == (if timeout == 0 then Returned(ETIMEOUT, 0) else Blocked))
      && (o == Blocked ==> t in m'.locals && m'.locals[t].timeout == timeout && m'.locals[t].start == m.now
                           && t in m'.core.blocked && m'.core.blocked[t] == RECEIVERS)
  {
    hide Inv, RecvLoop, RingInv, Contents, Shape;
    RecvLoopOutcome(m, t, timeout);
  }

  /** A call that goes on after rt_schedule: the error a timeout or a reset has left is returned and
      the mails stay as they are; otherwise it sends the mail it was called with, or receives the
      oldest one, or gives up or sleeps again with what is left of its timeout. */
  lemma ContinueOutcome(m: Mb, t: Tid)
    requires Inv(m) && Enabled(m, DoContinue(t))
    ensures var (m', o), l, e := Continue(m, t), m.locals[t], m.core.sys.tcb[t].error;
      var left := TimeLeft(l.timeout, l.start, m.now);
      && (e != EOK ==> o == Returned(e, 0) && SameMails(m, m'))
      && (e == EOK && m.core.blocked[t] == SENDERS && !Full(m.ring) ==>
            o == Returned(EOK, 0) && RingInv(m'.ring) && Contents(m'.ring) == Contents(m.ring) + [l.value])
      && (e == EOK && m.core.blocked[t] == SENDERS && Full(m.ring) ==>
            SameMails(m, m') && o == if left == 0 then Returned(EFULL, 0) else Blocked)
      && (e == EOK && m.core.blocked[t] != SENDERS && m.ring.entry > 0 ==>
            o == Returned(EOK, Contents(m.ring)[0]) && RingInv(m'.ring) && Contents(m'.ring) == Contents(m.ring)[1..])
      && (e == EOK && m.core.blocked[t] != SENDERS && m.ring.entry == 0 ==>
            SameMails(m, m') && o == if left == 0 then Returned(ETIMEOUT, 0) else Blocked)
      && (o == Blocked ==> t in m'.core.blocked && m'.core.blocked[t] == m.core.blocked[t])
      && (o == Blocked ==> t in m'.locals
                           && m'.locals[t] == Locals(if m.core.blocked[t] == SENDERS then l.value else 0, left, m.now))
  {
    assert m.core.blocked[t] < 2 by {
      assert Caller(m.core.sys.tcb, m.core.sys.wait, m.core.blocked, t);
    }
    hide Inv, RingInv, Contents, Shape, TimeLeft;
    var l := m.locals[t];
    var left := TimeLeft(l.timeout, l.start, m.now);
    if m.core.sys.tcb[t].error == EOK {
      if m.core.blocked[t] == SENDERS {
        hide SendLoop;
        SendLoopOutcome(m, t, l.value, left);
      } else {
        RecvLoopOutcome(m, t, left);
        RecvLocals(m, t, left);
        hide RecvLoop;
      }
    }
  }

  lemma RecvLocals(m: Mb, t: Tid, timeout: int)
    requires Shape(m) && Knows(m, t)
    ensures var (m', o) := RecvLoop(m, t, timeout);
      o == Blocked ==> t in m'.locals && m'.locals[t] == Locals(0, timeout, m.now)
  {}

  /** The thread a step is taken by. */
  function Actor(s: Step): Option<Tid> {
    match s
    case DoSend(t, _, _) => Some(t)
    case DoRecv(t, _) => Some(t)
    case DoContinue(t) => Some(t)
    case _ => None
  }

  /** While a call is blocked nobody but its own thread changes what it keeps: in particular it
      sends the mail it was called with, however often it had to wait. */
  lemma CallStays(m: Mb, s: Step, t: Tid)
    requires Inv(m) && Enabled(m, s) && t in m.core.blocked && Actor(s) != Some(t)
    ensures var m' := Next(m, s);
      && t in m'.core.blocked && m'.core.blocked[t] == m.core.blocked[t]
      && t in m.locals && t in m'.locals && m'.locals[t] == m.locals[t]
  {
    hide CoreInv, RingInv, Covered, Contents, InRange, RingShape, Block, Put, Take, TimeLeft, OtherEnabled,
      Wake, Expire, KickAll, Fail, Rouse, Aside;
  }

  /** A timed call that sleeps again keeps its due tick, as the 32-bit tick counts. */
  lemma AgainDue(m: Mb, t: Tid)
    requires Inv(m) && Enabled(m, DoContinue(t)) && Continue(m, t).1 == Blocked && m.locals[t].timeout > 0
    ensures var m', l := Continue(m, t).0, m.locals[t];
      t in m'.locals && m'.locals[t].timeout > 0 && DueTick(m'.locals[t]) == DueTick(l)
  {
    hide Inv, Shape, Continue, TimeLeft, RingInv, Contents, SameMails, Full, DueTick;
    ContinueOutcome(m, t);
    LeftDue(m.locals[t], Continue(m, t).0.locals[t].value, m.now);
  }

  function DueTick(l: Locals): int {
    (l.start + l.timeout) % TICKS
  }

  lemma LeftDue(l: Locals, v: Mail, now: int)
    requires l.timeout > 0 && TimeLeft(l.timeout, l.start, now) != 0
    ensures TimeLeft(l.timeout, l.start, now) > 0
    ensures DueTick(Locals(v, TimeLeft(l.timeout, l.start, now), now)) == DueTick(l)
  {
    hide TimeLeft;
    SameDue(l.timeout, l.start, now);
  }

  /** The call of t is in progress all through a run. */
  predicate Stays(m: Mb, ss: seq<Step>, t: Tid)
    requires EnabledRun(m, ss)
    decreases |ss|
  {
    t in m.core.blocked && (ss == [] || Stays(Next(m, ss[0]), ss[1..], t))
  }

  lemma StepDue(m: Mb, s: Step, t: Tid)
    requires Inv(m) && Enabled(m, s) && t in m.core.blocked && t in Next(m, s).core.blocked
    requires t in m.locals && m.locals[t].timeout > 0
    ensures var m' := Next(m, s);
      t in m'.locals && m'.locals[t].timeout > 0 && DueTick(m'.locals[t]) == DueTick(m.locals[t])
  {
    if s == DoContinue(t) {
      Returns(m, t);
      AgainDue(m, t);
    } else {
      hide Inv, Next, Enabled, DueTick;
      NotActor(m, s, t);
      CallStays(m, s, t);
    }
  }

  lemma Returns(m: Mb, t: Tid)
    requires Enabled(m, DoContinue(t)) && t in Continue(m, t).0.core.blocked
    ensures Continue(m, t).1 == Blocked
  {
    hide Put, Take, Wake, TimeLeft, InRange, Block;
  }

  lemma NotActor(m: Mb, s: Step, t: Tid)
    requires Enabled(m, s) && t in m.core.blocked && s != DoContinue(t)
    ensures Actor(s) != Some(t)
  {
    hide Shape, OtherEnabled;
  }

  /** However often a timed call sleeps, it keeps the due tick of its first sleep. */
  lemma {:induction false} OneDueTick(m: Mb, ss: seq<Step>, t: Tid)
    requires Inv(m) && EnabledRun(m, ss) && Stays(m, ss, t) && t in m.locals && m.locals[t].timeout > 0
    ensures var m' := Run(m, ss);
      t in m'.locals && m'.locals[t].timeout > 0 && DueTick(m'.locals[t]) == DueTick(m.locals[t])
    decreases |ss|
  {
    hide Inv, Next, Enabled, DueTick;
    if ss != [] {
      NextKeeps(m, ss[0]);
      StepDue(m, ss[0], t);
      OneDueTick(Next(m, ss[0]), ss[1..], t);
    }
  }
}

/** struct rt_mailbox, updated in place. */
module Mailbox {
  import opened Threads
  import opened ThreadLemmas
  import opened Waiters
  import opened MailboxSpec
  import opened MailboxLemmas
  import K = Kernel

  /** The part of the pool that is used. */
  function Cut(pool: seq<Mail>, size: nat): seq<Mail> {
    if size <= |pool| then pool[..size] else pool
  }

  /** A mailbox together with the threads that are inside one of its calls: `calls` says which list
      a call is about and `locals` what it keeps on its stack across rt_schedule. */
  class Mailbox {
    const k: K.Kernel
    const flag: Flag
    const pool: array<Mail>
    const size: nat
    var inOffset: nat
    var outOffset: nat
    var entry: nat
    var now: int
    var calls: map<Tid, nat>
    var locals: map<Tid, Locals>
    ghost var sent: seq<Mail>
    ghost var got: seq<Mail>

    ghost function View(): Mb
      reads this, k, k.rq, pool
    {
      Mb(Core(k.View(), calls), flag, now, Ring(Cut(pool[..], size), inOffset, outOffset, entry), locals, sent, got)
    }

    ghost predicate Valid()
      reads this, k, k.rq, pool
    {
      k.Valid() && size <= pool.Length && Inv(View())
    }

    /** rt_mb_init with a pool of n words, on a kernel with two wait lists nobody waits in. The size
        is kept in 16 bits. */
    constructor (kernel: K.Kernel, kind: Flag, msgPool: array<Mail>, n: nat)
      requires kernel.Valid() && kernel.wait == [[], []] && n <= msgPool.Length
      ensures Valid() && k == kernel && pool == msgPool && flag == kind && size == n % SIZES
      ensures View() == Create(kernel.View(), kind, msgPool[..n % SIZES])
    {
      k, flag, pool, size := kernel, kind, msgPool, n % SIZES;
      inOffset, outOffset, entry, now, calls, locals, sent, got := 0, 0, 0, 0, map[], map[], [], [];
      new;
      hide K.BitsInOrder, Inv, Placed;
      CreateInv(kernel.View(), kind, msgPool[..size]);
    }

    lemma InvFacts(m: Mb)
      requires Inv(m)
      ensures Shape(m)
    {
      InvShape(m);
    }

    /** The mail goes in and the first waiting receiver is resumed. */
    method PutMail(v: Mail)
      requires Valid() && !Full(View().ring)
      modifies this, k`tcb, k`wait, k.rq, pool
      ensures k.Valid() && Shape(old(View())) && View() == Deposit(old(View()), v)
    {
      hide K.BitsInOrder, Placed, Inv, InRange, Threads.WakeFirst;
      InvFacts(View());
      pool[inOffset] := v;
      inOffset := inOffset + 1;
      if inOffset >= size {
        inOffset := 0;
      }
      entry := entry + 1;
      sent := sent + [v];
      k.WakeFirst(RECEIVERS);
    }

    /** The oldest mail comes out and the first waiting sender is resumed. */
    method TakeMail() returns (v: Mail)
      requires Valid() && entry > 0
      modifies this, k`tcb, k`wait, k.rq
      ensures k.Valid() && Shape(old(View())) && View() == Withdraw(old(View()))
      ensures v == Take(old(View()).ring).1
    {
      hide K.BitsInOrder, Placed, Inv, InRange, Threads.WakeFirst;
      InvFacts(View());
      v := pool[outOffset];
      outOffset := outOffset + 1;
      if outOffset >= size {
        outOffset := 0;
      }
      entry := entry - 1;
      got := got + [v];
      k.WakeFirst(SENDERS);
    }

    /** The call of t sleeps in list q; it keeps l on its stack. */
    method FallAsleep(q: nat, t: Tid, l: Locals)
      requires k.Valid() && Shape(View()) && t in k.tcb && k.tcb[t].stat == Ready && q < 2
      modifies this`calls, this`locals, k`tcb, k`wait, k.rq
      ensures k.Valid() && Knows(old(View()), t) && View() == Sleepy(old(View()), q, t, l)
    {
      hide K.BitsInOrder, Placed, InRange, RingShape, Threads.Block, Cut;
      PlacedRanges(k.View());
      k.Block(q, t, flag, l.timeout > 0);
      calls := calls[t := q];
      locals := locals[t := l];
    }

    method FinishCall(t: Tid)
      requires k.Valid()
      modifies this`calls
      ensures k.Valid() && View() == Finish(old(View()), t)
    {
      calls := calls - {t};
    }

    method GiveUpCall(t: Tid, e: Err)
      requires k.Valid() && t in k.tcb
      modifies this`calls, k`tcb, k`wait, k.rq
      ensures k.Valid() && View() == Clear(old(View()), t, e)
    {
      hide K.BitsInOrder, Placed, Cut;
      calls := calls - {t};
      k.SetError(t, e);
    }

    /** The loop of rt_mb_send_wait up to the next rt_schedule, and what follows it. */
    method SendFromLoop(t: Tid, v: Mail, timeout: int) returns (o: Outcome)
      requires Valid() && Runs(View().core, t, SENDERS)
      modifies this, k`tcb, k`wait, k.rq, pool
      ensures Valid() && Shape(old(View())) && Knows(old(View()), t)
      ensures View() == SendLoop(old(View()), t, v, timeout).0 && o == SendLoop(old(View()), t, v, timeout).1
    {
      InvShape(View());
      SendLoopKeeps(View(), t, v, timeout);
      hide Inv, Deposit, Sleepy, Clear, Finish;
      if entry == size {
        if timeout == 0 {
          GiveUpCall(t, EOK);
          return Returned(EFULL, 0);
        }
        FallAsleep(SENDERS, t, Locals(v, timeout, now));
        return Blocked;
      }
      PutMail(v);
      FinishCall(t);
      return Returned(EOK, 0);
    }

    /** rt_mb_send_wait */
    method SendWait(t: Tid, v: Mail, timeout: int) returns (o: Outcome)
      requires Valid() && t in k.tcb && k.tcb[t].stat == Ready && t !in calls
      modifies this, k`tcb, k`wait, k.rq, pool
      ensures Valid() && Shape(old(View())) && Knows(old(View()), t)
      ensures View() == Send(old(View()), t, v, timeout).0 && o == Send(old(View()), t, v, timeout).1
    {
      InvShape(View());
      if entry == size && timeout == 0 {
        return Returned(EFULL, 0);
      }
      hide Inv, SendLoop;
      o := SendFromLoop(t, v, timeout);
    }

    /** The loop of rt_mb_recv up to the next rt_schedule, and what follows it. */
    method RecvFromLoop(t: Tid, timeout: int) returns (o: Outcome)
      requires Valid() && Runs(View().core, t, RECEIVERS)
      modifies this, k`tcb, k`wait, k.rq
      ensures Valid() && Shape(old(View())) && Knows(old(View()), t)
      ensures View() == RecvLoop(old(View()), t, timeout).0 && o == RecvLoop(old(View()), t, timeout).1
    {
      InvShape(View());
      RecvLoopKeeps(View(), t, timeout);
      hide Inv, Withdraw, Sleepy, Clear, Finish, Take;
      if entry == 0 {
        if timeout == 0 {
          GiveUpCall(t, ETIMEOUT);
          return Returned(ETIMEOUT, 0);
        }
        FallAsleep(RECEIVERS, t, Locals(0, timeout, now));
        return Blocked;
      }
      var v := TakeMail();
      FinishCall(t);
      return Returned(EOK, v);
    }

    /** rt_mb_recv */
    method Recv(t: Tid, timeout: int) returns (o: Outcome)
      requires Valid() && t in k.tcb && k.tcb[t].stat == Ready && t !in calls
      modifies this, k`tcb, k`wait, k.rq
      ensures Valid() && Shape(old(View())) && Knows(old(View()), t)
      ensures View() == MailboxSpec.Recv(old(View()), t, timeout).0
      ensures o == MailboxSpec.Recv(old(View()), t, timeout).1
    {
      InvShape(View());
      if entry == 0 && timeout == 0 {
        return Returned(ETIMEOUT, 0);
      }
      hide Inv, RecvLoop;
      o := RecvFromLoop(t, timeout);
    }

    lemma ContinueRuns(m: Mb, t: Tid)
      requires Inv(m) && t in m.core.blocked && t in m.core.sys.tcb && m.core.sys.tcb[t].stat == Ready
      ensures Shape(m) && Knows(m, t) && t in m.locals && Runs(m.core, t, m.core.blocked[t])
      ensures m.core.blocked[t] == SENDERS || m.core.blocked[t] == RECEIVERS
    {
      InvShape(m);
      assert Caller(m.core.sys.tcb, m.core.sys.wait, m.core.blocked, t);
      hide K.BitsInOrder, Placed, RingInv, Covered;
    }

    /** A blocked call goes on after rt_schedule. */
    method Continue(t: Tid) returns (o: Outcome)
      requires Valid() && t in k.tcb && k.tcb[t].stat == Ready && t in calls
      modifies this, k`tcb, k`wait, k.rq, pool
      ensures Valid() && Shape(old(View())) && Knows(old(View()), t) && t in old(View()).locals
      ensures View() == MailboxSpec.Continue(old(View()), t).0
      ensures o == MailboxSpec.Continue(old(View()), t).1
    {
      hide K.BitsInOrder, Inv, SendLoop, RecvLoop, TimeLeft, Placed, InRange, RingShape;
      ContinueRuns(View(), t);
      var l := locals[t];
      if k.tcb[t].error != EOK {
        AbandonKeeps(View(), t);
        calls := calls - {t};
        return Returned(k.tcb[t].error, 0);
      }
      var timeout := TimeLeft(l.timeout, l.start, now);
      if calls[t] == SENDERS {
        o := SendFromLoop(t, l.value, timeout);
      } else {
        o := RecvFromLoop(t, timeout);
      }
    }

    /** The timer of a waiting thread fires. */
    method Expire(t: Tid)
      requires Valid() && t in k.tcb && k.tcb[t].armed
      modifies k`tcb, k`wait, k.rq
      ensures Valid() && Knows(old(View()), t)
      ensures View() == old(View()).(core := Waiters.Expire(old(View()).core, t))
    {
      hide K.BitsInOrder, Inv, Placed;
      MbExpireKeeps(View(), t);
      k.Timeout(t);
    }

    /** rt_thread_resume on a waiting thread, called by anybody */
    method Rouse(t: Tid)
      requires Valid() && t in k.tcb && k.tcb[t].stat == Suspended && t in calls
      modifies k`tcb, k`wait, k.rq
      ensures Valid() && Knows(old(View()), t)
      ensures View() == old(View()).(core := Waiters.Rouse(old(View()).core, t))
    {
      hide K.BitsInOrder, Inv, Placed;
      MbRouseKeeps(View(), t);
      k.Resume(t);
    }

    /** rt_mb_control with RT_IPC_CMD_RESET */
    method Reset()
      requires Valid()
      modifies this, k`tcb, k`wait, k.rq
      ensures Valid() && Shape(old(View())) && View() == MailboxSpec.Reset(old(View()))
      ensures k.wait == [[], []] && entry == 0
    {
      hide K.BitsInOrder, Inv, CoreInv, Placed, Threads.ResumeAll, InRange, RingShape;
      ghost var m := View();
      ResetKeeps(m);
      InvCore(m);
      KickBoth(m.core);
      k.ResumeAll(RECEIVERS);
      k.ResumeAll(SENDERS);
      entry, inOffset, outOffset := 0, 0, 0;
      sent, got := [], [];
    }
  }
}
