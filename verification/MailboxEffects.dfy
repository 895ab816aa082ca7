/** What each section of a mailbox call does to mails, threads and callers (software/src/ipc.c:1321-1615). */
module MailboxEffects {
  import opened Threads
  import opened Waiters
  import opened WaiterEffects
  import opened MailboxSpec
  import opened MailboxLemmas

  /** A mail is behind all others, and the first receiver is READY. */
  ghost predicate MailIn(m: Mb, m': Mb, v: Mail) {
    && RingInv(m.ring) && RingInv(m'.ring) && Contents(m'.ring) == Contents(m.ring) + [v] && |m'.ring.buf| == |m.ring.buf|
    && m'.sent == m.sent + [v] && m'.got == m.got
  }

  /** The oldest mail is out. */
  ghost predicate MailOut(m: Mb, m': Mb, v: Mail) {
    && RingInv(m.ring) && RingInv(m'.ring) && Contents(m.ring) == [v] + Contents(m'.ring) && |m'.ring.buf| == |m.ring.buf|
    && m'.sent == m.sent && m'.got == m.got + [v]
  }

  /** The first waiter of list q is READY and the call of t is over. */
  ghost predicate WokeAndLeft(c: Core, c': Core, q: nat, t: Tid) {
    exists d :: WokeFirst(c, d, q) && Left(d, c', t)
  }

  ghost predicate LeftFlagged(c: Core, c': Core, t: Tid, e: Err) {
    exists d :: Left(c, d, t) && Flagged(d, c', t, e)
  }

  /** Everything but ring, record, threads and the locals of t is as before. */
  ghost predicate OnlyCall(m: Mb, m': Mb, t: Tid) {
    && m' == m.(core := m'.core, ring := m'.ring, sent := m'.sent, got := m'.got, locals := m'.locals)
    && forall u :: u != t ==> (u in m'.locals <==> u in m.locals) && (u in m.locals ==> m'.locals[u] == m.locals[u])
  }

  lemma PutIs(m: Mb, v: Mail)
    requires Inv(m) && Shape(m) && !Full(m.ring)
    ensures MailIn(m, Deposit(m, v), v) && WokeFirst(m.core, Deposit(m, v).core, RECEIVERS)
  {
    PutAppends(m.ring, v);
    WakeUp(m.core, RECEIVERS);
    hide CoreInv, Contents, RingInv, Put, Wake, InRange, WokeFirst;
    SameSize(m.ring, v);
  }

  lemma SameSize(r: Ring, v: Mail)
    requires r.inOff < |r.buf|
    ensures |Put(r, v).buf| == |r.buf|
  {}

  lemma TakeIs(m: Mb)
    requires Inv(m) && Shape(m) && m.ring.entry > 0
    ensures MailOut(m, Withdraw(m), Take(m.ring).1) && WokeFirst(m.core, Withdraw(m).core, SENDERS)
  {
    TakeRemoves(m.ring);
    WakeUp(m.core, SENDERS);
    hide CoreInv, RingInv, Wake, InRange, WokeFirst;
    OldestFirst(m.ring);
    hide Contents, Take;
  }

  lemma OldestFirst(r: Ring)
    requires RingInv(r) && r.entry > 0
    ensures r.outOff < |r.buf| && |Take(r).0.buf| == |r.buf|
    ensures |Contents(r)| > 0 && [Contents(r)[0]] + Contents(r)[1..] == Contents(r)
  {}

  lemma SendGoes(m: Mb, t: Tid, v: Mail, timeout: int)
    requires Inv(m) && Shape(m) && Knows(m, t) && !Full(m.ring)
    ensures var (m', o) := SendLoop(m, t, v, timeout);
      && o == Returned(EOK, 0) && MailIn(m, m', v) && WokeAndLeft(m.core, m'.core, RECEIVERS, t)
      && m' == m.(core := m'.core, ring := m'.ring, sent := m'.sent)
  {
    hide Inv, Shape, WokeFirst, MailIn, Deposit;
    PutIs(m, v);
    var m', d := SendLoop(m, t, v, timeout).0, Deposit(m, v);
    assert WokeFirst(m.core, d.core, RECEIVERS) && Left(d.core, m'.core, t);
    InIs(m, d, m', v);
    DepositSame(m, v);
  }

  lemma RecvGoes(m: Mb, t: Tid, timeout: int)
    requires Inv(m) && Shape(m) && Knows(m, t) && m.ring.entry > 0
    ensures var (m', o) := RecvLoop(m, t, timeout);
      && o.Returned? && o.err == EOK && MailOut(m, m', o.mail) && WokeAndLeft(m.core, m'.core, SENDERS, t)
      && m' == m.(core := m'.core, ring := m'.ring, got := m'.got)
  {
    hide Inv, WokeFirst, MailOut, Withdraw, Take, InRange;
    TakeIs(m);
    var m', d := RecvLoop(m, t, timeout).0, Withdraw(m);
    assert WokeFirst(m.core, d.core, SENDERS) && Left(d.core, m'.core, t);
    OutIs(m, d, m', Take(m.ring).1);
    WithdrawSame(m);
  }

  lemma SendWaits(m: Mb, t: Tid, v: Mail, timeout: int)
    requires Inv(m) && Shape(m) && Knows(m, t) && m.core.sys.tcb[t].stat == Ready && Full(m.ring)
    ensures var (m', o) := SendLoop(m, t, v, timeout);
      && (timeout == 0 ==> o == Returned(EFULL, 0) && LeftFlagged(m.core, m'.core, t, EOK) && m' == m.(core := m'.core))
      && (timeout != 0 ==> o == Blocked && Slept(m.core, m'.core, SENDERS, t, m.flag, timeout > 0)
                           && m' == m.(core := m'.core, locals := m.locals[t := Locals(v, timeout, m.now)]))
  {
    hide CoreInv, RingInv, Covered, Contents, InRange, Slept, Enter;
    if timeout == 0 {
      var m' := SendLoop(m, t, v, timeout).0;
      assert Left(m.core, Leave(m.core, t), t) && Flagged(Leave(m.core, t), m'.core, t, EOK);
    } else {
      EnterDoes(m.core, SENDERS, t, m.flag, timeout > 0);
    }
  }

  lemma RecvWaits(m: Mb, t: Tid, timeout: int)
    requires Inv(m) && Shape(m) && Knows(m, t) && m.core.sys.tcb[t].stat == Ready && m.ring.entry == 0
    ensures var (m', o) := RecvLoop(m, t, timeout);
      && (timeout == 0 ==>
            o == Returned(ETIMEOUT, 0) && LeftFlagged(m.core, m'.core, t, ETIMEOUT) && m' == m.(core := m'.core))
      && (timeout != 0 ==> o == Blocked && Slept(m.core, m'.core, RECEIVERS, t, m.flag, timeout > 0)
                           && m' == m.(core := m'.core, locals := m.locals[t := Locals(0, timeout, m.now)]))
  {
    hide CoreInv, RingInv, Covered, Contents, InRange, Slept, Enter;
    if timeout == 0 {
      var m' := RecvLoop(m, t, timeout).0;
      assert Left(m.core, Leave(m.core, t), t) && Flagged(Leave(m.core, t), m'.core, t, ETIMEOUT);
    } else {
      EnterDoes(m.core, RECEIVERS, t, m.flag, timeout > 0);
    }
  }

  /** A send from its loop on: with room the mail goes in, the first receiver is READY and the call is
      over; without, the call gives up if it may not wait and sleeps as a sender otherwise. */
  lemma SendDoes(m: Mb, t: Tid, v: Mail, timeout: int)
    requires Inv(m) && Shape(m) && Knows(m, t) && m.core.sys.tcb[t].stat == Ready
    ensures var (m', o) := SendLoop(m, t, v, timeout);
      && OnlyCall(m, m', t)
      && (!Full(m.ring) ==> o == Returned(EOK, 0) && MailIn(m, m', v) && WokeAndLeft(m.core, m'.core, RECEIVERS, t))
      && (Full(m.ring) ==> SameMails(m, m'))
      && (Full(m.ring) && timeout == 0 ==> o == Returned(EFULL, 0) && LeftFlagged(m.core, m'.core, t, EOK))
      && (Full(m.ring) && timeout != 0 ==>
            && o == Blocked && Slept(m.core, m'.core, SENDERS, t, m.flag, timeout > 0)
            && t in m'.locals && m'.locals[t] == Locals(v, timeout, m.now))
  {
    hide Inv, Shape, SendLoop, WokeAndLeft, LeftFlagged, MailIn, Slept;
    if !Full(m.ring) { SendGoes(m, t, v, timeout); } else { SendWaits(m, t, v, timeout); }
  }

  lemma DepositSame(m: Mb, v: Mail)
    requires Shape(m) && !Full(m.ring)
    ensures var d := Deposit(m, v); d == m.(core := d.core, ring := d.ring, sent := d.sent)
  {}

  lemma WithdrawSame(m: Mb)
    requires Shape(m) && m.ring.entry > 0
    ensures var d := Withdraw(m); d == m.(core := d.core, ring := d.ring, got := d.got)
  {}

  lemma InIs(m: Mb, d: Mb, m': Mb, v: Mail)
    requires MailIn(m, d, v) && m'.ring == d.ring && m'.sent == d.sent && m'.got == d.got
    ensures MailIn(m, m', v)
  {}

  lemma OutIs(m: Mb, d: Mb, m': Mb, v: Mail)
    requires MailOut(m, d, v) && m'.ring == d.ring && m'.sent == d.sent && m'.got == d.got
    ensures MailOut(m, m', v)
  {}

  /** A receive from its loop on. */
  lemma RecvDoes(m: Mb, t: Tid, timeout: int)
    requires Inv(m) && Shape(m) && Knows(m, t) && m.core.sys.tcb[t].stat == Ready
    ensures var (m', o) := RecvLoop(m, t, timeout);
      && OnlyCall(m, m', t)
      && (m.ring.entry > 0 ==> o.Returned? && o.err == EOK && MailOut(m, m', o.mail)
                               && WokeAndLeft(m.core, m'.core, SENDERS, t))
      && (m.ring.entry == 0 ==> SameMails(m, m'))
      && (m.ring.entry == 0 && timeout == 0 ==> o == Returned(ETIMEOUT, 0) && LeftFlagged(m.core, m'.core, t, ETIMEOUT))
      && (m.ring.entry == 0 && timeout != 0 ==>
            && o == Blocked && Slept(m.core, m'.core, RECEIVERS, t, m.flag, timeout > 0)
            && t in m'.locals && m'.locals[t] == Locals(0, timeout, m.now))
  {
    hide Inv, Shape, RecvLoop, WokeAndLeft, LeftFlagged, MailOut, Slept;
    if m.ring.entry > 0 { RecvGoes(m, t, timeout); } else { RecvWaits(m, t, timeout); }
  }

  /** A call that may not wait and finds no room, or no mail, changes nothing at all; any other begins its
      loop at once. */
  lemma FirstSection(m: Mb, t: Tid, v: Mail, timeout: int)
    requires Inv(m) && Shape(m) && Knows(m, t)
    ensures Enabled(m, DoSend(t, v, timeout)) ==> Next(m, DoSend(t, v, timeout)) == Send(m, t, v, timeout).0
    ensures Enabled(m, DoRecv(t, timeout)) ==> Next(m, DoRecv(t, timeout)) == Recv(m, t, timeout).0
    ensures Full(m.ring) && timeout == 0 ==> Send(m, t, v, timeout) == (m, Returned(EFULL, 0))
    ensures !(Full(m.ring) && timeout == 0) ==> Send(m, t, v, timeout) == SendLoop(m, t, v, timeout)
    ensures m.ring.entry == 0 && timeout == 0 ==> Recv(m, t, timeout) == (m, Returned(ETIMEOUT, 0))
    ensures !(m.ring.entry == 0 && timeout == 0) ==> Recv(m, t, timeout) == RecvLoop(m, t, timeout)
  {
    hide Inv, SendLoop, RecvLoop, Shape;
  }

  /** A call that goes on after rt_schedule: an error found in the thread is returned and nothing but the
      call ends; otherwise the loop goes on with what is left of the timeout. */
  lemma ContinueDoes(m: Mb, t: Tid)
    requires Inv(m) && Enabled(m, DoContinue(t))
    ensures var (m', o), l, e := Continue(m, t), m.locals[t], m.core.sys.tcb[t].error;
      var left := TimeLeft(l.timeout, l.start, m.now);
      && m' == Next(m, DoContinue(t))
      && (e != EOK ==> o == Returned(e, 0) && Left(m.core, m'.core, t) && m' == m.(core := m'.core))
      && (e == EOK && m.core.blocked[t] == SENDERS ==> (m', o) == SendLoop(m, t, l.value, left))
      && (e == EOK && m.core.blocked[t] != SENDERS ==> (m', o) == RecvLoop(m, t, left))
  {
    hide Inv, SendLoop, RecvLoop, Shape, TimeLeft;
  }

  /** rt_mb_send and a receive without waiting by an interrupt handler. */
  lemma PostOutcome(m: Mb, v: Mail)
    requires Inv(m) && Enabled(m, DoPost(v))
    ensures var m', o := Next(m, DoPost(v)), Post(m, v).1;
      && (Full(m.ring) ==> m' == m && o == Returned(EFULL, 0))
      && (!Full(m.ring) ==> o == Returned(EOK, 0) && MailIn(m, m', v) && WokeFirst(m.core, m'.core, RECEIVERS)
                            && m' == m.(core := m'.core, ring := m'.ring, sent := m'.sent))
  {
    hide CoreInv, Contents, RingInv, Wake, InRange, WokeFirst, MailIn, Deposit;
    if !Full(m.ring) {
      PutIs(m, v);
      DepositSame(m, v);
    }
  }

  lemma PollOutcome(m: Mb)
    requires Inv(m) && Enabled(m, DoPoll)
    ensures var m', o := Next(m, DoPoll), Poll(m).1;
      && (m.ring.entry == 0 ==> m' == m && o == Returned(ETIMEOUT, 0))
      && (m.ring.entry > 0 ==> o.Returned? && o.err == EOK && MailOut(m, m', o.mail) && WokeFirst(m.core, m'.core, SENDERS)
                               && m' == m.(core := m'.core, ring := m'.ring, got := m'.got))
  {
    hide CoreInv, Contents, RingInv, Wake, InRange, WokeFirst, MailOut, Withdraw, Take;
    if m.ring.entry > 0 {
      TakeIs(m);
      WithdrawSame(m);
    }
  }

  /** A reset empties the ring and sends the receivers and then the senders away with -RT_ERROR. */
  lemma ResetOutcome(m: Mb)
    requires Inv(m) && Enabled(m, DoReset)
    ensures var m' := Next(m, DoReset);
      && m' == m.(core := m'.core, ring := Ring(m.ring.buf, 0, 0, 0), sent := [], got := [])
      && exists c :: AllKicked(m.core, c, RECEIVERS) && AllKicked(c, m'.core, SENDERS)
  {
    hide Placed, CallsOk, RingInv, KickAll, AllKicked, InRange, Contents, Covered;
    KickDoes(m.core, RECEIVERS);
    KickAllKeeps(m.core, RECEIVERS);
    var c := KickAll(m.core, RECEIVERS);
    assert |c.sys.wait| == 2 by { hide KickedAll; KickSize(m.core, c); }
    KickDoes(c, SENDERS);
  }

  lemma KickSize(c: Core, c': Core)
    requires AllKicked(c, c', RECEIVERS) && |c.sys.wait| == 2
    ensures |c'.sys.wait| == 2
  {}

  lemma EndOfWait(m: Mb, t: Tid)
    requires Inv(m)
    ensures Enabled(m, DoExpire(t)) ==> var m' := Next(m, DoExpire(t));
      m' == m.(core := m'.core) && BackReady(m.core, m'.core, t, ETIMEOUT)
    ensures Enabled(m, DoRouse(t)) ==> var m' := Next(m, DoRouse(t));
      m' == m.(core := m'.core) && BackReady(m.core, m'.core, t, m.core.sys.tcb[t].error)
  {
    hide CoreInv, RingInv, Covered, Expire, Rouse, BackReady, InRange;
    if Enabled(m, DoExpire(t)) { ExpireDoes(m.core, t); }
    if Enabled(m, DoRouse(t)) { RouseDoes(m.core, t); }
  }

  lemma AsideOutcome(m: Mb, o: Other)
    requires Inv(m) && Enabled(m, DoAside(o))
    ensures var m' := Next(m, DoAside(o)); m' == m.(core := m'.core) && Meanwhile(m.core, m'.core, o)
  {
    hide CoreInv, RingInv, Covered, Aside, OtherEnabled, Meanwhile;
    AsideDoes(m.core, o);
  }

  /** The tick counts in 32 bits. */
  lemma TickOutcome(m: Mb)
    requires Enabled(m, DoTick) && 0 <= m.now < TICKS
    ensures Next(m, DoTick) == m.(now := if m.now == TICKS - 1 then 0 else m.now + 1)
  {}

  /** A call with a negative timeout waits for ever: when it goes on and finds nothing it sleeps again, with the
      same timeout and without a timer. */
  lemma ForeverWaits(m: Mb, t: Tid)
    requires Inv(m) && Enabled(m, DoContinue(t)) && m.core.sys.tcb[t].error == EOK && m.locals[t].timeout < 0
    ensures var (m', o), q := Continue(m, t), m.core.blocked[t];
      (if q == SENDERS then Full(m.ring) else m.ring.entry == 0) ==>
        o == Blocked && Slept(m.core, m'.core, q, t, m.flag, false)
        && t in m'.locals && m'.locals[t].timeout == m.locals[t].timeout
  {
    ContinueDoes(m, t);
    ContinueParts(m, t);
    hide Inv, Shape, SendLoop, RecvLoop, Slept, Continue, Enabled;
    SendDoes(m, t, m.locals[t].value, m.locals[t].timeout);
    RecvDoes(m, t, m.locals[t].timeout);
  }

  lemma ContinueParts(m: Mb, t: Tid)
    requires Inv(m) && Enabled(m, DoContinue(t))
    ensures Shape(m) && Knows(m, t) && m.core.sys.tcb[t].stat == Ready && t in m.locals && t in m.core.blocked
    ensures m.core.blocked[t] != SENDERS ==> m.core.blocked[t] == RECEIVERS
  {
    hide RingInv, Covered, Contents, InRange;
  }

  /** A new mailbox is empty and nobody waits. */
  lemma CreateOutcome(sys: Sys, flag: Flag, buf: seq<Mail>)
    ensures var m := Create(sys, flag, buf);
      && m.ring.entry == 0 && m.ring.buf == buf && m.flag == flag && m.core.blocked == map[]
      && m.core.sys == sys.(wait := [[], []]) && m.sent == m.got == []
  {}
}
