/** What each section of a message queue call does, and that what a send was called with is what it
    queues (software/src/ipc.c:1809-2145). */
module MessageQueueEffects {
  import opened Base
  import opened Threads
  import opened Waiters
  import opened WaiterEffects
  import opened MessageQueueSpec
  import opened MessageQueueLemmas

  // ---- Sending -------------------------------------------------------------------------------

  /** The first section of a send: a message that is too long is refused, then a queue without a free
      node; otherwise the first free node is the caller's, for its message and its urgency. */
  lemma ClaimOutcome(m: Mq, a: Tid, msg: Bytes, urgent: bool)
    requires Inv(m) && Enabled(m, DoClaim(a, msg, urgent))
    ensures var m', o, n := Next(m, DoClaim(a, msg, urgent)), Claim(m, a, msg, urgent).1, m.nodes;
      && (|msg| > n.msgSize ==> m' == m && o == Returned(ERROR, []))
      && (|msg| <= n.msgSize && n.free == [] ==> m' == m && o == Returned(EFULL, []))
      && (|msg| <= n.msgSize && n.free != [] ==>
            && o == Going && a in m'.nodes.held
            && m'.nodes.held[a] == Claimed(n.free[0], msg, urgent)
            && m' == m.(nodes := n.(free := n.free[1..], held := n.held[a := m'.nodes.held[a]])))
  {
    hide CoreInv, NodesInv, Covered, InRange, NodesShape;
  }

  /** The copy: the message stands at the start of the node, the rest of the node is as before. */
  lemma FillOutcome(m: Mq, a: Tid)
    requires Inv(m) && Enabled(m, DoFill(a))
    ensures var m', n, p := Next(m, DoFill(a)), m.nodes, m.nodes.held[a];
      && p.node < |n.pool| && |p.msg| <= |n.pool[p.node]|
      && m' == m.(nodes := n.(held := n.held[a := Filled(p.node, p.msg, p.urgent)],
                              pool := n.pool[p.node := p.msg + n.pool[p.node][|p.msg|..]]))
  {
    hide CoreInv, NodesInv, Covered, InRange;
  }

  /** The second section of a send: the node goes to the front of the queue if the message is urgent and
      to its end otherwise, and the first receiver is READY. */
  lemma LinkOutcome(m: Mq, a: Tid)
    requires Inv(m) && Enabled(m, DoLink(a))
    ensures var m', n, p := Next(m, DoLink(a)), m.nodes, m.nodes.held[a];
      && WokeFirst(m.core, m'.core, RECEIVERS)
      && m'.nodes.queue == (if p.urgent then [p.node] + n.queue else n.queue + [p.node])
      && m'.deque == (if p.urgent then [p.msg] + m.deque else m.deque + [p.msg])
      && m' == m.(core := m'.core, nodes := n.(queue := m'.nodes.queue, held := n.held - {a}), entry := m.entry + 1,
                  deque := m'.deque)
  {
    hide CoreInv, NodesInv, Covered, InRange, NodesShape, Wake, WokeFirst;
    WakeUp(m.core, RECEIVERS);
  }

  // ---- Receiving -----------------------------------------------------------------------------

  /** The first node of the queue and the first message are a's. */
  ghost predicate Got(m: Mq, m': Mq, a: Tid, size: nat) {
    && m.nodes.queue != [] && m.deque != [] && m.entry > 0
    && m' == m.(core := m'.core, entry := m.entry - 1, deque := m.deque[1..], taken := m.taken[a := m.deque[0]],
                nodes := m.nodes.(queue := m.nodes.queue[1..], held := m.nodes.held[a := Unlinked(m.nodes.queue[0], size)]))
  }

  ghost predicate LeftFlagged(c: Core, c': Core, t: Tid, e: Err) {
    exists d :: Left(c, d, t) && Flagged(d, c', t, e)
  }

  /** A receive from its loop on: with a message there it is the caller's; without one the call gives up
      if it may not wait and sleeps otherwise. */
  lemma RecvDoes(m: Mq, t: Tid, size: nat, timeout: int)
    requires Inv(m) && Shape(m) && Knows(m, t) && m.core.sys.tcb[t].stat == Ready
    ensures var (m', o) := RecvLoop(m, t, size, timeout);
      && (m.entry > 0 ==> o == Going && Got(m, m', t, size) && Left(m.core, m'.core, t))
      && (m.entry == 0 && timeout == 0 ==>
            o == Returned(ETIMEOUT, []) && LeftFlagged(m.core, m'.core, t, ETIMEOUT) && m' == m.(core := m'.core))
      && (m.entry == 0 && timeout != 0 ==>
            && o == Blocked && Slept(m.core, m'.core, RECEIVERS, t, m.flag, timeout > 0)
            && m' == m.(core := m'.core, locals := m.locals[t := Locals(size, timeout, m.now)]))
  {
    hide CoreInv, NodesInv, Covered, InRange, NodesShape, Slept, Enter;
    if m.entry == 0 {
      if timeout == 0 {
        var m' := RecvLoop(m, t, size, timeout).0;
        assert Left(m.core, Leave(m.core, t), t) && Flagged(Leave(m.core, t), m'.core, t, ETIMEOUT);
      } else {
        EnterDoes(m.core, RECEIVERS, t, m.flag, timeout > 0);
      }
    }
  }

  /** The first section, and the sections after rt_schedule and in an interrupt handler. */
  lemma RecvSections(m: Mq, t: Tid, size: nat, timeout: int)
    requires Inv(m) && Shape(m)
    ensures Enabled(m, DoRecv(t, size, timeout)) ==>
      && Next(m, DoRecv(t, size, timeout)) == Recv(m, t, size, timeout).0
      && Recv(m, t, size, timeout) == if m.entry == 0 && timeout == 0 then (m, Returned(ETIMEOUT, []))
                                      else RecvLoop(m, t, size, timeout)
    ensures Enabled(m, DoContinue(t)) ==>
      var (m', o), l, e := Continue(m, t), m.locals[t], m.core.sys.tcb[t].error;
      && m' == Next(m, DoContinue(t))
      && (e != EOK ==> o == Returned(e, []) && Left(m.core, m'.core, t) && m' == m.(core := m'.core))
      && (e == EOK ==> (m', o) == RecvLoop(m, t, l.size, TimeLeft(l.timeout, l.start, m.now)))
    ensures Enabled(m, DoPoll(t, size)) ==>
      var m', o := Next(m, DoPoll(t, size)), Poll(m, t, size).1;
      && (m.entry == 0 ==> m' == m && o == Returned(ETIMEOUT, []))
      && (m.entry > 0 ==> o == Going && Got(m, m', t, size) && Left(m.core, m'.core, t))
  {
    hide CoreInv, NodesInv, Covered, InRange, NodesShape, TimeLeft;
  }

  /** The copy to the caller, cut to its buffer and the message size, and the release of the node. */
  lemma CopyOutcome(m: Mq, a: Tid)
    requires Inv(m)
    ensures Enabled(m, DoCopy(a)) ==> var m', n, p := Next(m, DoCopy(a)), m.nodes, m.nodes.held[a];
      && p.node < |n.pool| && |n.pool[p.node]| == n.msgSize
      && m' == m.(nodes := n.(held := n.held[a := Copied(p.node, p.size, n.pool[p.node][..Min(p.size, n.msgSize)])]))
    ensures Enabled(m, DoRelease(a)) ==> var m', n, p := Next(m, DoRelease(a)), m.nodes, m.nodes.held[a];
      && Release(m, a).1 == Returned(EOK, p.out)
      && m' == m.(taken := m.taken - {a}, nodes := n.(free := [p.node] + n.free, held := n.held - {a}))
  {
    hide CoreInv, NodesInv, Covered, InRange;
  }

  // ---- The other sections --------------------------------------------------------------------

  function Reversed(l: seq<nat>): (r: seq<nat>)
    ensures |r| == |l|
  {
    if l == [] then [] else Reversed(l[1..]) + [l[0]]
  }

  lemma {:induction false} DrainIs(queue: seq<nat>, free: seq<nat>)
    ensures Drain(queue, free) == Reversed(queue) + free
    decreases |queue|
  {
    if queue == [] {
      assert [] + free == free;
    } else {
      DrainIs(queue[1..], [queue[0]] + free);
      assert Reversed(queue[1..]) + ([queue[0]] + free) == Reversed(queue) + free;
    }
  }

  /** A reset frees all queued nodes, the last one of the queue to be used first, leaves nodes in flight
      alone, and sends all receivers away with -RT_ERROR. */
  lemma ResetOutcome(m: Mq)
    requires Inv(m) && Enabled(m, DoReset)
    ensures var m', n := Next(m, DoReset), m.nodes;
      && AllKicked(m.core, m'.core, RECEIVERS)
      && m' == m.(core := m'.core, entry := 0, deque := [],
                  nodes := n.(queue := [], free := Reversed(n.queue) + n.free))
  {
    hide CoreInv, NodesInv, Covered, InRange, NodesShape, KickAll, AllKicked, Drain;
    KickDoes(m.core, RECEIVERS);
    DrainIs(m.nodes.queue, m.nodes.free);
  }

  lemma EndOfWait(m: Mq, t: Tid)
    requires Inv(m)
    ensures Enabled(m, DoExpire(t)) ==> var m' := Next(m, DoExpire(t));
      m' == m.(core := m'.core) && BackReady(m.core, m'.core, t, ETIMEOUT)
    ensures Enabled(m, DoRouse(t)) ==> var m' := Next(m, DoRouse(t));
      m' == m.(core := m'.core) && BackReady(m.core, m'.core, t, m.core.sys.tcb[t].error)
  {
    hide CoreInv, NodesInv, Covered, InRange, NodesShape, Expire, Rouse, BackReady;
    if Enabled(m, DoExpire(t)) { ExpireDoes(m.core, t); }
    if Enabled(m, DoRouse(t)) { RouseDoes(m.core, t); }
  }

  lemma AsideOutcome(m: Mq, o: Other)
    requires Inv(m) && Enabled(m, DoAside(o))
    ensures var m' := Next(m, DoAside(o)); m' == m.(core := m'.core) && Meanwhile(m.core, m'.core, o)
  {
    hide CoreInv, NodesInv, Covered, Aside, OtherEnabled, Meanwhile;
    AsideDoes(m.core, o);
  }

  /** The tick counts in 32 bits. */
  lemma TickOutcome(m: Mq)
    requires Enabled(m, DoTick) && 0 <= m.now < TICKS
    ensures Next(m, DoTick) == m.(now := if m.now == TICKS - 1 then 0 else m.now + 1)
  {}

  /** A receive with a negative timeout waits for ever: when it goes on and finds nothing it sleeps again, with
      the same timeout and without a timer. */
  lemma ForeverWaits(m: Mq, t: Tid)
    requires Inv(m) && Enabled(m, DoContinue(t)) && m.core.sys.tcb[t].error == EOK && m.locals[t].timeout < 0
    ensures var (m', o) := Continue(m, t);
      m.entry == 0 ==>
        o == Blocked && Slept(m.core, m'.core, RECEIVERS, t, m.flag, false)
        && t in m'.locals && m'.locals[t].timeout == m.locals[t].timeout
  {
    RecvSections(m, t, m.locals[t].size, 0);
    hide CoreInv, NodesInv, Covered, InRange, NodesShape, RecvLoop, Slept, Continue;
    RecvDoes(m, t, m.locals[t].size, m.locals[t].timeout);
  }

  /** In a new message queue all nodes are free, the last of the pool first, and nobody waits. */
  lemma CreateOutcome(sys: Sys, flag: Flag, msgSize: nat, pool: seq<Bytes>)
    ensures var m := Create(sys, flag, msgSize, pool); var n := m.nodes;
      && |n.free| == |pool| && (forall i :: 0 <= i < |pool| ==> n.free[i] == |pool| - 1 - i)
      && n.pool == pool && n.msgSize == msgSize && n.queue == [] && n.held == map[] && m.entry == 0 && m.deque == []
      && m.flag == flag && m.core.blocked == map[] && m.core.sys == sys.(wait := [[]])
  {
    FreeUpToIs(|pool|);
  }

  lemma {:induction false} FreeUpToIs(n: nat)
    ensures |FreeUpTo(n)| == n && forall i :: 0 <= i < n ==> FreeUpTo(n)[i] == n - 1 - i
  {
    if n > 0 { FreeUpToIs(n - 1); }
  }

  // ---- What was sent is what is queued -------------------------------------------------------

  /** What a send was called with. */
  datatype Sending = Sending(msg: Bytes, urgent: bool)

  function After(c: Sending, s: Step, a: Tid): Sending {
    if s.DoClaim? && s.a == a then Sending(s.msg, s.urgent) else c
  }

  /** The last send a began, read off the steps of a run alone. */
  function History(c: Sending, ss: seq<Step>, a: Tid): Sending
    decreases |ss|
  {
    if ss == [] then c else History(After(c, ss[0], a), ss[1..], a)
  }

  /** Until it is linked, a send keeps what it was called with. */
  ghost predicate Agrees(m: Mq, a: Tid, c: Sending) {
    a in m.nodes.held && (m.nodes.held[a].Claimed? || m.nodes.held[a].Filled?) ==>
      m.nodes.held[a].msg == c.msg && m.nodes.held[a].urgent == c.urgent
  }

  lemma NextAgrees(m: Mq, s: Step, a: Tid, c: Sending)
    requires Inv(m) && Enabled(m, s) && Agrees(m, a, c)
    ensures Agrees(Next(m, s), a, After(c, s, a))
  {
    hide CoreInv, NodesInv, Covered, InRange, NodesShape, Wake, Expire, Rouse, KickAll, Aside, Enter, Drain, TimeLeft,
      OtherEnabled, Overwrite;
    match s {
      case DoClaim(b, msg, urgent) => ClaimOutcome(m, b, msg, urgent);
      case _ =>
    }
  }

  lemma {:induction false} RunAgrees(m: Mq, ss: seq<Step>, a: Tid, c: Sending)
    requires Inv(m) && EnabledRun(m, ss) && Agrees(m, a, c)
    ensures Agrees(Run(m, ss), a, History(c, ss, a))
    decreases |ss|
  {
    hide Inv, Next, Enabled, Agrees, After;
    if ss != [] {
      NextKeeps(m, ss[0]);
      NextAgrees(m, ss[0], a, c);
      RunAgrees(Next(m, ss[0]), ss[1..], a, After(c, ss[0], a));
    }
  }

  /** Over every run: when a send links its node, the message and the urgency are those it was called
      with; the message goes to the front of the others if it is urgent and behind them otherwise, and
      the node at that end of the queue starts with it. */
  lemma QueuedAsSent(sys: Sys, flag: Flag, msgSize: nat, pool: seq<Bytes>, ss: seq<Step>, a: Tid)
    requires Placed(sys) && (forall x :: 0 <= x < |pool| ==> |pool[x]| == msgSize)
    requires EnabledRun(Create(sys, flag, msgSize, pool), ss)
    requires Enabled(Run(Create(sys, flag, msgSize, pool), ss), DoLink(a))
    ensures var m := Run(Create(sys, flag, msgSize, pool), ss);
      var m', c := Next(m, DoLink(a)), History(Sending([], false), ss, a);
      && m'.deque == (if c.urgent then [c.msg] + m.deque else m.deque + [c.msg])
      && |m'.nodes.queue| == |m.nodes.queue| + 1
      && m.nodes.queue == (if c.urgent then m'.nodes.queue[1..] else m'.nodes.queue[..|m.nodes.queue|])
      && var x := m'.nodes.queue[if c.urgent then 0 else |m.nodes.queue|];
      && x < |m'.nodes.pool| && c.msg <= m'.nodes.pool[x]
  {
    var m0 := Create(sys, flag, msgSize, pool);
    CreateInv(sys, flag, msgSize, pool);
    RunKeeps(m0, ss);
    RunAgrees(m0, ss, a, Sending([], false));
    hide Create, Run, EnabledRun, History, Inv;
    var m := Run(m0, ss);
    LinkOutcome(m, a);
    FilledNode(m, a);
  }

  lemma FilledNode(m: Mq, a: Tid)
    requires Inv(m) && Enabled(m, DoLink(a))
    ensures var p := m.nodes.held[a]; p.node < |m.nodes.pool| && p.msg <= m.nodes.pool[p.node]
  {
    hide CoreInv, Covered, InRange, Owned, QueueFilled;
    assert PhaseOk(m.nodes, m.taken, a);
  }
}
