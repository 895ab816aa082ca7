/** The nodes of a message queue are never lost or shared, and every receiver gets the message it
    is owed. */
module MessageQueueLemmas {
  import opened Base
  import opened Threads
  import opened ThreadLemmas
  import opened Waiters
  import opened MessageQueueSpec

  // ---- Ownership of the nodes ----------------------------------------------------------------

  ghost predicate HeldBySome(held: map<Tid, Phase>, x: nat) {
    exists a :: a in held && held[a].node == x
  }

  /** Free list, queued list and nodes in flight partition the k nodes of the pool. */
  ghost predicate Owned(k: nat, free: seq<nat>, queue: seq<nat>, held: map<Tid, Phase>) {
    && NoDup(free) && NoDup(queue)
    && (forall x :: x in free ==> x < k && x !in queue)
    && (forall x :: x in queue ==> x < k)
    && (forall a :: a in held ==> held[a].node < k && held[a].node !in free && held[a].node !in queue)
    && (forall a, b :: a in held && b in held && a != b ==> held[a].node != held[b].node)
    && (forall x: nat :: x < k && x !in free && x !in queue ==> HeldBySome(held, x))
    && |free| + |queue| + |held| == k
  }

  lemma HeldMore(held: map<Tid, Phase>, a: Tid, p: Phase)
    requires a !in held
    ensures |held[a := p]| == |held| + 1 && HeldBySome(held[a := p], p.node)
    ensures forall x :: HeldBySome(held, x) ==> HeldBySome(held[a := p], x)
  {
    assert held[a := p].Keys == held.Keys + {a};
    assert held[a := p][a].node == p.node;
    forall x | HeldBySome(held, x) ensures HeldBySome(held[a := p], x) {
      var b :| b in held && held[b].node == x;
      assert held[a := p][b].node == x;
    }
  }

  lemma HeldFewer(held: map<Tid, Phase>, a: Tid)
    requires a in held
    ensures |held - {a}| == |held| - 1
    ensures forall x :: HeldBySome(held, x) && x != held[a].node ==> HeldBySome(held - {a}, x)
  {
    assert (held - {a}).Keys == held.Keys - {a};
    forall x | HeldBySome(held, x) && x != held[a].node ensures HeldBySome(held - {a}, x) {
      var b :| b in held && held[b].node == x;
      assert (held - {a})[b].node == x;
    }
  }

  /** l' is l without its first element x. */
  ghost predicate Shorter(l: seq<nat>, l': seq<nat>, x: nat) {
    && NoDup(l) && NoDup(l') && |l'| == |l| - 1 && x !in l' && x in l
    && (forall y :: y in l <==> y == x || y in l')
  }

  lemma TailShorter(l: seq<nat>)
    requires NoDup(l) && l != []
    ensures Shorter(l, l[1..], l[0])
  {
    NoDupTail(l);
  }

  lemma EndsShorter(l: seq<nat>, x: nat)
    requires NoDup(l) && x !in l
    ensures Shorter([x] + l, l, x) && Shorter(l + [x], l, x)
  {
    NoDupEnds(l, x);
  }

  lemma OwnedTaken(k: nat, free: seq<nat>, free': seq<nat>, queue: seq<nat>, queue': seq<nat>,
                   held: map<Tid, Phase>, a: Tid, p: Phase)
    requires Owned(k, free, queue, held) && a !in held
    requires (Shorter(free, free', p.node) && queue' == queue) || (free' == free && Shorter(queue, queue', p.node))
    ensures Owned(k, free', queue', held[a := p])
  {
    hide NoDup, HeldBySome;
    HeldMore(held, a, p);
  }

  lemma OwnedGiven(k: nat, free: seq<nat>, free': seq<nat>, queue: seq<nat>, queue': seq<nat>,
                   held: map<Tid, Phase>, a: Tid)
    requires Owned(k, free, queue, held) && a in held
    requires (Shorter(free', free, held[a].node) && queue' == queue)
          || (free' == free && Shorter(queue', queue, held[a].node))
    ensures Owned(k, free', queue', held - {a})
  {
    hide NoDup, HeldBySome;
    HeldFewer(held, a);
  }

  /** A call that owns a node moves on. */
  lemma OwnedStay(k: nat, free: seq<nat>, queue: seq<nat>, held: map<Tid, Phase>, a: Tid, p: Phase)
    requires Owned(k, free, queue, held) && a in held && p.node == held[a].node
    ensures Owned(k, free, queue, held[a := p])
  {
    HeldSame(held, a, p);
    hide Owned, HeldBySome;
    OwnedSame(k, free, queue, held, held[a := p]);
  }

  lemma OwnedSame(k: nat, free: seq<nat>, queue: seq<nat>, held: map<Tid, Phase>, held': map<Tid, Phase>)
    requires Owned(k, free, queue, held) && held'.Keys == held.Keys && |held'| == |held|
    requires forall b :: b in held ==> held'[b].node == held[b].node
    requires forall x :: HeldBySome(held, x) ==> HeldBySome(held', x)
    ensures Owned(k, free, queue, held')
  {
    hide NoDup, HeldBySome;
  }

  lemma HeldSame(held: map<Tid, Phase>, a: Tid, p: Phase)
    requires a in held && p.node == held[a].node
    ensures |held[a := p]| == |held|
    ensures forall x :: HeldBySome(held, x) ==> HeldBySome(held[a := p], x)
  {
    assert held[a := p].Keys == held.Keys;
    forall x | HeldBySome(held, x) ensures HeldBySome(held[a := p], x) {
      var b :| b in held && held[b].node == x;
      assert held[a := p][b].node == x;
    }
  }

  lemma Heads(k: nat, free: seq<nat>, queue: seq<nat>, held: map<Tid, Phase>)
    requires Owned(k, free, queue, held)
    ensures NoDup(free) && NoDup(queue)
    ensures free != [] ==> free[0] < k
    ensures queue != [] ==> queue[0] < k
  {
    hide NoDup, HeldBySome;
    assert free != [] ==> free[0] in free;
    assert queue != [] ==> queue[0] in queue;
  }

  lemma {:induction false} OwnedDrain(k: nat, free: seq<nat>, queue: seq<nat>, held: map<Tid, Phase>)
    requires Owned(k, free, queue, held)
    ensures Owned(k, Drain(queue, free), [], held)
    decreases |queue|
  {
    if queue != [] {
      OwnedDrainStep(k, free, queue, held);
      hide Owned;
      OwnedDrain(k, [queue[0]] + free, queue[1..], held);
    }
  }

  lemma OwnedDrainStep(k: nat, free: seq<nat>, queue: seq<nat>, held: map<Tid, Phase>)
    requires Owned(k, free, queue, held) && queue != []
    ensures Owned(k, [queue[0]] + free, queue[1..], held)
  {
    NoDupTail(queue);
    NoDupEnds(free, queue[0]);
    hide NoDup, HeldBySome;
  }

  lemma {:induction false} FreeUpToAll(n: nat)
    ensures |FreeUpTo(n)| == n && NoDup(FreeUpTo(n))
    ensures forall x: nat :: x in FreeUpTo(n) <==> x < n
  {
    if n > 0 {
      FreeUpToAll(n - 1);
      NoDupEnds(FreeUpTo(n - 1), n - 1);
    }
  }

  // ---- Contents ------------------------------------------------------------------------------

  /** Each queued node starts with its message. */
  ghost predicate QueueFilled(pool: seq<Bytes>, queue: seq<nat>, deque: seq<Bytes>) {
    |queue| == |deque| && forall i :: 0 <= i < |queue| ==> queue[i] < |pool| && deque[i] <= pool[queue[i]]
  }

  /** What a call in flight knows about its node. */
  ghost predicate PhaseOk(n: Nodes, taken: map<Tid, Bytes>, a: Tid)
    requires a in n.held
  {
    n.held[a].node < |n.pool| &&
    match n.held[a]
    case Claimed(x, msg, _) => |msg| <= n.msgSize
    case Filled(x, msg, _) => msg <= n.pool[x]
    case Unlinked(x, _) => a in taken && taken[a] <= n.pool[x]
    case Copied(x, size, out) => a in taken && taken[a] <= n.pool[x] && out <= n.pool[x]
                                 && |out| == Min(size, n.msgSize)
  }

  ghost predicate NodesInv(n: Nodes, deque: seq<Bytes>, taken: map<Tid, Bytes>) {
    && (forall x :: 0 <= x < |n.pool| ==> |n.pool[x]| == n.msgSize)
    && Owned(|n.pool|, n.free, n.queue, n.held)
    && QueueFilled(n.pool, n.queue, deque)
    && (forall a :: a in n.held ==> PhaseOk(n, taken, a))
  }

  lemma NodesInvShape(n: Nodes, deque: seq<Bytes>, taken: map<Tid, Bytes>)
    requires NodesInv(n, deque, taken)
    ensures NodesShape(n) && |n.queue| == |deque|
  {
    hide Owned;
    forall a | a in n.held
      ensures n.held[a].node < |n.pool| && (n.held[a].Claimed? ==> |n.held[a].msg| <= n.msgSize)
    {
      assert PhaseOk(n, taken, a);
    }
  }

  lemma PhasesElsewhere(n: Nodes, n': Nodes, taken: map<Tid, Bytes>, taken': map<Tid, Bytes>, b: Tid)
    requires b in n.held && PhaseOk(n, taken, b) && b in n'.held && n'.held[b] == n.held[b]
    requires n'.msgSize == n.msgSize && |n'.pool| == |n.pool|
    requires b in taken ==> b in taken' && taken'[b] == taken[b]
    requires n.held[b].node < |n.pool| ==> n'.pool[n.held[b].node] == n.pool[n.held[b].node]
    ensures PhaseOk(n', taken', b)
  {}

  /** A step of a leaves what the other calls know. */
  ghost predicate OnlyOf(n: Nodes, n': Nodes, taken: map<Tid, Bytes>, taken': map<Tid, Bytes>, a: Tid) {
    && n'.msgSize == n.msgSize && |n'.pool| == |n.pool|
    && (forall b :: b in n'.held && b != a ==>
          && b in n.held && n'.held[b] == n.held[b] && (b in taken ==> b in taken' && taken'[b] == taken[b])
          && (n.held[b].node < |n.pool| ==> n'.pool[n.held[b].node] == n.pool[n.held[b].node]))
  }

  lemma OtherPhases(n: Nodes, n': Nodes, taken: map<Tid, Bytes>, taken': map<Tid, Bytes>, a: Tid)
    requires OnlyOf(n, n', taken, taken', a) && forall b :: b in n.held ==> PhaseOk(n, taken, b)
    requires a in n'.held ==> PhaseOk(n', taken', a)
    ensures forall b :: b in n'.held ==> PhaseOk(n', taken', b)
  {
    forall b | b in n'.held && b != a ensures PhaseOk(n', taken', b) {
      PhasesElsewhere(n, n', taken, taken', b);
    }
  }

  lemma ClaimKeeps(n: Nodes, deque: seq<Bytes>, taken: map<Tid, Bytes>, a: Tid, msg: Bytes, urgent: bool)
    requires NodesInv(n, deque, taken) && n.free != [] && a !in n.held && |msg| <= n.msgSize
    ensures NodesInv(ClaimNode(n, a, msg, urgent), deque, taken)
  {
    hide Owned, QueueFilled, Shorter, NoDup;
    Heads(|n.pool|, n.free, n.queue, n.held);
    TailShorter(n.free);
    OwnedTaken(|n.pool|, n.free, n.free[1..], n.queue, n.queue, n.held, a, Claimed(n.free[0], msg, urgent));
    var n' := ClaimNode(n, a, msg, urgent);
    assert PhaseOk(n', taken, a);
    hide PhaseOk;
    OtherPhases(n, n', taken, taken, a);
  }

  lemma FillKeeps(n: Nodes, deque: seq<Bytes>, taken: map<Tid, Bytes>, a: Tid)
    requires NodesInv(n, deque, taken) && a in n.held && n.held[a].Claimed?
    ensures n.held[a].node < |n.pool| && |n.held[a].msg| <= |n.pool[n.held[a].node]|
    ensures NodesInv(FillNode(n, a), deque, taken)
  {
    hide Owned, QueueFilled, Overwrite, OnlyOf, NoDup;
    assert PhaseOk(n, taken, a);
    var p := n.held[a];
    OwnedStay(|n.pool|, n.free, n.queue, n.held, a, Filled(p.node, p.msg, p.urgent));
    OthersElsewhere(|n.pool|, n.free, n.queue, n.held, a);
    FillQueue(n.pool, n.queue, deque, p.node, Overwrite(n.pool[p.node], p.msg));
    FillOnly(n, taken, a);
    FillPhase(n, taken, a);
    hide PhaseOk;
    var n' := FillNode(n, a);
    OtherPhases(n, n', taken, taken, a);
  }

  lemma FillOnly(n: Nodes, taken: map<Tid, Bytes>, a: Tid)
    requires a in n.held && n.held[a].Claimed?
    requires n.held[a].node < |n.pool| && |n.held[a].msg| <= |n.pool[n.held[a].node]|
    requires forall b :: b in n.held && b != a ==> n.held[b].node != n.held[a].node
    ensures OnlyOf(n, FillNode(n, a), taken, taken, a)
  {}

  lemma FillPhase(n: Nodes, taken: map<Tid, Bytes>, a: Tid)
    requires a in n.held && n.held[a].Claimed?
    requires n.held[a].node < |n.pool| && |n.held[a].msg| <= |n.pool[n.held[a].node]|
    ensures PhaseOk(FillNode(n, a), taken, a)
  {}

  lemma OthersElsewhere(k: nat, free: seq<nat>, queue: seq<nat>, held: map<Tid, Phase>, a: Tid)
    requires Owned(k, free, queue, held) && a in held
    ensures held[a].node !in free && held[a].node !in queue && held[a].node < k
    ensures NoDup(free) && NoDup(queue)
    ensures forall b :: b in held && b != a ==> held[b].node != held[a].node
  {
    hide NoDup, HeldBySome;
  }

  lemma FillQueue(pool: seq<Bytes>, queue: seq<nat>, deque: seq<Bytes>, x: nat, d: Bytes)
    requires QueueFilled(pool, queue, deque) && x !in queue && x < |pool|
    ensures QueueFilled(pool[x := d], queue, deque)
  {}

  lemma LinkKeeps(n: Nodes, deque: seq<Bytes>, taken: map<Tid, Bytes>, a: Tid)
    requires NodesInv(n, deque, taken) && a in n.held && n.held[a].Filled?
    ensures NodesInv(LinkNode(n, a), Linked(deque, n.held[a]), taken)
  {
    hide Owned, QueueFilled, Shorter, Linked, NoDup;
    assert PhaseOk(n, taken, a);
    OthersElsewhere(|n.pool|, n.free, n.queue, n.held, a);
    EndsShorter(n.queue, n.held[a].node);
    var n' := LinkNode(n, a);
    OwnedGiven(|n.pool|, n.free, n.free, n.queue, n'.queue, n.held, a);
    LinkFilled(n.pool, n.queue, deque, n.held[a]);
    hide PhaseOk;
    OtherPhases(n, n', taken, taken, a);
  }

  lemma LinkFilled(pool: seq<Bytes>, queue: seq<nat>, deque: seq<Bytes>, p: Phase)
    requires QueueFilled(pool, queue, deque) && p.Filled? && p.node < |pool| && p.msg <= pool[p.node]
    ensures QueueFilled(pool, if p.urgent then [p.node] + queue else queue + [p.node], Linked(deque, p))
  {
    FilledMore(pool, queue, deque, p.node, p.msg);
    hide QueueFilled;
  }

  lemma FilledMore(pool: seq<Bytes>, queue: seq<nat>, deque: seq<Bytes>, x: nat, msg: Bytes)
    requires QueueFilled(pool, queue, deque) && x < |pool| && msg <= pool[x]
    ensures QueueFilled(pool, [x] + queue, [msg] + deque) && QueueFilled(pool, queue + [x], deque + [msg])
  {
    var q, d := [x] + queue, [msg] + deque;
    forall i | 0 <= i < |q| ensures q[i] < |pool| && d[i] <= pool[q[i]] {
      if i > 0 { assert q[i] == queue[i - 1] && d[i] == deque[i - 1]; }
    }
    var q', d' := queue + [x], deque + [msg];
    forall i | 0 <= i < |q'| ensures q'[i] < |pool| && d'[i] <= pool[q'[i]] {
      if i < |queue| { assert q'[i] == queue[i] && d'[i] == deque[i]; }
    }
  }

  lemma FilledLess(pool: seq<Bytes>, queue: seq<nat>, deque: seq<Bytes>)
    requires QueueFilled(pool, queue, deque) && queue != []
    ensures deque != [] && QueueFilled(pool, queue[1..], deque[1..])
    ensures queue[0] < |pool| && deque[0] <= pool[queue[0]]
  {}

  lemma UnlinkKeeps(n: Nodes, deque: seq<Bytes>, taken: map<Tid, Bytes>, a: Tid, size: nat)
    requires NodesInv(n, deque, taken) && n.queue != [] && a !in n.held
    ensures deque != [] && NodesInv(UnlinkNode(n, a, size), deque[1..], taken[a := deque[0]])
  {
    hide Owned, Shorter, NoDup;
    Heads(|n.pool|, n.free, n.queue, n.held);
    TailShorter(n.queue);
    OwnedTaken(|n.pool|, n.free, n.free, n.queue, n.queue[1..], n.held, a, Unlinked(n.queue[0], size));
    var n', taken' := UnlinkNode(n, a, size), taken[a := deque[0]];
    FilledLess(n.pool, n.queue, deque);
    hide QueueFilled;
    assert PhaseOk(n', taken', a);
    hide PhaseOk;
    OtherPhases(n, n', taken, taken', a);
  }

  lemma CopyKeeps(n: Nodes, deque: seq<Bytes>, taken: map<Tid, Bytes>, a: Tid)
    requires NodesInv(n, deque, taken) && a in n.held && n.held[a].Unlinked?
    ensures n.held[a].node < |n.pool| && |n.pool[n.held[a].node]| == n.msgSize
    ensures NodesInv(CopyNode(n, a), deque, taken)
  {
    hide Owned, QueueFilled;
    assert PhaseOk(n, taken, a);
    var n' := CopyNode(n, a);
    OwnedStay(|n.pool|, n.free, n.queue, n.held, a, n'.held[a]);
    assert PhaseOk(n', taken, a);
    hide PhaseOk;
    OtherPhases(n, n', taken, taken, a);
  }

  lemma ReleaseKeeps(n: Nodes, deque: seq<Bytes>, taken: map<Tid, Bytes>, a: Tid)
    requires NodesInv(n, deque, taken) && a in n.held
    ensures NodesInv(ReleaseNode(n, a), deque, taken - {a})
  {
    var n' := ReleaseNode(n, a);
    hide Owned, QueueFilled, Shorter, NoDup, PhaseOk;
    OthersElsewhere(|n.pool|, n.free, n.queue, n.held, a);
    EndsShorter(n.free, n.held[a].node);
    OwnedGiven(|n.pool|, n.free, n'.free, n.queue, n.queue, n.held, a);
    OtherPhases(n, n', taken, taken - {a}, a);
  }

  lemma DrainKeeps(n: Nodes, deque: seq<Bytes>, taken: map<Tid, Bytes>)
    requires NodesInv(n, deque, taken)
    ensures NodesInv(DrainNodes(n), [], taken)
  {
    var n' := DrainNodes(n);
    OwnedDrain(|n.pool|, n.free, n.queue, n.held);
    hide Owned, Drain;
    forall b | b in n'.held ensures PhaseOk(n', taken, b) { PhasesElsewhere(n, n', taken, taken, b); }
  }

  // ---- The invariant -------------------------------------------------------------------------

  ghost predicate Inv(m: Mq) {
    && CoreInv(m.core) && |m.core.sys.wait| == 1 && (forall t :: t in m.core.blocked ==> t in m.locals)
    && NodesInv(m.nodes, m.deque, m.taken) && m.entry == |m.nodes.queue|
    && (forall t :: t in m.core.blocked ==> t !in m.nodes.held)
    && Covered(m.core, RECEIVERS, m.entry)
  }

  lemma InvShape(m: Mq)
    requires Inv(m)
    ensures Shape(m) && forall t :: t in m.core.sys.tcb ==> Knows(m, t)
  {
    CoreRanges(m.core);
    NodesInvShape(m.nodes, m.deque, m.taken);
  }

  lemma LinkInv(m: Mq, a: Tid)
    requires Inv(m) && a in m.nodes.held && m.nodes.held[a].Filled?
    ensures Shape(m) && Inv(Link(m, a))
  {
    hide CoreInv, NodesInv, Covered, Wake, InRange, NodesShape, Linked;
    InvShape(m);
    LinkKeeps(m.nodes, m.deque, m.taken, a);
    WakeCoversOwn(m.core, RECEIVERS, m.entry);
    LinkCore(m.core);
    assert |LinkNode(m.nodes, a).queue| == |m.nodes.queue| + 1;
  }

  lemma LinkCore(c: Core)
    requires CoreInv(c) && |c.sys.wait| == 1
    ensures InRange(c.sys, c.sys.wait[RECEIVERS])
    ensures var c' := Wake(c, RECEIVERS); CoreInv(c') && |c'.sys.wait| == 1 && c'.blocked == c.blocked
  {
    WakeKeeps(c, RECEIVERS);
  }

  /** A receiver on its way, or anybody who is in no call, takes a message. */
  lemma UnlinkInv(m: Mq, a: Tid, size: nat)
    requires Inv(m) && m.entry > 0 && a !in m.nodes.held
    requires a in m.core.blocked ==> a in m.core.sys.tcb && m.core.sys.tcb[a].stat == Ready
    ensures Shape(m) && Inv(Unlink(m, a, size))
  {
    hide CoreInv, NodesInv, Covered, InRange, NodesShape;
    InvShape(m);
    UnlinkKeeps(m.nodes, m.deque, m.taken, a, size);
    LeaveAny(m.core, a, m.entry - 1);
  }

  lemma LeaveAny(c: Core, a: Tid, n: int)
    requires CoreInv(c) && Covered(c, RECEIVERS, n + 1)
    requires a in c.blocked ==> a in c.sys.tcb && c.sys.tcb[a].stat == Ready
    ensures CoreInv(Leave(c, a)) && Covered(Leave(c, a), RECEIVERS, n)
  {
    if a in c.blocked {
      LeaveKeeps(c, a);
      LeaveCovers(c, a, RECEIVERS, n);
    } else {
      assert c.blocked - {a} == c.blocked;
    }
    hide CoreInv, Resumed;
  }

  /** A running thread that is in no call or in one about the receivers' list. */
  ghost predicate Runs(m: Mq, t: Tid) {
    && t in m.core.sys.tcb && m.core.sys.tcb[t].stat == Ready && t !in m.nodes.held
  }

  lemma FailCoversAny(c: Core, t: Tid, e: Err)
    requires CoreInv(c) && t in c.sys.tcb && t !in c.blocked && |c.sys.wait| == 1
    ensures CoreInv(Fail(c, t, e)) && Covered(Fail(c, t, e), RECEIVERS, 0)
  {
    FailKeeps(c, t, e);
  }

  lemma GiveUp(m: Mq, t: Tid, e: Err)
    requires Inv(m) && Runs(m, t) && m.entry == 0
    ensures Inv(Clear(m, t, e))
  {
    LeaveKeeps(m.core, t);
    FailCoversAny(Leave(m.core, t), t, e);
    hide CoreInv, NodesInv, Covered;
  }

  lemma FallAsleep(m: Mq, t: Tid, l: Locals)
    requires Inv(m) && Runs(m, t) && m.entry == 0
    ensures Shape(m) && Knows(m, t) && Inv(Sleepy(m, t, l))
  {
    InvShape(m);
    EnterCore(m.core, t, m.flag, l.timeout > 0);
    hide CoreInv, NodesInv, Covered, Block, InRange, NodesShape;
  }

  lemma EnterCore(c: Core, t: Tid, flag: Flag, timed: bool)
    requires CoreInv(c) && |c.sys.wait| == 1 && t in c.sys.tcb && c.sys.tcb[t].stat == Ready
    ensures var c' := Enter(c, RECEIVERS, t, flag, timed);
      CoreInv(c') && |c'.sys.wait| == 1 && Covered(c', RECEIVERS, 0)
  {
    EnterKeeps(c, RECEIVERS, t, flag, timed);
    hide CoreInv, Block;
  }

  lemma RecvLoopKeeps(m: Mq, t: Tid, size: nat, timeout: int)
    requires Inv(m) && Runs(m, t)
    ensures Shape(m) && Knows(m, t) && Inv(RecvLoop(m, t, size, timeout).0)
  {
    InvShape(m);
    hide Inv, Unlink, Clear, Sleepy, InRange, NodesShape;
    if m.entry > 0 {
      UnlinkInv(m, t, size);
    } else if timeout == 0 {
      EntryZero(m);
      GiveUp(m, t, ETIMEOUT);
    } else {
      EntryZero(m);
      FallAsleep(m, t, Locals(size, timeout, m.now));
    }
  }

  lemma EntryZero(m: Mq)
    requires Inv(m) && m.entry <= 0
    ensures m.entry == 0
  {}

  lemma AbandonKeeps(m: Mq, t: Tid)
    requires Inv(m) && t in m.core.blocked && t in m.core.sys.tcb
    requires m.core.sys.tcb[t].stat == Ready && m.core.sys.tcb[t].error != EOK
    ensures Inv(m.(core := Leave(m.core, t)))
  {
    LeaveKeeps(m.core, t);
    assert t !in Resumed(m.core, RECEIVERS);
    LeaveCovers(m.core, t, RECEIVERS, m.entry);
    hide CoreInv, Covered, NodesInv, Resumed;
  }

  lemma ContinueKeeps(m: Mq, t: Tid)
    requires Inv(m) && Enabled(m, DoContinue(t))
    ensures Inv(Continue(m, t).0)
  {
    assert Runs(m, t);
    hide Inv, RecvLoop, TimeLeft;
    var l := m.locals[t];
    if m.core.sys.tcb[t].error != EOK {
      AbandonKeeps(m, t);
    } else {
      RecvLoopKeeps(m, t, l.size, TimeLeft(l.timeout, l.start, m.now));
    }
  }

  /** A change that keeps the cover and the calls. */
  lemma CoreChanges(m: Mq, c: Core)
    requires Inv(m) && CoreInv(c) && |c.sys.wait| == |m.core.sys.wait| && c.blocked == m.core.blocked
    requires Covered(m.core, RECEIVERS, m.entry) ==> Covered(c, RECEIVERS, m.entry)
    ensures Inv(m.(core := c))
  {
    hide CoreInv, Covered, NodesInv;
  }

  lemma InvCore(m: Mq)
    requires Inv(m)
    ensures CoreInv(m.core) && |m.core.sys.wait| == 1
  {
    hide CoreInv, NodesInv, Covered;
  }

  lemma MqExpireKeeps(m: Mq, t: Tid)
    requires Inv(m) && t in m.core.sys.tcb && m.core.sys.tcb[t].armed
    ensures m.core.sys.tcb[t].stat == Suspended && m.core.sys.tcb[t].prio < |m.core.sys.ready|
    ensures Inv(m.(core := Expire(m.core, t)))
  {
    hide Inv, CoreInv, Covered, Expire, SameResumed, Without;
    InvCore(m);
    ArmedSuspended(m.core, t);
    ExpireKeeps(m.core, t);
    ExpireCovers(m.core, t, RECEIVERS, m.entry);
    CoreChanges(m, Expire(m.core, t));
  }

  /** A waiting receiver that anybody resumes tests the queue again. */
  lemma MqRouseKeeps(m: Mq, t: Tid)
    requires Inv(m) && t in m.core.sys.tcb && m.core.sys.tcb[t].stat == Suspended && t in m.core.blocked
    ensures m.core.sys.tcb[t].prio < |m.core.sys.ready| && Inv(m.(core := Rouse(m.core, t)))
  {
    hide Inv, CoreInv, Covered, Rouse, Resumed, Without;
    InvCore(m);
    RouseKeeps(m.core, t);
    RouseCovers(m.core, t, RECEIVERS, m.entry);
    CoreChanges(m, Rouse(m.core, t));
  }

  /** A waiting receiver that runs again. */
  lemma ContinueRuns(m: Mq, t: Tid)
    requires Inv(m) && t in m.core.blocked && t in m.core.sys.tcb && m.core.sys.tcb[t].stat == Ready
    ensures Shape(m) && Knows(m, t) && Runs(m, t) && t in m.locals
  {
    InvShape(m);
    hide CoreInv, NodesInv, Covered;
  }

  lemma ResetKeeps(m: Mq)
    requires Inv(m)
    ensures Shape(m) && Inv(Reset(m)) && Reset(m).core.sys.wait == [[]]
  {
    InvShape(m);
    KickAllKeeps(m.core, RECEIVERS);
    DrainKeeps(m.nodes, m.deque, m.taken);
    hide CoreInv, NodesInv, NodesShape, InRange, ResumeAll, Resumed, Drain;
  }

  lemma MqAsideKeeps(m: Mq, o: Other)
    requires Inv(m) && OtherEnabled(m.core, o)
    ensures Inv(m.(core := Aside(m.core, o)))
  {
    AsideKeeps(m.core, o);
    hide CoreInv, NodesInv, Aside, Resumed;
    SameCovers(m.core, Aside(m.core, o), RECEIVERS, m.entry);
  }

  lemma ClaimInv(m: Mq, a: Tid, msg: Bytes, urgent: bool)
    requires Inv(m) && Idle(m, a)
    ensures Shape(m) && Inv(Claim(m, a, msg, urgent).0)
  {
    InvShape(m);
    hide CoreInv, NodesInv, Covered, InRange, NodesShape;
    if |msg| <= m.nodes.msgSize && m.nodes.free != [] {
      ClaimKeeps(m.nodes, m.deque, m.taken, a, msg, urgent);
    }
  }

  lemma FillInv(m: Mq, a: Tid)
    requires Inv(m) && a in m.nodes.held && m.nodes.held[a].Claimed?
    ensures Shape(m) && Inv(Fill(m, a))
    ensures m.nodes.held[a].node < |m.nodes.pool|
    ensures |m.nodes.held[a].msg| <= |m.nodes.pool[m.nodes.held[a].node]|
  {
    InvShape(m);
    hide CoreInv, NodesInv, Covered, InRange, NodesShape, Overwrite;
    FillKeeps(m.nodes, m.deque, m.taken, a);
  }

  lemma CopyInv(m: Mq, a: Tid)
    requires Inv(m) && a in m.nodes.held && m.nodes.held[a].Unlinked?
    ensures Shape(m) && Inv(Copy(m, a))
    ensures m.nodes.held[a].node < |m.nodes.pool| && |m.nodes.pool[m.nodes.held[a].node]| == m.nodes.msgSize
  {
    InvShape(m);
    hide CoreInv, NodesInv, Covered, InRange, NodesShape;
    CopyKeeps(m.nodes, m.deque, m.taken, a);
  }

  lemma ReleaseInv(m: Mq, a: Tid)
    requires Inv(m) && a in m.nodes.held && m.nodes.held[a].Copied?
    ensures Shape(m) && Inv(Release(m, a).0)
  {
    InvShape(m);
    hide CoreInv, NodesInv, Covered, InRange, NodesShape;
    ReleaseKeeps(m.nodes, m.deque, m.taken, a);
  }

  lemma RecvKeeps(m: Mq, t: Tid, size: nat, timeout: int)
    requires Inv(m) && Enabled(m, DoRecv(t, size, timeout))
    ensures Inv(Recv(m, t, size, timeout).0)
  {
    hide Inv, RecvLoop;
    RecvLoopKeeps(m, t, size, timeout);
  }

  lemma NextKeeps(m: Mq, s: Step)
    requires Inv(m) && Enabled(m, s)
    ensures Inv(Next(m, s))
  {
    hide CoreInv, NodesInv, Claim, Fill, Link, Recv, Continue, Copy, Release, Reset, Expire, Rouse, Aside,
         Covered, NodesShape, InRange, Unlink;
    match s
    case DoRecv(t, size, timeout) => RecvKeeps(m, t, size, timeout);
    case DoContinue(t) => ContinueKeeps(m, t);
    case DoPoll(a, size) => if m.entry > 0 { UnlinkInv(m, a, size); }
    case DoLink(a) => LinkInv(m, a);
    case DoExpire(t) => MqExpireKeeps(m, t);
    case DoRouse(t) => MqRouseKeeps(m, t);
    case DoReset => ResetKeeps(m);
    case DoTick =>
    case DoAside(o) => MqAsideKeeps(m, o);
    case DoClaim(a, msg, urgent) => ClaimInv(m, a, msg, urgent);
    case DoFill(a) => FillInv(m, a);
    case DoCopy(a) => CopyInv(m, a);
    case DoRelease(a) => ReleaseInv(m, a);
  }

  // ---- Over every run ------------------------------------------------------------------------

  lemma CreateInv(sys: Sys, flag: Flag, msgSize: nat, pool: seq<Bytes>)
    requires Placed(sys) && forall x :: 0 <= x < |pool| ==> |pool[x]| == msgSize
    ensures Inv(Create(sys, flag, msgSize, pool))
  {
    var m := Create(sys, flag, msgSize, pool);
    NobodyWaits(sys, [[]]);
    FreeUpToAll(|pool|);
    hide Placed, FreeUpTo;
    assert Owned(|pool|, m.nodes.free, [], map[]);
    hide Owned;
  }

  lemma CreateAs(sys: Sys, flag: Flag, msgSize: nat, pool: seq<Bytes>)
    requires sys.wait == [[]]
    ensures Create(sys, flag, msgSize, pool) == Mq(Core(sys, map[]), flag, 0,
              Nodes(msgSize, pool, FreeUpTo(|pool|), [], map[]), 0, map[], [], map[])
  {}

  lemma {:induction false} RunKeeps(m: Mq, ss: seq<Step>)
    requires Inv(m) && EnabledRun(m, ss)
    ensures Inv(Run(m, ss))
    decreases |ss|
  {
    hide Inv, Next, Enabled;
    if ss != [] {
      NextKeeps(m, ss[0]);
      RunKeeps(Next(m, ss[0]), ss[1..]);
    }
  }

  /** Whatever the interleaving of the sections: every node of the pool is free, queued or in flight
      in exactly one call, `entry` is the queued length, and the queued nodes hold the messages of
      the deque in order. */
  lemma NodesNeverLost(sys: Sys, flag: Flag, msgSize: nat, pool: seq<Bytes>, ss: seq<Step>)
    requires Placed(sys) && forall x :: 0 <= x < |pool| ==> |pool[x]| == msgSize
    requires EnabledRun(Create(sys, flag, msgSize, pool), ss)
    ensures var m := Run(Create(sys, flag, msgSize, pool), ss);
      && Owned(|m.nodes.pool|, m.nodes.free, m.nodes.queue, m.nodes.held)
      && m.entry == |m.nodes.queue| && QueueFilled(m.nodes.pool, m.nodes.queue, m.deque)
  {
    CreateInv(sys, flag, msgSize, pool);
    RunKeeps(Create(sys, flag, msgSize, pool), ss);
    hide Run, Owned, QueueFilled, CoreInv, Create, EnabledRun, PhaseOk, Covered;
  }

  /** Once every resumed receiver has run, nobody sleeps beside a message. */
  lemma NobodyLeftAsleep(sys: Sys, flag: Flag, msgSize: nat, pool: seq<Bytes>, ss: seq<Step>)
    requires Placed(sys) && forall x :: 0 <= x < |pool| ==> |pool[x]| == msgSize
    requires EnabledRun(Create(sys, flag, msgSize, pool), ss)
    ensures var m := Run(Create(sys, flag, msgSize, pool), ss);
      && |m.core.sys.wait| == 1
      && (m.core.sys.wait[RECEIVERS] != [] ==> |Resumed(m.core, RECEIVERS)| >= m.entry)
      && (Resumed(m.core, RECEIVERS) == {} && m.core.sys.wait[RECEIVERS] != [] ==> m.entry == 0)
  {
    CreateInv(sys, flag, msgSize, pool);
    RunKeeps(Create(sys, flag, msgSize, pool), ss);
    hide Run, CoreInv, Create, EnabledRun, NodesInv, Resumed;
  }

  ghost predicate SameMessages(m: Mq, m': Mq) {
    m'.nodes == m.nodes && m'.deque == m.deque && m'.taken == m.taken
  }

  /** A receive takes the first message of the deque, or leaves all messages alone: it gives up, or
      sleeps with its timeout. */
  lemma RecvLoopOutcome(m: Mq, t: Tid, size: nat, timeout: int)
    requires Inv(m) && Shape(m) && Knows(m, t)
    ensures var (m', o) := RecvLoop(m, t, size, timeout);
      && (m.entry > 0 ==> o == Going && m.deque != [] && m'.deque == m.deque[1..]
                          && t in m'.taken && m'.taken[t] == m.deque[0])
      && (m.entry == 0 ==> SameMessages(m, m') && o == if timeout == 0 then Returned(ETIMEOUT, []) else Blocked)
      && (o == Blocked ==> t in m'.locals && m'.locals[t] == Locals(size, timeout, m.now))
  {
    hide CoreInv, NodesInv, NodesShape, InRange, Covered, Block;
  }

  /** A waiting receiver that goes on: the error a timeout or a reset has left is returned and no
      message is touched; otherwise it receives with what is left of its timeout. */
  lemma ContinueOutcome(m: Mq, t: Tid)
    requires Inv(m) && Enabled(m, DoContinue(t))
    ensures var (m', o), l, e := Continue(m, t), m.locals[t], m.core.sys.tcb[t].error;
      && (e != EOK ==> o == Returned(e, []) && SameMessages(m, m'))
      && (e == EOK && m.entry > 0 ==> o == Going && m.deque != [] && m'.deque == m.deque[1..]
                                      && t in m'.taken && m'.taken[t] == m.deque[0])
      && (e == EOK && m.entry == 0 ==>
            && SameMessages(m, m')
            && o == if TimeLeft(l.timeout, l.start, m.now) == 0 then Returned(ETIMEOUT, []) else Blocked)
      && (o == Blocked ==> t in m'.locals
                           && m'.locals[t] == Locals(l.size, TimeLeft(l.timeout, l.start, m.now), m.now))
  {
    hide Inv, RecvLoop, TimeLeft, NodesShape, InRange;
    var l := m.locals[t];
    RecvLoopOutcome(m, t, l.size, TimeLeft(l.timeout, l.start, m.now));
  }

  /** While a receiver is blocked nobody but its own thread changes what its call keeps. */
  lemma CallStays(m: Mq, s: Step, t: Tid)
    requires Enabled(m, s) && t in m.core.blocked && t in m.locals && s != DoContinue(t)
    ensures t in Next(m, s).locals && Next(m, s).locals[t] == m.locals[t]
  {
    hide NodesShape, Wake, Expire, KickAll, Fail, Rouse, Aside, Enter, OtherEnabled, InRange;
  }

  function DueTick(l: Locals): int {
    (l.start + l.timeout) % TICKS
  }

  /** A timed call that sleeps again keeps its due tick, as the 32-bit tick counts. */
  lemma AgainDue(m: Mq, t: Tid)
    requires Inv(m) && Enabled(m, DoContinue(t)) && Continue(m, t).1 == Blocked && m.locals[t].timeout > 0
    ensures var m' := Continue(m, t).0;
      t in m'.locals && m'.locals[t].timeout > 0 && DueTick(m'.locals[t]) == DueTick(m.locals[t])
  {
    hide Inv, Shape, Continue, TimeLeft, SameMessages, DueTick;
    ContinueOutcome(m, t);
    LeftDue(m.locals[t], m.now);
  }

  lemma LeftDue(l: Locals, now: int)
    requires l.timeout > 0 && TimeLeft(l.timeout, l.start, now) != 0
    ensures TimeLeft(l.timeout, l.start, now) > 0
    ensures DueTick(Locals(l.size, TimeLeft(l.timeout, l.start, now), now)) == DueTick(l)
  {
    hide TimeLeft;
    SameDue(l.timeout, l.start, now);
  }

  /** The call of t is in progress all through a run. */
  predicate Stays(m: Mq, ss: seq<Step>, t: Tid)
    requires EnabledRun(m, ss)
    decreases |ss|
  {
    t in m.core.blocked && (ss == [] || Stays(Next(m, ss[0]), ss[1..], t))
  }

  lemma Returns(m: Mq, t: Tid)
    requires Enabled(m, DoContinue(t)) && t in Continue(m, t).0.core.blocked
    ensures Continue(m, t).1 == Blocked
  {
    hide NodesShape, TimeLeft, InRange, Block;
  }

  lemma StepDue(m: Mq, s: Step, t: Tid)
    requires Inv(m) && Enabled(m, s) && t in m.core.blocked && t in Next(m, s).core.blocked
    requires t in m.locals && m.locals[t].timeout > 0
    ensures var m' := Next(m, s);
      t in m'.locals && m'.locals[t].timeout > 0 && DueTick(m'.locals[t]) == DueTick(m.locals[t])
  {
    hide Inv, DueTick, Continue, Shape;
    if s == DoContinue(t) {
      Returns(m, t);
      AgainDue(m, t);
    } else {
      hide Next, Enabled;
      CallStays(m, s, t);
    }
  }

  /** However often a timed receive sleeps, it keeps the due tick of its first sleep. */
  lemma {:induction false} OneDueTick(m: Mq, ss: seq<Step>, t: Tid)
    requires Inv(m) && EnabledRun(m, ss) && Stays(m, ss, t) && t in m.locals && m.locals[t].timeout > 0
    ensures var m' := Run(m, ss);
      t in m'.locals && m'.locals[t].timeout > 0 && DueTick(m'.locals[t]) == DueTick(m.locals[t])
    decreases |ss|
  {
    hide Inv, Next, Enabled, DueTick;
    if ss != [] {
      NextKeeps(m, ss[0]);
      StepDue(m, ss[0], t);
      OneDueTick(Next(m, ss[0]), ss[1..], t);
    }
  }

  /** What a receive copies out is the message it unlinked, cut to the buffer of the caller; behind
      a message shorter than the buffer come left-over bytes of the node. */
  lemma Delivered(m: Mq, a: Tid)
    requires Inv(m) && Shape(m) && a in m.nodes.held && m.nodes.held[a].Copied?
    ensures a in m.taken
    ensures var out := Release(m, a).1.data;
      && |out| == Min(m.nodes.held[a].size, m.nodes.msgSize)
      && out[..Min(|out|, |m.taken[a]|)] == m.taken[a][..Min(|out|, |m.taken[a]|)]
  {
    assert PhaseOk(m.nodes, m.taken, a);
    hide CoreInv, Owned, QueueFilled, Covered;
    PrefixesAgree(m.nodes.held[a].out, m.taken[a], m.nodes.pool[m.nodes.held[a].node]);
  }

  lemma PrefixesAgree(x: Bytes, y: Bytes, z: Bytes)
    requires x <= z && y <= z
    ensures x[..Min(|x|, |y|)] == y[..Min(|x|, |y|)]
  {
    assert x == z[..|x|] && y == z[..|y|];
  }

  /** A send is refused with RT_EFULL exactly when all nodes are queued or in flight. */
  lemma FullExactly(m: Mq, a: Tid, msg: Bytes, urgent: bool)
    requires Inv(m) && Shape(m) && Idle(m, a) && |msg| <= m.nodes.msgSize
    ensures Claim(m, a, msg, urgent).1 == Returned(EFULL, [])
            <==> m.entry + |m.nodes.held| == |m.nodes.pool|
  {
    hide CoreInv, Covered, QueueFilled, NodesShape, InRange;
  }
}

/** struct rt_messagequeue, updated in place. */
module MessageQueue {
  import opened Threads
  import opened ThreadLemmas
  import opened Waiters
  import opened MessageQueueSpec
  import opened MessageQueueLemmas
  import K = Kernel
  import P = NodePool
  import C = Chains

  /** A message queue with the threads that are inside one of its calls: `calls` and `locals` are
      what waiting receivers keep on their stacks, `nodes.held` what calls with a node keep. */
  class MessageQueue {
    const k: K.Kernel
    const nodes: P.NodePool
    const flag: Flag
    var entry: nat
    var now: int
    var calls: map<Tid, nat>
    var locals: map<Tid, Locals>
    ghost var deque: seq<Bytes>
    ghost var taken: map<Tid, Bytes>

    ghost function View(): Mq
      reads this, k, k.rq, nodes, nodes.pool
    {
      Mq(Core(k.View(), calls), flag, now, nodes.View(), entry, locals, deque, taken)
    }

    ghost predicate Valid()
      reads this, k, k.rq, nodes, nodes.pool, nodes.next
    {
      k.Valid() && nodes.Valid() && Inv(View())
    }

    lemma InvParts()
      requires Inv(View())
      ensures Shape(View()) && nodes.Disjoint() && entry == |nodes.queue|
      ensures forall t :: t in k.tcb ==> Knows(View(), t)
    {
      InvShape(View());
    }

    /** rt_mq_init for messages of up to `wanted` bytes in the pool `room`, on a kernel with one wait
        list nobody waits in. */
    constructor (kernel: K.Kernel, kind: Flag, wanted: nat, room: Bytes)
      requires kernel.Valid() && kernel.wait == [[]]
      ensures Valid() && k == kernel && fresh(nodes) && fresh(nodes.pool)
      ensures View() == Create(kernel.View(), kind, MsgSize(wanted), Divided(room, MsgSize(wanted)))
    {
      hide K.BitsInOrder, Inv, P.LinksOk, Placed, Create, MsgSize, Divided, MaxMsgs, FreeUpTo;
      var size := MsgSize(wanted);
      var contents := Divided(room, size);
      k, flag := kernel, kind;
      nodes := new P.NodePool(size, contents);
      entry, now, calls, locals, deque, taken := 0, 0, map[], map[], [], map[];
      new;
      CreateInv(kernel.View(), kind, size, contents);
      CreateAs(kernel.View(), kind, size, contents);
    }

    /** rt_mq_send and rt_mq_urgent up to the end of their first critical section. */
    method Claim(a: Tid, msg: Bytes, urgent: bool) returns (o: Outcome)
      requires Valid() && a !in calls && a !in nodes.held
      modifies nodes
      ensures Valid() && Shape(old(View()))
      ensures View() == MessageQueueSpec.Claim(old(View()), a, msg, urgent).0
      ensures o == MessageQueueSpec.Claim(old(View()), a, msg, urgent).1
    {
      hide K.BitsInOrder, Inv, ClaimNode, Shape, P.LinksOk, Placed;
      InvParts();
      FirstNull();
      ClaimInv(View(), a, msg, urgent);
      if |msg| > nodes.msgSize {
        return Returned(ERROR, []);
      }
      if nodes.first == C.NULL {
        return Returned(EFULL, []);
      }
      nodes.Claim(a, msg, urgent);
      return Going;
    }

    lemma FirstNull()
      requires nodes.Valid()
      ensures nodes.first == C.NULL <==> nodes.free == []
    {}

    /** The copy into the claimed node. */
    method Fill(a: Tid)
      requires Valid() && a in nodes.held && nodes.held[a].Claimed?
      modifies nodes, nodes.pool, nodes.next
      ensures Valid() && Shape(old(View())) && View() == MessageQueueSpec.Fill(old(View()), a)
    {
      hide K.BitsInOrder, Inv, FillNode, Shape, P.LinksOk, Placed, Owned, InRange;
      InvParts();
      FillInv(View(), a);
      nodes.Fill(a);
    }

    /** The second critical section of rt_mq_send and rt_mq_urgent. */
    method Link(a: Tid) returns (o: Outcome)
      requires Valid() && a in nodes.held && nodes.held[a].Filled?
      modifies this, k`tcb, k`wait, k.rq, nodes, nodes.next
      ensures Valid() && Shape(old(View())) && View() == MessageQueueSpec.Link(old(View()), a)
      ensures o == Returned(EOK, [])
    {
      hide K.BitsInOrder, Inv, LinkNode, NodesShape, Threads.WakeFirst, Linked, Owned, Placed, InRange, P.LinksOk;
      InvParts();
      LinkInv(View(), a);
      deque := Linked(deque, nodes.held[a]);
      nodes.Link(a);
      entry := entry + 1;
      k.WakeFirst(RECEIVERS);
      return Returned(EOK, []);
    }

    /** The critical section of rt_mq_recv that takes the first message off the queue. */
    method Unlink(a: Tid, size: nat)
      requires k.Valid() && nodes.Valid() && Inv(View()) && entry > 0 && a !in nodes.held
      modifies this, nodes
      ensures k.Valid() && nodes.Valid() && Shape(old(View()))
      ensures View() == MessageQueueSpec.Unlink(old(View()), a, size)
    {
      hide K.BitsInOrder, Inv, UnlinkNode, NodesShape, Owned, Placed, InRange, P.LinksOk;
      InvParts();
      taken := taken[a := deque[0]];
      deque := deque[1..];
      nodes.Unlink(a, size);
      entry := entry - 1;
      calls := calls - {a};
    }

    method FallAsleep(t: Tid, l: Locals)
      requires k.Valid() && Shape(View()) && t in k.tcb && k.tcb[t].stat == Ready
      modifies this`calls, this`locals, k`tcb, k`wait, k.rq
      ensures k.Valid() && Knows(old(View()), t) && View() == Sleepy(old(View()), t, l)
    {
      hide K.BitsInOrder, Placed, NodesShape, InRange, Threads.Block;
      PlacedRanges(k.View());
      k.Block(RECEIVERS, t, flag, l.timeout > 0);
      calls := calls[t := RECEIVERS];
      locals := locals[t := l];
    }

    method GiveUpCall(t: Tid, e: Err)
      requires k.Valid() && t in k.tcb
      modifies this`calls, k`tcb, k`wait, k.rq
      ensures k.Valid() && View() == Clear(old(View()), t, e)
    {
      hide K.BitsInOrder, Placed, NodesShape;
      calls := calls - {t};
      k.SetError(t, e);
    }

    /** The loop of rt_mq_recv up to the next rt_schedule or to the copy. */
    method RecvFromLoop(t: Tid, size: nat, timeout: int) returns (o: Outcome)
      requires Valid() && Runs(View(), t)
      modifies this, k`tcb, k`wait, k.rq, nodes
      ensures Valid() && Shape(old(View())) && Knows(old(View()), t)
      ensures View() == RecvLoop(old(View()), t, size, timeout).0
      ensures o == RecvLoop(old(View()), t, size, timeout).1
    {
      hide K.BitsInOrder, Inv, MessageQueueSpec.Unlink, Clear, Sleepy, InRange, NodesShape, P.LinksOk, Placed, Owned;
      InvParts();
      RecvLoopKeeps(View(), t, size, timeout);
      if entry == 0 {
        if timeout == 0 {
          GiveUpCall(t, ETIMEOUT);
          return Returned(ETIMEOUT, []);
        }
        FallAsleep(t, Locals(size, timeout, now));
        return Blocked;
      }
      Unlink(t, size);
      return Going;
    }

    /** rt_mq_recv up to its first rt_schedule or to the copy. */
    method Recv(t: Tid, size: nat, timeout: int) returns (o: Outcome)
      requires Valid() && t in k.tcb && k.tcb[t].stat == Ready && t !in calls && t !in nodes.held
      modifies this, k`tcb, k`wait, k.rq, nodes
      ensures Valid() && Shape(old(View())) && Knows(old(View()), t)
      ensures View() == MessageQueueSpec.Recv(old(View()), t, size, timeout).0
      ensures o == MessageQueueSpec.Recv(old(View()), t, size, timeout).1
    {
      hide K.BitsInOrder, P.LinksOk, Placed, Inv, RecvLoop, NodesShape, InRange;
      InvParts();
      if entry == 0 && timeout == 0 {
        return Returned(ETIMEOUT, []);
      }
      o := RecvFromLoop(t, size, timeout);
    }

    /** A waiting receiver goes on after rt_schedule. */
    method Continue(t: Tid) returns (o: Outcome)
      requires Valid() && t in k.tcb && k.tcb[t].stat == Ready && t in calls
      modifies this, k`tcb, k`wait, k.rq, nodes
      ensures Valid() && Shape(old(View())) && Knows(old(View()), t) && t in old(View()).locals
      ensures View() == MessageQueueSpec.Continue(old(View()), t).0
      ensures o == MessageQueueSpec.Continue(old(View()), t).1
    {
      hide K.BitsInOrder, Inv, P.LinksOk, Placed, NodesShape, InRange, RecvLoop, TimeLeft;
      ContinueRuns(View(), t);
      var l := locals[t];
      if k.tcb[t].error != EOK {
        AbandonKeeps(View(), t);
        calls := calls - {t};
        return Returned(k.tcb[t].error, []);
      }
      o := RecvFromLoop(t, l.size, TimeLeft(l.timeout, l.start, now));
    }

    /** The copy out of the unlinked node. */
    method Copy(a: Tid)
      requires Valid() && a in nodes.held && nodes.held[a].Unlinked?
      modifies nodes
      ensures Valid() && Shape(old(View())) && View() == MessageQueueSpec.Copy(old(View()), a)
    {
      hide K.BitsInOrder, Inv, CopyNode, Shape, P.LinksOk, Placed, Owned, InRange;
      InvParts();
      CopyInv(View(), a);
      nodes.Copy(a);
    }

    /** The last critical section of rt_mq_recv. */
    method Release(a: Tid) returns (o: Outcome)
      requires Valid() && a in nodes.held && nodes.held[a].Copied?
      modifies this, nodes, nodes.next
      ensures Valid() && Shape(old(View()))
      ensures View() == MessageQueueSpec.Release(old(View()), a).0
      ensures o == MessageQueueSpec.Release(old(View()), a).1
    {
      hide K.BitsInOrder, Inv, ReleaseNode, Shape, P.LinksOk, Placed, Owned, InRange;
      InvParts();
      ReleaseInv(View(), a);
      o := Returned(EOK, nodes.held[a].out);
      taken := taken - {a};
      nodes.Release(a);
    }

    /** The timer of a waiting thread fires. */
    method Expire(t: Tid)
      requires Valid() && t in k.tcb && k.tcb[t].armed
      modifies k`tcb, k`wait, k.rq
      ensures Valid() && Knows(old(View()), t)
      ensures View() == old(View()).(core := Waiters.Expire(old(View()).core, t))
    {
      hide K.BitsInOrder, Inv, Placed, P.LinksOk, InRange, NodesShape;
      MqExpireKeeps(View(), t);
      k.Timeout(t);
    }

    /** rt_thread_resume on a waiting receiver, called by anybody */
    method Rouse(t: Tid)
      requires Valid() && t in k.tcb && k.tcb[t].stat == Suspended && t in calls
      modifies k`tcb, k`wait, k.rq
      ensures Valid() && Knows(old(View()), t)
      ensures View() == old(View()).(core := Waiters.Rouse(old(View()).core, t))
    {
      hide K.BitsInOrder, Inv, Placed, P.LinksOk, InRange, NodesShape;
      MqRouseKeeps(View(), t);
      k.Resume(t);
    }

    /** rt_mq_control with RT_IPC_CMD_RESET */
    method Reset()
      requires Valid()
      modifies this, k`tcb, k`wait, k.rq, nodes, nodes.next
      ensures Valid() && Shape(old(View())) && View() == MessageQueueSpec.Reset(old(View()))
      ensures k.wait == [[]] && entry == 0 && nodes.queue == []
    {
      hide K.BitsInOrder, Inv, Placed, Threads.ResumeAll, InRange, NodesShape, Owned, Drain, P.LinksOk;
      InvParts();
      ResetKeeps(View());
      k.ResumeAll(RECEIVERS);
      nodes.DrainAll();
      entry, deque := 0, [];
    }
  }
}
