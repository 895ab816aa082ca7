/** The message queue protocol (software/src/ipc.c:1636-2145). A send claims a free node, fills it
    and links it, a receive unlinks a node, copies it out and releases it; between these sections
    other threads and interrupt handlers run, so nodes are in flight. */
module MessageQueueSpec {
  import opened Base
  import opened Threads
  import opened Waiters

  const RECEIVERS: nat := 0

  type Bytes = seq<bv8>

  /** Where a thread or an interrupt handler is inside a call that owns a node. */
  datatype Phase =
    | Claimed(node: nat, msg: Bytes, urgent: bool)
    | Filled(node: nat, msg: Bytes, urgent: bool)
    | Unlinked(node: nat, size: nat)
    | Copied(node: nat, size: nat, out: Bytes)

  datatype Locals = Locals(size: nat, timeout: int, start: int)

  /** Node contents, the free list and the queued list, both from their first node on. */
  datatype Nodes = Nodes(msgSize: nat, pool: seq<Bytes>, free: seq<nat>, queue: seq<nat>,
                         held: map<Tid, Phase>)

  /** `deque` are the messages linked and not yet unlinked, `taken` what each unlinking call is
      owed; both only record what happened. */
  datatype Mq = Mq(core: Core, flag: Flag, now: int, nodes: Nodes, entry: nat,
                   locals: map<Tid, Locals>, deque: seq<Bytes>, taken: map<Tid, Bytes>)

  datatype Outcome = Going | Blocked | Returned(err: Err, data: Bytes)

  // ---- Nodes ---------------------------------------------------------------------------------

  /** rt_memcpy to the start of a node's data */
  function Overwrite(d: Bytes, msg: Bytes): (r: Bytes)
    requires |msg| <= |d|
    ensures |r| == |d| && msg <= r
  {
    msg + d[|msg|..]
  }

  function ClaimNode(n: Nodes, a: Tid, msg: Bytes, urgent: bool): Nodes
    requires n.free != []
  {
    n.(free := n.free[1..], held := n.held[a := Claimed(n.free[0], msg, urgent)])
  }

  function FillNode(n: Nodes, a: Tid): Nodes
    requires a in n.held && n.held[a].Claimed?
    requires n.held[a].node < |n.pool| && |n.held[a].msg| <= |n.pool[n.held[a].node]|
  {
    var p := n.held[a];
    n.(pool := n.pool[p.node := Overwrite(n.pool[p.node], p.msg)],
       held := n.held[a := Filled(p.node, p.msg, p.urgent)])
  }

  function LinkNode(n: Nodes, a: Tid): Nodes
    requires a in n.held && n.held[a].Filled?
  {
    var p := n.held[a];
    n.(queue := if p.urgent then [p.node] + n.queue else n.queue + [p.node], held := n.held - {a})
  }

  function UnlinkNode(n: Nodes, a: Tid, size: nat): Nodes
    requires n.queue != []
  {
    n.(queue := n.queue[1..], held := n.held[a := Unlinked(n.queue[0], size)])
  }

  function CopyNode(n: Nodes, a: Tid): Nodes
    requires a in n.held && n.held[a].Unlinked? && n.held[a].node < |n.pool|
    requires |n.pool[n.held[a].node]| == n.msgSize
  {
    var p := n.held[a];
    n.(held := n.held[a := Copied(p.node, p.size, n.pool[p.node][..Min(p.size, n.msgSize)])])
  }

  function ReleaseNode(n: Nodes, a: Tid): Nodes
    requires a in n.held
  {
    n.(free := [n.held[a].node] + n.free, held := n.held - {a})
  }

  /** The loop of RT_IPC_CMD_RESET: node by node from the queue to the free list. */
  function Drain(queue: seq<nat>, free: seq<nat>): seq<nat>
    decreases |queue|
  {
    if queue == [] then free else Drain(queue[1..], [queue[0]] + free)
  }

  function DrainNodes(n: Nodes): Nodes {
    n.(queue := [], free := Drain(n.queue, n.free))
  }

  // ---- Shape ---------------------------------------------------------------------------------

  predicate NodesShape(n: Nodes) {
    && (forall x :: 0 <= x < |n.pool| ==> |n.pool[x]| == n.msgSize)
    && (forall a :: a in n.held ==> n.held[a].node < |n.pool|)
    && (forall a :: a in n.held && n.held[a].Claimed? ==> |n.held[a].msg| <= n.msgSize)
  }

  /** What the sections need to be defined. */
  predicate Shape(m: Mq) {
    && |m.core.sys.wait| == 1
    && InRange(m.core.sys, m.core.sys.wait[RECEIVERS])
    && NodesShape(m.nodes)
    && m.entry == |m.nodes.queue| == |m.deque|
  }

  predicate Knows(m: Mq, t: Tid) {
    t in m.core.sys.tcb && m.core.sys.tcb[t].prio < |m.core.sys.ready|
  }

  // ---- Sections ------------------------------------------------------------------------------

  /** The first critical section of rt_mq_send and rt_mq_urgent. */
  function Claim(m: Mq, a: Tid, msg: Bytes, urgent: bool): (Mq, Outcome)
    requires Shape(m)
  {
    if |msg| > m.nodes.msgSize then (m, Returned(ERROR, []))
    else if m.nodes.free == [] then (m, Returned(EFULL, []))
    else (m.(nodes := ClaimNode(m.nodes, a, msg, urgent)), Going)
  }

  function Fill(m: Mq, a: Tid): Mq
    requires Shape(m) && a in m.nodes.held && m.nodes.held[a].Claimed?
  {
    m.(nodes := FillNode(m.nodes, a))
  }

  function Linked(d: seq<Bytes>, p: Phase): seq<Bytes>
    requires p.Filled?
  {
    if p.urgent then [p.msg] + d else d + [p.msg]
  }

  /** The second critical section of rt_mq_send and rt_mq_urgent. */
  function Link(m: Mq, a: Tid): Mq
    requires Shape(m) && a in m.nodes.held && m.nodes.held[a].Filled?
  {
    m.(core := Wake(m.core, RECEIVERS), nodes := LinkNode(m.nodes, a), entry := m.entry + 1,
       deque := Linked(m.deque, m.nodes.held[a]))
  }

  /** The oldest message is unlinked for a. */
  function Unlink(m: Mq, a: Tid, size: nat): Mq
    requires Shape(m) && m.entry > 0
  {
    m.(core := Leave(m.core, a), nodes := UnlinkNode(m.nodes, a, size), entry := m.entry - 1,
       deque := m.deque[1..], taken := m.taken[a := m.deque[0]])
  }

  function Clear(m: Mq, t: Tid, e: Err): Mq
    requires t in m.core.sys.tcb
  {
    m.(core := Fail(Leave(m.core, t), t, e))
  }

  function Sleepy(m: Mq, t: Tid, l: Locals): Mq
    requires Shape(m) && Knows(m, t)
  {
    m.(core := Enter(m.core, RECEIVERS, t, m.flag, l.timeout > 0), locals := m.locals[t := l])
  }

  /** rt_mq_recv from the test of its loop up to the copy. */
  function RecvLoop(m: Mq, t: Tid, size: nat, timeout: int): (Mq, Outcome)
    requires Shape(m) && Knows(m, t)
  {
    if m.entry > 0 then (Unlink(m, t, size), Going)
    else if timeout == 0 then (Clear(m, t, ETIMEOUT), Returned(ETIMEOUT, []))
    else (Sleepy(m, t, Locals(size, timeout, m.now)), Blocked)
  }

  function Recv(m: Mq, t: Tid, size: nat, timeout: int): (Mq, Outcome)
    requires Shape(m) && Knows(m, t)
  {
    if m.entry == 0 && timeout == 0 then (m, Returned(ETIMEOUT, [])) else RecvLoop(m, t, size, timeout)
  }

  function Continue(m: Mq, t: Tid): (Mq, Outcome)
    requires Shape(m) && Knows(m, t) && t in m.locals
  {
    var l := m.locals[t];
    if m.core.sys.tcb[t].error != EOK then
      (m.(core := Leave(m.core, t)), Returned(m.core.sys.tcb[t].error, []))
    else
      RecvLoop(m, t, l.size, TimeLeft(l.timeout, l.start, m.now))
  }

  /** A receive without waiting from an interrupt handler. */
  function Poll(m: Mq, a: Tid, size: nat): (Mq, Outcome)
    requires Shape(m)
  {
    if m.entry == 0 then (m, Returned(ETIMEOUT, [])) else (Unlink(m, a, size), Going)
  }

  function Copy(m: Mq, a: Tid): Mq
    requires Shape(m) && a in m.nodes.held && m.nodes.held[a].Unlinked?
  {
    m.(nodes := CopyNode(m.nodes, a))
  }

  /** The last critical section of rt_mq_recv. */
  function Release(m: Mq, a: Tid): (Mq, Outcome)
    requires Shape(m) && a in m.nodes.held && m.nodes.held[a].Copied?
  {
    (m.(nodes := ReleaseNode(m.nodes, a), taken := m.taken - {a}), Returned(EOK, m.nodes.held[a].out))
  }

  function Reset(m: Mq): Mq
    requires Shape(m)
  {
    m.(core := KickAll(m.core, RECEIVERS), nodes := DrainNodes(m.nodes), entry := 0, deque := [])
  }

  // ---- The protocol --------------------------------------------------------------------------

  datatype Step =
    | DoClaim(a: Tid, msg: Bytes, urgent: bool) | DoFill(a: Tid) | DoLink(a: Tid)
    | DoRecv(t: Tid, size: nat, timeout: int) | DoContinue(t: Tid) | DoPoll(a: Tid, size: nat)
    | DoCopy(a: Tid) | DoRelease(a: Tid) | DoExpire(t: Tid) | DoRouse(t: Tid) | DoReset | DoTick | DoAside(o: Other)

  predicate Idle(m: Mq, a: Tid) {
    a !in m.core.blocked && a !in m.nodes.held
  }

  /** Whoever starts a call is in none; a blocked call goes on when its thread is READY; a timer
      expires while it is armed; anybody may resume a waiting thread; a thread that owns a node does
      not go to sleep. */
  predicate Enabled(m: Mq, s: Step) {
    && Shape(m)
    && match s
       case DoClaim(a, _, _) => Idle(m, a)
       case DoFill(a) => a in m.nodes.held && m.nodes.held[a].Claimed?
       case DoLink(a) => a in m.nodes.held && m.nodes.held[a].Filled?
       case DoRecv(t, _, _) => Knows(m, t) && m.core.sys.tcb[t].stat == Ready && Idle(m, t)
       case DoContinue(t) => Knows(m, t) && m.core.sys.tcb[t].stat == Ready && t in m.core.blocked
                             && t in m.locals
       case DoPoll(a, _) => Idle(m, a)
       case DoCopy(a) => a in m.nodes.held && m.nodes.held[a].Unlinked?
       case DoRelease(a) => a in m.nodes.held && m.nodes.held[a].Copied?
       case DoExpire(t) => Knows(m, t) && m.core.sys.tcb[t].armed
       case DoRouse(t) => Knows(m, t) && m.core.sys.tcb[t].stat == Suspended && t in m.core.blocked
       case DoAside(o) => OtherEnabled(m.core, o) && (o.Doze? ==> o.t !in m.nodes.held)
       case _ => true
  }

  function Next(m: Mq, s: Step): Mq
    requires Enabled(m, s)
  {
    match s
    case DoClaim(a, msg, urgent) => Claim(m, a, msg, urgent).0
    case DoFill(a) => Fill(m, a)
    case DoLink(a) => Link(m, a)
    case DoRecv(t, size, timeout) => Recv(m, t, size, timeout).0
    case DoContinue(t) => Continue(m, t).0
    case DoPoll(a, size) => Poll(m, a, size).0
    case DoCopy(a) => Copy(m, a)
    case DoRelease(a) => Release(m, a).0
    case DoExpire(t) => m.(core := Expire(m.core, t))
    case DoRouse(t) => m.(core := Rouse(m.core, t))
    case DoReset => Reset(m)
    case DoTick => m.(now := (m.now + 1) % TICKS)
    case DoAside(o) => m.(core := Aside(m.core, o))
  }

  predicate EnabledRun(m: Mq, ss: seq<Step>)
    decreases |ss|
  {
    ss == [] || (Enabled(m, ss[0]) && EnabledRun(Next(m, ss[0]), ss[1..]))
  }

  function Run(m: Mq, ss: seq<Step>): Mq
    requires EnabledRun(m, ss)
    decreases |ss|
  {
    if ss == [] then m else Run(Next(m, ss[0]), ss[1..])
  }

  // ---- The pool ------------------------------------------------------------------------------

  const WORD: int := 0x1_0000_0000
  const HALFWORD: int := 0x1_0000
  const LINK: nat := 4              // sizeof(struct rt_mq_message)

  /** RT_ALIGN to 4 bytes in 32 bits, kept in the 16 bits of msg_size. */
  function MsgSize(wanted: nat): nat {
    var up := (wanted + 3) % WORD;
    (up - up % 4) % HALFWORD
  }

  /** max_msgs, also kept in 16 bits */
  function MaxMsgs(poolSize: nat, msgSize: nat): nat {
    (poolSize / (msgSize + LINK)) % HALFWORD
  }

  /** Where node i begins in the pool. */
  function NodeAt(msgSize: nat, i: nat): nat {
    i * (msgSize + LINK)
  }

  lemma Times(i: nat, j: nat, n: nat)
    requires i <= j
    ensures i * n <= j * n
  {}

  lemma Quotient(k: nat, n: nat)
    requires n > 0
    ensures (k / n) * n <= k
  {}

  lemma NodeInside(poolSize: nat, msgSize: nat, i: nat)
    requires i < MaxMsgs(poolSize, msgSize)
    ensures NodeAt(msgSize, i) + LINK + msgSize <= poolSize
  {
    var n := msgSize + LINK;
    assert i + 1 <= poolSize / n;
    hide MaxMsgs;
    Times(i + 1, poolSize / n, n);
    Quotient(poolSize, n);
  }

  /** Different nodes do not overlap. */
  lemma NodesApart(msgSize: nat, i: nat, j: nat)
    requires i < j
    ensures NodeAt(msgSize, i) + LINK + msgSize <= NodeAt(msgSize, j)
  {
    Times(i + 1, j, msgSize + LINK);
  }

  /** The messages of the queue are at least as long as asked for if and only if at most 65532 bytes
      were asked for. */
  lemma SizeHonoured(wanted: nat)
    requires wanted < WORD
    ensures MsgSize(wanted) >= wanted <==> wanted <= HALFWORD - 4
  {}

  /** What the pool holds behind the link of node i. */
  function NodeData(room: Bytes, msgSize: nat, i: nat): (d: Bytes)
    requires NodeAt(msgSize, i) + LINK + msgSize <= |room|
    ensures |d| == msgSize
  {
    var at := NodeAt(msgSize, i) + LINK;
    room[at..at + msgSize]
  }

  /** The first n nodes of the pool. */
  function Divide(room: Bytes, msgSize: nat, n: nat): (pool: seq<Bytes>)
    requires n <= MaxMsgs(|room|, msgSize)
    ensures |pool| == n && forall x :: 0 <= x < |pool| ==> |pool[x]| == msgSize
  {
    if n == 0 then []
    else
      NodeInside(|room|, msgSize, n - 1);
      Divide(room, msgSize, n - 1) + [NodeData(room, msgSize, n - 1)]
  }

  function Divided(room: Bytes, msgSize: nat): (pool: seq<Bytes>)
    ensures |pool| == MaxMsgs(|room|, msgSize) && forall x :: 0 <= x < |pool| ==> |pool[x]| == msgSize
  {
    Divide(room, msgSize, MaxMsgs(|room|, msgSize))
  }

  /** The free list as rt_mq_init builds it: each node is put in front of the ones before. */
  function FreeUpTo(n: nat): seq<nat> {
    if n == 0 then [] else [n - 1] + FreeUpTo(n - 1)
  }

  function Create(sys: Sys, flag: Flag, msgSize: nat, pool: seq<Bytes>): Mq {
    Mq(Core(sys.(wait := [[]]), map[]), flag, 0,
       Nodes(msgSize, pool, FreeUpTo(|pool|), [], map[]), 0, map[], [], map[])
  }
}
