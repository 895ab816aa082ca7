/** The mailbox protocol (software/src/ipc.c:1321-1615): senders and receivers that block, are
    resumed by one another, re-check and possibly block again, while timers expire and the mailbox
    is reset. Every function is one section between two points where other threads may run. */
module MailboxSpec {
  import opened Threads
  import opened Waiters

  const RECEIVERS: nat := 0    // parent.suspend_thread
  const SENDERS: nat := 1      // suspend_sender_thread

  type Mail = bv32

  const SIZES: nat := 0x1_0000    // size, offsets and entry have 16 bits

  /** The locals a blocked call needs when it goes on. */
  datatype Locals = Locals(value: Mail, timeout: int, start: int)

  datatype Ring = Ring(buf: seq<Mail>, inOff: nat, outOff: nat, entry: nat)

  /** `sent` and `got` record the mails put in and taken out since the last reset. */
  datatype Mb = Mb(core: Core, flag: Flag, now: int, ring: Ring, locals: map<Tid, Locals>,
                   sent: seq<Mail>, got: seq<Mail>)

  datatype Outcome = Blocked | Returned(err: Err, mail: Mail)

  // ---- The ring buffer -----------------------------------------------------------------------

  function Bump(off: nat, size: nat): nat {
    if off + 1 >= size then 0 else off + 1
  }

  function Put(r: Ring, v: Mail): Ring
    requires r.inOff < |r.buf|
  {
    Ring(r.buf[r.inOff := v], Bump(r.inOff, |r.buf|), r.outOff, r.entry + 1)
  }

  function Take(r: Ring): (Ring, Mail)
    requires r.outOff < |r.buf| && r.entry > 0
  {
    (r.(outOff := Bump(r.outOff, |r.buf|), entry := r.entry - 1), r.buf[r.outOff])
  }

  predicate Full(r: Ring) {
    r.entry == |r.buf|
  }

  // ---- Shape ---------------------------------------------------------------------------------

  predicate RingShape(r: Ring) {
    r.entry <= |r.buf| && (|r.buf| > 0 ==> r.inOff < |r.buf| && r.outOff < |r.buf|)
  }

  /** What the sections need to be defined. */
  predicate Shape(m: Mb) {
    && |m.core.sys.wait| == 2
    && InRange(m.core.sys, m.core.sys.wait[RECEIVERS])
    && InRange(m.core.sys, m.core.sys.wait[SENDERS])
    && RingShape(m.ring)
  }

  predicate Knows(m: Mb, t: Tid) {
    t in m.core.sys.tcb && m.core.sys.tcb[t].prio < |m.core.sys.ready|
  }

  // ---- Sections ------------------------------------------------------------------------------

  /** A mail goes in and the first waiting receiver is resumed. */
  function Deposit(m: Mb, v: Mail): Mb
    requires Shape(m) && !Full(m.ring)
  {
    m.(core := Wake(m.core, RECEIVERS), ring := Put(m.ring, v), sent := m.sent + [v])
  }

  /** A mail comes out and the first waiting sender is resumed. */
  function Withdraw(m: Mb): Mb
    requires Shape(m) && m.ring.entry > 0
  {
    m.(core := Wake(m.core, SENDERS), ring := Take(m.ring).0, got := m.got + [Take(m.ring).1])
  }

  function Finish(m: Mb, t: Tid): Mb {
    m.(core := Leave(m.core, t))
  }

  /** The call of t goes to sleep in list q. */
  function Sleepy(m: Mb, q: nat, t: Tid, l: Locals): Mb
    requires Shape(m) && Knows(m, t) && q < 2
  {
    m.(core := Enter(m.core, q, t, m.flag, l.timeout > 0), locals := m.locals[t := l])
  }

  /** rt_mb_send_wait from the test of its loop on. */
  function SendLoop(m: Mb, t: Tid, v: Mail, timeout: int): (Mb, Outcome)
    requires Shape(m) && Knows(m, t)
  {
    if !Full(m.ring) then (Finish(Deposit(m, v), t), Returned(EOK, 0))
    else if timeout == 0 then (Clear(m, t, EOK), Returned(EFULL, 0))
    else (Sleepy(m, SENDERS, t, Locals(v, timeout, m.now)), Blocked)
  }

  /** The call returns without success and leaves error code e in the thread. */
  function Clear(m: Mb, t: Tid, e: Err): Mb
    requires t in m.core.sys.tcb
  {
    m.(core := Fail(Leave(m.core, t), t, e))
  }

  /** rt_mb_recv from the test of its loop on. */
  function RecvLoop(m: Mb, t: Tid, timeout: int): (Mb, Outcome)
    requires Shape(m) && Knows(m, t)
  {
    if m.ring.entry > 0 then (Finish(Withdraw(m), t), Returned(EOK, Take(m.ring).1))
    else if timeout == 0 then (Clear(m, t, ETIMEOUT), Returned(ETIMEOUT, 0))
    else (Sleepy(m, RECEIVERS, t, Locals(0, timeout, m.now)), Blocked)
  }

  function Send(m: Mb, t: Tid, v: Mail, timeout: int): (Mb, Outcome)
    requires Shape(m) && Knows(m, t)
  {
    if Full(m.ring) && timeout == 0 then (m, Returned(EFULL, 0)) else SendLoop(m, t, v, timeout)
  }

  function Recv(m: Mb, t: Tid, timeout: int): (Mb, Outcome)
    requires Shape(m) && Knows(m, t)
  {
    if m.ring.entry == 0 && timeout == 0 then (m, Returned(ETIMEOUT, 0)) else RecvLoop(m, t, timeout)
  }

  /** A blocked call goes on after rt_schedule has brought its thread back. */
  function Continue(m: Mb, t: Tid): (Mb, Outcome)
    requires Shape(m) && Knows(m, t) && t in m.core.blocked && t in m.locals
  {
    var l := m.locals[t];
    if m.core.sys.tcb[t].error != EOK then
      (Finish(m, t), Returned(m.core.sys.tcb[t].error, 0))
    else if m.core.blocked[t] == SENDERS then
      SendLoop(m, t, l.value, TimeLeft(l.timeout, l.start, m.now))
    else
      RecvLoop(m, t, TimeLeft(l.timeout, l.start, m.now))
  }

  /** rt_mb_send and a non-blocking rt_mb_recv from an interrupt handler, which is no thread. */
  function Post(m: Mb, v: Mail): (Mb, Outcome)
    requires Shape(m)
  {
    if Full(m.ring) then (m, Returned(EFULL, 0)) else (Deposit(m, v), Returned(EOK, 0))
  }

  function Poll(m: Mb): (Mb, Outcome)
    requires Shape(m)
  {
    if m.ring.entry == 0 then (m, Returned(ETIMEOUT, 0))
    else (Withdraw(m), Returned(EOK, Take(m.ring).1))
  }

  /** The second half of RT_IPC_CMD_RESET starts from the wait lists the first half has left. */
  function Reset(m: Mb): Mb
    requires Shape(m)
  {
    var c1 := KickAll(m.core, RECEIVERS);
    if |c1.sys.wait| == 2 && InRange(c1.sys, c1.sys.wait[SENDERS]) then
      m.(core := KickAll(c1, SENDERS), ring := Ring(m.ring.buf, 0, 0, 0), sent := [], got := [])
    else m
  }

  // ---- The protocol --------------------------------------------------------------------------

  datatype Step =
    | DoSend(t: Tid, v: Mail, timeout: int) | DoRecv(t: Tid, timeout: int) | DoContinue(t: Tid)
    | DoPost(v: Mail) | DoPoll | DoExpire(t: Tid) | DoRouse(t: Tid) | DoReset | DoTick | DoAside(o: Other)

  /** A new call comes from a READY thread in no call, a call goes on when its thread is READY, a
      timer expires while it is armed, and anybody may resume a thread that waits. */
  predicate Enabled(m: Mb, s: Step) {
    && Shape(m)
    && match s
       case DoSend(t, _, _) => Knows(m, t) && m.core.sys.tcb[t].stat == Ready && t !in m.core.blocked
       case DoRecv(t, _) => Knows(m, t) && m.core.sys.tcb[t].stat == Ready && t !in m.core.blocked
       case DoContinue(t) => Knows(m, t) && m.core.sys.tcb[t].stat == Ready
                             && t in m.core.blocked && t in m.locals
       case DoExpire(t) => Knows(m, t) && m.core.sys.tcb[t].armed
       case DoRouse(t) => Knows(m, t) && m.core.sys.tcb[t].stat == Suspended && t in m.core.blocked
       case DoAside(o) => OtherEnabled(m.core, o)
       case _ => true
  }

  function Next(m: Mb, s: Step): Mb
    requires Enabled(m, s)
  {
    match s
    case DoSend(t, v, timeout) => Send(m, t, v, timeout).0
    case DoRecv(t, timeout) => Recv(m, t, timeout).0
    case DoContinue(t) => Continue(m, t).0
    case DoPost(v) => Post(m, v).0
    case DoPoll => Poll(m).0
    case DoExpire(t) => m.(core := Expire(m.core, t))
    case DoRouse(t) => m.(core := Rouse(m.core, t))
    case DoReset => Reset(m)
    case DoTick => m.(now := (m.now + 1) % TICKS)
    case DoAside(o) => m.(core := Aside(m.core, o))
  }

  predicate EnabledRun(m: Mb, ss: seq<Step>)
    decreases |ss|
  {
    ss == [] || (Enabled(m, ss[0]) && EnabledRun(Next(m, ss[0]), ss[1..]))
  }

  function Run(m: Mb, ss: seq<Step>): Mb
    requires EnabledRun(m, ss)
    decreases |ss|
  {
    if ss == [] then m else Run(Next(m, ss[0]), ss[1..])
  }

  /** rt_mb_init on a buffer of |buf| mails, among threads that are in no call. */
  function Create(sys: Sys, flag: Flag, buf: seq<Mail>): Mb {
    Mb(Core(sys.(wait := [[], []]), map[]), flag, 0, Ring(buf, 0, 0, 0), map[], [], [])
  }
}
