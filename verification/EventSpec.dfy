/** The event protocol (software/src/ipc.c:940-1162): receivers wait for all or any of some bits, a
    send sets bits and scans the waiting threads in order. */
module EventSpec {
  import opened Threads
  import opened Waiters

  const WAITERS: nat := 0
  const FLAG_AND: bv8 := 1
  const FLAG_OR: bv8 := 2
  const FLAG_CLEAR: bv8 := 4

  /** thread->event_set and thread->event_info */
  datatype Want = Want(bits: bv32, option: bv8)

  /** `owed` records for each resumed receiver what an immediate receive would have returned, `stray`
      are the receivers whose last wait was ended by somebody else calling rt_thread_resume. */
  datatype Event = Event(core: Core, flag: Flag, bits: bv32, want: map<Tid, Want>, owed: map<Tid, bv32>,
                         stray: set<Tid>)

  datatype Outcome = Blocked | Returned(err: Err, bits: bv32)

  // ---- One receiver --------------------------------------------------------------------------

  predicate Has(option: bv8, flag: bv8) {
    option & flag != 0
  }

  predicate AllIn(want: bv32, bits: bv32) {
    want & bits == want
  }

  function Common(want: bv32, bits: bv32): bv32 {
    want & bits
  }

  function Cleared(bits: bv32, gone: bv32): bv32 {
    bits & !gone
  }

  /** The test of rt_event_recv and, on the bits at that moment, of rt_event_send. */
  predicate Met(w: Want, bits: bv32) {
    if Has(w.option, FLAG_AND) then AllIn(w.bits, bits)
    else Has(w.option, FLAG_OR) && Common(w.bits, bits) != 0
  }

  /** rt_event_recv when the test succeeds at once. */
  function GotNow(w: Want, bits: bv32): bv32 {
    Common(bits, w.bits)
  }

  function LeftNow(w: Want, bits: bv32): bv32 {
    if Has(w.option, FLAG_CLEAR) then Cleared(bits, w.bits) else bits
  }

  /** rt_event_send: what it stores in the thread it resumes, and what it leaves. */
  function GotLater(w: Want, bits: bv32): bv32 {
    if Has(w.option, FLAG_AND) then w.bits else Common(w.bits, bits)
  }

  function LeftLater(w: Want, bits: bv32): bv32 {
    if Has(w.option, FLAG_CLEAR) then Cleared(bits, GotLater(w, bits)) else bits
  }

  // ---- Shape ---------------------------------------------------------------------------------

  predicate Waiting(e: Event, l: seq<Tid>) {
    forall t :: t in l ==> t in e.core.sys.tcb && e.core.sys.tcb[t].prio < |e.core.sys.ready| && t in e.want
  }

  predicate Shape(e: Event) {
    |e.core.sys.wait| == 1 && Waiting(e, e.core.sys.wait[WAITERS])
  }

  predicate Knows(e: Event, t: Tid) {
    t in e.core.sys.tcb && e.core.sys.tcb[t].prio < |e.core.sys.ready|
  }

  // ---- Sections ------------------------------------------------------------------------------

  /** t is resumed with the bits it gets. */
  function Grant(e: Event, t: Tid): Event
    requires Knows(e, t) && t in e.want
  {
    var w := e.want[t];
    e.(core := e.core.(sys := Resume(e.core.sys, t)), bits := LeftLater(w, e.bits),
       want := e.want[t := w.(bits := GotLater(w, e.bits))], owed := e.owed[t := GotNow(w, e.bits)])
  }

  /** One round of the loop of rt_event_send. */
  function Visit(e: Event, t: Tid): Event
    requires Knows(e, t) && t in e.want
  {
    if Met(e.want[t], e.bits) then Grant(e, t) else e
  }

  /** The loop of rt_event_send over the threads of l; every thread resumed stays known. */
  function Scan(e: Event, l: seq<Tid>): Event
    requires Waiting(e, l)
    decreases |l|
  {
    if l == [] then e
    else
      var e1 := Visit(e, l[0]);
      if Waiting(e1, l[1..]) then Scan(e1, l[1..]) else e1
  }

  function Added(bits: bv32, mask: bv32): bv32 {
    bits | mask
  }

  function Send(e: Event, mask: bv32): (Event, Outcome)
    requires Shape(e)
  {
    if mask == 0 then (e, Returned(ERROR, 0))
    else (Scan(e.(bits := Added(e.bits, mask)), e.core.sys.wait[WAITERS]), Returned(EOK, 0))
  }

  function Recv(e: Event, t: Tid, mask: bv32, option: bv8, timeout: int): (Event, Outcome)
    requires Shape(e) && Knows(e, t)
  {
    var w := Want(mask, option);
    if mask == 0 then (e, Returned(ERROR, 0))
    else if Met(w, e.bits) then
      (e.(core := Fail(e.core, t, EOK), bits := LeftNow(w, e.bits)), Returned(EOK, GotNow(w, e.bits)))
    else if timeout == 0 then
      (e.(core := Fail(e.core, t, ETIMEOUT)), Returned(ETIMEOUT, 0))
    else
      (e.(core := Enter(e.core, WAITERS, t, e.flag, timeout > 0), want := e.want[t := w],
          stray := e.stray - {t}), Blocked)
  }

  /** A waiting receiver goes on after rt_schedule. */
  function Continue(e: Event, t: Tid): (Event, Outcome)
    requires Knows(e, t) && t in e.want
  {
    var e' := e.(core := Leave(e.core, t));
    if e.core.sys.tcb[t].error != EOK then (e', Returned(e.core.sys.tcb[t].error, 0))
    else (e', Returned(EOK, e.want[t].bits))
  }

  /** Somebody else calls rt_thread_resume on a waiting receiver. */
  function Roused(e: Event, t: Tid): Event
    requires Knows(e, t)
  {
    e.(core := Rouse(e.core, t), stray := e.stray + {t})
  }

  function Reset(e: Event): Event
    requires Shape(e)
  {
    e.(core := KickAll(e.core, WAITERS), bits := 0)
  }

  // ---- The protocol --------------------------------------------------------------------------

  datatype Step =
    | DoSend(mask: bv32) | DoRecv(t: Tid, mask: bv32, option: bv8, timeout: int) | DoContinue(t: Tid)
    | DoExpire(t: Tid) | DoRouse(t: Tid) | DoReset | DoAside(o: Other)

  predicate Enabled(e: Event, s: Step) {
    && Shape(e)
    && match s
       case DoSend(_) => true
       case DoRecv(t, _, _, _) => Knows(e, t) && e.core.sys.tcb[t].stat == Ready && t !in e.core.blocked
       case DoContinue(t) => Knows(e, t) && e.core.sys.tcb[t].stat == Ready && t in e.core.blocked
                             && t in e.want
       case DoExpire(t) => Knows(e, t) && e.core.sys.tcb[t].armed
       case DoRouse(t) => Knows(e, t) && e.core.sys.tcb[t].stat == Suspended && t in e.core.blocked
       case DoReset => true
       case DoAside(o) => OtherEnabled(e.core, o)
  }

  function Next(e: Event, s: Step): Event
    requires Enabled(e, s)
  {
    match s
    case DoSend(mask) => Send(e, mask).0
    case DoRecv(t, mask, option, timeout) => Recv(e, t, mask, option, timeout).0
    case DoContinue(t) => Continue(e, t).0
    case DoExpire(t) => e.(core := Expire(e.core, t))
    case DoRouse(t) => Roused(e, t)
    case DoReset => Reset(e)
    case DoAside(o) => e.(core := Aside(e.core, o))
  }

  predicate EnabledRun(e: Event, ss: seq<Step>)
    decreases |ss|
  {
    ss == [] || (Enabled(e, ss[0]) && EnabledRun(Next(e, ss[0]), ss[1..]))
  }

  function Run(e: Event, ss: seq<Step>): Event
    requires EnabledRun(e, ss)
    decreases |ss|
  {
    if ss == [] then e else Run(Next(e, ss[0]), ss[1..])
  }

  function Create(sys: Sys, flag: Flag): Event {
    Event(Core(sys.(wait := [[]]), map[]), flag, 0, map[], map[], {})
  }
}
