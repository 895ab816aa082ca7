/** Threads, the ready lists and the wait lists of IPC objects (software/src/thread.c,
    software/src/scheduler.c, software/src/ipc.c:82-182) as one value. Every function below is one
    section the kernel runs with interrupts disabled. */
module Threads {
  import opened Base

  type Tid = nat

  datatype Stat = Initial | Ready | Suspended | Closed
  datatype Err = EOK | ERROR | ETIMEOUT | EFULL
  datatype Flag = FIFO | PRIO

  /** The fields of struct rt_thread that matter here; `armed` is RT_TIMER_FLAG_ACTIVATED of the
      thread timer, which the kernel keeps in step with the timer's place in the timer list. */
  datatype Tcb = Tcb(stat: Stat, prio: nat, initPrio: nat, error: Err, armed: bool)

  /** `ready` is rt_thread_priority_table, `wait` holds the suspend lists of the objects. */
  datatype Sys = Sys(tcb: map<Tid, Tcb>, ready: seq<seq<Tid>>, wait: seq<seq<Tid>>)

  // ---- Lists ---------------------------------------------------------------------------------

  function WithoutAll(ls: seq<seq<Tid>>, t: Tid): (r: seq<seq<Tid>>)
    ensures |r| == |ls|
    ensures forall i :: 0 <= i < |ls| ==> r[i] == Without(ls[i], t)
  {
    seq(|ls|, i requires 0 <= i < |ls| => Without(ls[i], t))
  }

  /** The position in front of the first thread whose priority number is larger. */
  function PrioPosition(tcb: map<Tid, Tcb>, l: seq<Tid>, p: nat): (n: nat)
    ensures n <= |l|
  {
    if l == [] then 0
    else if l[0] in tcb && p < tcb[l[0]].prio then 0
    else 1 + PrioPosition(tcb, l[1..], p)
  }

  // ---- The placement invariant ---------------------------------------------------------------

  ghost predicate ReadyPlaced(s: Sys) {
    && (forall p :: 0 <= p < |s.ready| ==> NoDup(s.ready[p]))
    && (forall p, t :: 0 <= p < |s.ready| && t in s.ready[p]
                  ==> t in s.tcb && s.tcb[t].stat == Ready && s.tcb[t].prio == p)
    && (forall t :: t in s.tcb ==> s.tcb[t].prio < |s.ready| && s.tcb[t].initPrio < |s.ready|)
    && (forall t :: t in s.tcb && s.tcb[t].stat == Ready ==> t in s.ready[s.tcb[t].prio])
  }

  ghost predicate WaitPlaced(s: Sys) {
    && (forall q :: 0 <= q < |s.wait| ==> NoDup(s.wait[q]))
    && (forall q, t :: 0 <= q < |s.wait| && t in s.wait[q]
                  ==> t in s.tcb && s.tcb[t].stat == Suspended)
    && (forall q, r, t :: 0 <= q < r < |s.wait| && t in s.wait[q] ==> t !in s.wait[r])
  }

  ghost predicate TimersPlaced(s: Sys) {
    forall t :: t in s.tcb && s.tcb[t].armed ==> s.tcb[t].stat == Suspended
  }

  /** A thread is READY exactly when it is once in the ready list of its current priority, a
      waiting thread is suspended and in one wait list, and only suspended threads have an armed
      timer. */
  ghost predicate Placed(s: Sys) {
    ReadyPlaced(s) && WaitPlaced(s) && TimersPlaced(s)
  }

  // ---- Scheduler lists -----------------------------------------------------------------------

  /** rt_list_remove on the thread's list node, whichever list it is in. */
  function Detach(s: Sys, t: Tid): (r: Sys)
    ensures |r.ready| == |s.ready|
  {
    s.(ready := WithoutAll(s.ready, t), wait := WithoutAll(s.wait, t))
  }

  /** rt_schedule_insert_thread */
  function InsertReady(s: Sys, t: Tid): (r: Sys)
    requires t in s.tcb && s.tcb[t].prio < |s.ready|
    ensures |r.ready| == |s.ready|
  {
    var p := s.tcb[t].prio;
    s.(tcb := s.tcb[t := s.tcb[t].(stat := Ready)], ready := s.ready[p := s.ready[p] + [t]])
  }

  // ---- Thread operations ---------------------------------------------------------------------

  function SetError(s: Sys, t: Tid, e: Err): (r: Sys)
    requires t in s.tcb
    ensures |r.ready| == |s.ready|
  {
    s.(tcb := s.tcb[t := s.tcb[t].(error := e)])
  }

  /** rt_thread_suspend */
  function Suspend(s: Sys, t: Tid): (r: Sys)
    requires t in s.tcb
    ensures |r.ready| == |s.ready|
  {
    if s.tcb[t].stat != Ready then s
    else Detach(s.(tcb := s.tcb[t := s.tcb[t].(stat := Suspended)]), t)
  }

  /** rt_thread_resume: off the wait list, timer removed and deactivated, into the ready list. */
  function Resume(s: Sys, t: Tid): (r: Sys)
    requires t in s.tcb && s.tcb[t].prio < |s.ready|
    ensures |r.ready| == |s.ready|
  {
    if s.tcb[t].stat != Suspended then s
    else InsertReady(Detach(s.(tcb := s.tcb[t := s.tcb[t].(armed := false)]), t), t)
  }

  /** rt_timer_check running rt_thread_timeout for an armed thread timer. */
  function Timeout(s: Sys, t: Tid): (r: Sys)
    requires t in s.tcb && s.tcb[t].prio < |s.ready|
    ensures |r.ready| == |s.ready|
  {
    var tcb := s.tcb[t := s.tcb[t].(error := ETIMEOUT, armed := false)];
    InsertReady(Detach(s.(tcb := tcb), t), t)
  }

  /** rt_timer_control and rt_timer_start on the thread timer. */
  function Arm(s: Sys, t: Tid): (r: Sys)
    requires t in s.tcb
    ensures |r.ready| == |s.ready|
  {
    s.(tcb := s.tcb[t := s.tcb[t].(armed := true)])
  }

  /** rt_thread_sleep up to rt_schedule */
  function Sleep(s: Sys, t: Tid): (r: Sys)
    requires t in s.tcb
    ensures |r.ready| == |s.ready|
  {
    Arm(Suspend(s, t), t)
  }

  /** rt_thread_yield: to the end of its ready list unless it is alone there. */
  function Yield(s: Sys, t: Tid): (r: Sys)
    requires t in s.tcb && s.tcb[t].prio < |s.ready|
    ensures |r.ready| == |s.ready|
  {
    var p := s.tcb[t].prio;
    if s.tcb[t].stat == Ready && |s.ready[p]| > 1 then
      s.(ready := s.ready[p := Without(s.ready[p], t) + [t]])
    else s
  }

  /** rt_thread_control(RT_THREAD_CTRL_CHANGE_PRIORITY) */
  function ChangePriority(s: Sys, t: Tid, p: nat): (r: Sys)
    requires t in s.tcb && p < |s.ready|
    ensures |r.ready| == |s.ready|
  {
    var moved := s.tcb[t := s.tcb[t].(prio := p)];
    if s.tcb[t].stat == Ready then InsertReady(Detach(s.(tcb := moved), t), t)
    else s.(tcb := moved)
  }

  /** rt_thread_startup */
  function Startup(s: Sys, t: Tid): (r: Sys)
    requires t in s.tcb && s.tcb[t].initPrio < |s.ready|
    ensures |r.ready| == |s.ready|
  {
    Resume(s.(tcb := s.tcb[t := s.tcb[t].(prio := s.tcb[t].initPrio, stat := Suspended)]), t)
  }

  // ---- Wait lists ----------------------------------------------------------------------------

  function Enqueue(s: Sys, q: nat, t: Tid, flag: Flag): (r: Sys)
    requires t in s.tcb && q < |s.wait|
    ensures |r.ready| == |s.ready|
  {
    var n := if flag == FIFO then |s.wait[q]| else PrioPosition(s.tcb, s.wait[q], s.tcb[t].prio);
    s.(wait := s.wait[q := Insert(s.wait[q], n, t)])
  }

  /** rt_ipc_list_suspend */
  function ListSuspend(s: Sys, q: nat, t: Tid, flag: Flag): (r: Sys)
    requires t in s.tcb && q < |s.wait|
    ensures |r.ready| == |s.ready|
  {
    var s1 := Suspend(s, t);
    Enqueue(s1, q, t, flag)
  }

  /** rt_ipc_list_resume */
  function ListResume(s: Sys, q: nat): (r: Sys)
    requires q < |s.wait| && s.wait[q] != []
    requires s.wait[q][0] in s.tcb && s.tcb[s.wait[q][0]].prio < |s.ready|
    ensures |r.ready| == |s.ready|
  {
    Resume(s, s.wait[q][0])
  }

  predicate InRange(s: Sys, l: seq<Tid>) {
    forall t :: t in l ==> t in s.tcb && s.tcb[t].prio < |s.ready|
  }

  /** Resumes the threads of l one after the other with error code -RT_ERROR. */
  function ResumeEach(s: Sys, l: seq<Tid>): (r: Sys)
    requires InRange(s, l)
    ensures |r.ready| == |s.ready|
    decreases |l|
  {
    if l == [] then s else ResumeEach(Resume(SetError(s, l[0], ERROR), l[0]), l[1..])
  }

  /** rt_ipc_list_resume_all */
  function ResumeAll(s: Sys, q: nat): (r: Sys)
    requires q < |s.wait| && InRange(s, s.wait[q])
    ensures |r.ready| == |s.ready|
  {
    ResumeEach(s, s.wait[q])
  }

  // ---- Blocking calls ------------------------------------------------------------------------

  /** A blocking call gives up the processor: error cleared, into wait list q, timer if asked. */
  function Block(s: Sys, q: nat, t: Tid, flag: Flag, timed: bool): (r: Sys)
    requires t in s.tcb && q < |s.wait|
    ensures |r.ready| == |s.ready|
  {
    var s1 := ListSuspend(SetError(s, t, EOK), q, t, flag);
    if timed && t in s1.tcb then Arm(s1, t) else s1
  }

  /** Wakes the first thread of wait list q if there is one. */
  function WakeFirst(s: Sys, q: nat): (r: Sys)
    requires q < |s.wait| && InRange(s, s.wait[q])
    ensures |r.ready| == |s.ready|
  {
    if s.wait[q] == [] then s else ListResume(s, q)
  }

  const TICKS: int := 0x1_0000_0000

  /** The new timeout after a wake-up: the elapsed ticks are subtracted in unsigned 32-bit
      arithmetic, the difference is read back as signed, and a negative one becomes zero. */
  function TimeLeft(timeout: int, start: int, now: int): int {
    if timeout <= 0 then timeout
    else
      var raw := (timeout - (now - start) % TICKS) % TICKS;
      if raw >= TICKS / 2 then 0 else raw
  }

  // ---- Runs ----------------------------------------------------------------------------------

  datatype Op =
    | OpStartup(t: Tid) | OpSuspend(t: Tid) | OpResume(t: Tid) | OpSleep(t: Tid) | OpYield(t: Tid)
    | OpTimeout(t: Tid) | OpPriority(t: Tid, p: nat) | OpExit(t: Tid)
    | OpWait(q: nat, t: Tid, flag: Flag, timed: bool) | OpWake(q: nat) | OpWakeAll(q: nat)

  /** rt_thread_exit: the running thread leaves its ready list for good. */
  function Exit(s: Sys, t: Tid): (r: Sys)
    requires t in s.tcb
    ensures |r.ready| == |s.ready|
  {
    Detach(s.(tcb := s.tcb[t := s.tcb[t].(stat := Closed)]), t)
  }

  /** When the kernel performs an operation: a thread that sleeps, waits or exits is the running
      one and so READY, a timer only fires while armed, a wake-up needs a waiting thread. */
  predicate OpEnabled(s: Sys, op: Op) {
    match op
    case OpStartup(t) => t in s.tcb && s.tcb[t].stat == Initial && s.tcb[t].initPrio < |s.ready|
    case OpSuspend(t) => t in s.tcb
    case OpResume(t) => t in s.tcb && s.tcb[t].prio < |s.ready|
    case OpSleep(t) => t in s.tcb && s.tcb[t].stat == Ready
    case OpYield(t) => t in s.tcb && s.tcb[t].prio < |s.ready|
    case OpTimeout(t) => t in s.tcb && s.tcb[t].armed && s.tcb[t].prio < |s.ready|
    case OpPriority(t, p) => t in s.tcb && p < |s.ready|
    case OpExit(t) => t in s.tcb && s.tcb[t].stat == Ready
    case OpWait(q, t, _, _) => t in s.tcb && q < |s.wait| && s.tcb[t].stat == Ready
    case OpWake(q) => q < |s.wait| && s.wait[q] != []
                      && s.wait[q][0] in s.tcb && s.tcb[s.wait[q][0]].prio < |s.ready|
    case OpWakeAll(q) => q < |s.wait| && InRange(s, s.wait[q])
  }

  function Perform(s: Sys, op: Op): (r: Sys)
    requires OpEnabled(s, op)
    ensures |r.ready| == |s.ready|
  {
    match op
    case OpStartup(t) => Startup(s, t)
    case OpSuspend(t) => Suspend(s, t)
    case OpResume(t) => Resume(s, t)
    case OpSleep(t) => Sleep(s, t)
    case OpYield(t) => Yield(s, t)
    case OpTimeout(t) => Timeout(s, t)
    case OpPriority(t, p) => ChangePriority(s, t, p)
    case OpExit(t) => Exit(s, t)
    case OpWait(q, t, flag, timed) =>
      var s1 := ListSuspend(s, q, t, flag);
      if timed then Arm(s1, t) else s1
    case OpWake(q) => ListResume(s, q)
    case OpWakeAll(q) => ResumeAll(s, q)
  }

  predicate OpsEnabled(s: Sys, ops: seq<Op>)
    decreases |ops|
  {
    ops == [] || (OpEnabled(s, ops[0]) && OpsEnabled(Perform(s, ops[0]), ops[1..]))
  }

  function RunOps(s: Sys, ops: seq<Op>): (r: Sys)
    requires OpsEnabled(s, ops)
    ensures |r.ready| == |s.ready|
    decreases |ops|
  {
    if ops == [] then s else RunOps(Perform(s, ops[0]), ops[1..])
  }
}
