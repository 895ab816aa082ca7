/** The hard timers (software/src/timer.c:216-414) and the tick (software/src/clock.c:72-94). Ticks
    are 32-bit and wrap; `now`, `plan`, `log` and `checking` record true time and what happened. */
module TimerSpec {
  import opened Base
  import opened Threads

  const HALF: int := 0x7FFF_FFFF    // RT_TICK_MAX / 2

  datatype Timer = Timer(timeout: int, init: int, periodic: bool, active: bool)

  /** When a timer was armed and when it is due, in true time; which event of the log that was, and
      whether it happened in a timeout function. */
  datatype Plan = Plan(since: int, due: int, no: nat, inside: bool)

  datatype Event = Armed(id: nat, plan: Plan) | Fired(id: nat, plan: Plan, at: int)
                 | Stopped(id: nat, at: int, inside: bool)

  /** `checking` holds while rt_timer_check runs. */
  datatype Wheel = Wheel(tick: int, timers: map<nat, Timer>, list: seq<nat>, now: int,
                         plan: map<nat, Plan>, log: seq<Event>, checking: bool)

  /** What a thread, an interrupt handler or a timeout function does to a timer. Start carries the
      init_tick the timer has been given. */
  datatype Action = SetTime(id: nat, k: int) | Start(id: nat, k: int) | Stop(id: nat)

  // ---- Start and stop ------------------------------------------------------------------------

  /** The unsigned comparison of rt_timer_start and rt_timer_check: a is not before b. */
  predicate NotBefore(a: int, b: int) {
    (a - b) % TICKS < HALF
  }

  predicate Known(timers: map<nat, Timer>, l: seq<nat>) {
    forall id :: id in l ==> id in timers
  }

  /** The loop of rt_timer_start: in front of the first timer that is not before the new one. */
  function Place(timers: map<nat, Timer>, l: seq<nat>, timeout: int): (n: nat)
    requires Known(timers, l)
    ensures n <= |l|
    decreases |l|
  {
    if l == [] || NotBefore(timers[l[0]].timeout, timeout) then 0
    else 1 + Place(timers, l[1..], timeout)
  }

  predicate Shape(s: Wheel) {
    Known(s.timers, s.list)
  }

  /** rt_timer_start on a timer that is not activated */
  function Launch(s: Wheel, id: nat): Wheel
    requires Shape(s) && id in s.timers
  {
    var t := s.timers[id];
    var timeout := (s.tick + t.init) % TICKS;
    var p := Plan(s.now, s.now + t.init, |s.log|, s.checking);
    s.(timers := s.timers[id := t.(timeout := timeout, active := true)],
       list := Insert(s.list, Place(s.timers, s.list, timeout), id),
       plan := s.plan[id := p], log := s.log + [Armed(id, p)])
  }

  function SetInit(s: Wheel, id: nat, k: int): Wheel
    requires id in s.timers
  {
    s.(timers := s.timers[id := s.timers[id].(init := k)])
  }

  /** rt_timer_stop on an activated timer */
  function Disarm(s: Wheel, id: nat): Wheel
    requires id in s.timers
  {
    s.(timers := s.timers[id := s.timers[id].(active := false)], list := Without(s.list, id),
       log := s.log + [Stopped(id, s.now, s.checking)])
  }

  /** rt_timer_control(RT_TIMER_CTRL_SET_TIME), rt_timer_start and rt_timer_stop; the last two
      return an error and do nothing if the timer is activated or not activated already. */
  function Act(s: Wheel, a: Action): (r: Wheel)
    requires Shape(s) && a.id in s.timers
    ensures r.timers.Keys == s.timers.Keys && Shape(r)
  {
    match a
    case SetTime(id, k) => SetInit(s, id, k)
    case Start(id, k) => if s.timers[id].active then s else Launch(SetInit(s, id, k), id)
    case Stop(id) => if s.timers[id].active then Disarm(s, id) else s
  }

  predicate Names(timers: map<nat, Timer>, script: seq<Action>) {
    forall a :: a in script ==> a.id in timers
  }

  function ActAll(s: Wheel, script: seq<Action>): (r: Wheel)
    requires Shape(s) && Names(s.timers, script)
    ensures r.timers.Keys == s.timers.Keys && Shape(r)
    decreases |script|
  {
    if script == [] then s else ActAll(Act(s, script[0]), script[1..])
  }

  // ---- Expiry --------------------------------------------------------------------------------

  /** What each timeout function does if it runs in this check. */
  type Scripts = map<nat, seq<Action>>

  predicate NamesAll(timers: map<nat, Timer>, scripts: Scripts) {
    forall id :: id in scripts ==> Names(timers, scripts[id])
  }

  function ScriptOf(scripts: Scripts, id: nat): seq<Action> {
    if id in scripts then scripts[id] else []
  }

  /** The head of the list is due. */
  predicate HeadDue(s: Wheel)
    requires Shape(s)
  {
    s.list != [] && NotBefore(s.tick, s.timers[s.list[0]].timeout)
  }

  /** The head leaves the list. */
  function Pop(s: Wheel): Wheel
    requires s.list != []
  {
    var id := s.list[0];
    s.(list := s.list[1..],
       log := s.log + (if id in s.plan then [Fired(id, s.plan[id], s.now)] else []))
  }

  /** After the timeout function: a periodic timer that is still activated is started again. */
  function Renew(s: Wheel, id: nat): (r: Wheel)
    requires Shape(s) && id in s.timers
    ensures r.timers.Keys == s.timers.Keys && Shape(r)
  {
    var t := s.timers[id];
    var off := s.(timers := s.timers[id := t.(active := false)]);
    if t.periodic && t.active then Launch(off, id) else off
  }

  /** One round of the loop of rt_timer_check. */
  function Fire(s: Wheel, scripts: Scripts): (r: Wheel)
    requires Shape(s) && s.list != [] && NamesAll(s.timers, scripts)
    ensures r.timers.Keys == s.timers.Keys && Shape(r)
  {
    var id := s.list[0];
    Renew(ActAll(Pop(s), ScriptOf(scripts, id)), id)
  }

  /** The loop of rt_timer_check ends after n rounds. */
  predicate EndsIn(s: Wheel, scripts: Scripts, n: nat)
    requires Shape(s) && NamesAll(s.timers, scripts)
    decreases n
  {
    if HeadDue(s) then n > 0 && EndsIn(Fire(s, scripts), scripts, n - 1) else n == 0
  }

  /** Those n rounds. */
  function Rounds(s: Wheel, scripts: Scripts, n: nat): (r: Wheel)
    requires Shape(s) && NamesAll(s.timers, scripts) && EndsIn(s, scripts, n)
    ensures r.timers.Keys == s.timers.Keys && Shape(r)
    decreases n
  {
    if n == 0 then s else Rounds(Fire(s, scripts), scripts, n - 1)
  }

  /** The loop of rt_timer_check ends after at most n rounds. */
  predicate EndsBy(s: Wheel, scripts: Scripts, n: nat)
    requires Shape(s) && NamesAll(s.timers, scripts)
    decreases n
  {
    HeadDue(s) ==> n > 0 && EndsBy(Fire(s, scripts), scripts, n - 1)
  }

  /** Its first n rounds, or fewer if it ends before. */
  function UpTo(s: Wheel, scripts: Scripts, n: nat): (r: Wheel)
    requires Shape(s) && NamesAll(s.timers, scripts)
    ensures r.timers.Keys == s.timers.Keys && Shape(r)
    decreases n
  {
    if n == 0 || !HeadDue(s) then s else UpTo(Fire(s, scripts), scripts, n - 1)
  }

  /** The tick interrupt up to its rt_timer_check. */
  function Advance(s: Wheel): Wheel {
    s.(tick := (s.tick + 1) % TICKS, now := s.now + 1, checking := true)
  }

  /** Whether a timer is activated, and whether it is in the list. */
  datatype Mark = Mark(active: bool, listed: bool)

  function Track(a: Action, id: nat, m: Mark): Mark {
    match a
    case SetTime(_, _) => m
    case Start(x, _) => if x == id && !m.active then Mark(true, true) else m
    case Stop(x) => if x == id && m.active then Mark(false, false) else m
  }

  function TrackAll(script: seq<Action>, id: nat, m: Mark): Mark
    decreases |script|
  {
    if script == [] then m else TrackAll(script[1..], id, Track(script[0], id, m))
  }

  /** Whether a timeout function leaves the fired timer started again: it stops the timer and starts
      it after its last stop. Before that the timer is activated and rt_timer_start refuses it. */
  predicate Restarts(script: seq<Action>, id: nat) {
    TrackAll(script, id, Mark(true, false)).listed
  }
}
