/** In what order threads leave a wait list, over every run of thread operations
    (software/src/ipc.c:82-144). */
module Arrivals {
  import opened Base
  import opened Threads
  import opened ThreadLemmas
  import opened ThreadEffects

  /** When t came to wait list q the last time, as an index of the operations performed, or -1. */
  function Came(ops: seq<Op>, q: nat, t: Tid): int
    decreases |ops|
  {
    if ops == [] then -1
    else
      var last := ops[|ops| - 1];
      if last.OpWait? && last.q == q && last.t == t then |ops| - 1 else Came(ops[..|ops| - 1], q, t)
  }

  /** t is to be served before u: it came earlier, or in a PRIO list it has the higher priority or the
      same one and came earlier. */
  predicate Sooner(tcb: map<Tid, Tcb>, ops: seq<Op>, q: nat, flag: Flag, t: Tid, u: Tid) {
    && t in tcb && u in tcb
    && ((Came(ops, q, t) < Came(ops, q, u) && (flag == FIFO || tcb[t].prio == tcb[u].prio))
        || (flag == PRIO && tcb[t].prio < tcb[u].prio))
  }

  ghost predicate InTurn(tcb: map<Tid, Tcb>, l: seq<Tid>, ops: seq<Op>, q: nat, flag: Flag) {
    && (forall t :: t in l ==> t in tcb && Came(ops, q, t) < |ops|)
    && forall i, j :: 0 <= i < j < |l| ==> Sooner(tcb, ops, q, flag, l[i], l[j])
  }

  /** All waits on list q are of one kind, and priorities do not change in a PRIO list. */
  predicate OfKind(op: Op, q: nat, flag: Flag) {
    && (op.OpWait? && op.q == q ==> op.flag == flag)
    && (flag == PRIO ==> !op.OpPriority?)
  }

  lemma CameBefore(ops: seq<Op>, q: nat, t: Tid)
    ensures -1 <= Came(ops, q, t) < |ops|
    decreases |ops|
  {
    if ops != [] { CameBefore(ops[..|ops| - 1], q, t); }
  }

  lemma CameNext(ops: seq<Op>, op: Op, q: nat, t: Tid)
    ensures Came(ops + [op], q, t) == if op.OpWait? && op.q == q && op.t == t then |ops| else Came(ops, q, t)
  {
    assert (ops + [op])[..|ops|] == ops;
  }

  /** A list that loses threads stays in turn. */
  lemma {:induction false} FewerInTurn(tcb: map<Tid, Tcb>, l: seq<Tid>, ops: seq<Op>, q: nat, flag: Flag, t: Tid)
    requires InTurn(tcb, l, ops, q, flag)
    ensures InTurn(tcb, Without(l, t), ops, q, flag)
    decreases |l|
  {
    hide Sooner;
    if l != [] {
      TailInTurn(tcb, l, ops, q, flag);
      if l[0] != t {
        FewerInTurn(tcb, l[1..], ops, q, flag, t);
        var r := Without(l[1..], t);
        assert Without(l, t) == [l[0]] + r;
        ConsInTurn(tcb, l[0], r, ops, q, flag);
      }
    }
  }

  lemma TailInTurn(tcb: map<Tid, Tcb>, l: seq<Tid>, ops: seq<Op>, q: nat, flag: Flag)
    requires InTurn(tcb, l, ops, q, flag) && l != []
    ensures InTurn(tcb, l[1..], ops, q, flag) && l[0] in tcb && Came(ops, q, l[0]) < |ops|
    ensures forall u :: u in l[1..] ==> Sooner(tcb, ops, q, flag, l[0], u)
  {
    hide Sooner;
    assert l[0] in l && forall u :: u in l[1..] ==> u in l;
    forall u | u in l[1..] ensures Sooner(tcb, ops, q, flag, l[0], u) {
      var i :| 0 <= i < |l[1..]| && l[1..][i] == u;
      assert l[i + 1] == u;
    }
    forall i, j | 0 <= i < j < |l[1..]| ensures Sooner(tcb, ops, q, flag, l[1..][i], l[1..][j]) {
      assert l[1..][i] == l[i + 1] && l[1..][j] == l[j + 1];
    }
  }

  lemma ConsInTurn(tcb: map<Tid, Tcb>, t: Tid, r: seq<Tid>, ops: seq<Op>, q: nat, flag: Flag)
    requires InTurn(tcb, r, ops, q, flag) && t in tcb && Came(ops, q, t) < |ops|
    requires forall u :: u in r ==> Sooner(tcb, ops, q, flag, t, u)
    ensures InTurn(tcb, [t] + r, ops, q, flag)
  {
    hide Sooner;
    var l := [t] + r;
    forall i, j | 0 <= i < j < |l| ensures Sooner(tcb, ops, q, flag, l[i], l[j]) {
      assert l[j] == r[j - 1] && r[j - 1] in r;
      if i > 0 { assert l[i] == r[i - 1]; }
    }
  }

  /** An operation that changes no priority of a waiter and brings nobody to the list. */
  lemma SameInTurn(tcb: map<Tid, Tcb>, tcb': map<Tid, Tcb>, l: seq<Tid>, ops: seq<Op>, op: Op, q: nat, flag: Flag)
    requires InTurn(tcb, l, ops, q, flag) && !(op.OpWait? && op.q == q)
    requires forall t :: t in l ==> t in tcb' && (flag == PRIO ==> tcb'[t].prio == tcb[t].prio)
    ensures InTurn(tcb', l, ops + [op], q, flag)
  {
    forall t: Tid ensures Came(ops + [op], q, t) == Came(ops, q, t) { CameNext(ops, op, q, t); }
    forall i, j | 0 <= i < j < |l| ensures Sooner(tcb', ops + [op], q, flag, l[i], l[j]) {
      assert l[i] in l && l[j] in l && Sooner(tcb, ops, q, flag, l[i], l[j]);
    }
  }

  /** Somebody comes to the list, at place n. */
  lemma JoinAt(tcb: map<Tid, Tcb>, tcb': map<Tid, Tcb>, l: seq<Tid>, l': seq<Tid>, ops: seq<Op>, op: Op, q: nat,
               t: Tid, flag: Flag, n: nat)
    requires InTurn(tcb, l, ops, q, flag) && op.OpWait? && op.q == q && op.t == t && t !in l
    requires tcb'.Keys == tcb.Keys && t in tcb && forall u :: u in tcb ==> tcb'[u].prio == tcb[u].prio
    requires n <= |l| && l' == l[..n] + [t] + l[n..]
    requires if flag == FIFO then n == |l| else PutAt(tcb', l, l', t, n)
    ensures InTurn(tcb', l', ops + [op], q, flag)
  {
    forall u: Tid ensures Came(ops + [op], q, u) == if u == t then |ops| else Came(ops, q, u) { CameNext(ops, op, q, u); }
    hide Came;
    MembersOf(l, l', n, t);
    forall i, j | 0 <= i < j < |l'| ensures Sooner(tcb', ops + [op], q, flag, l'[i], l'[j]) {
      OldPlaces(l, l', n, t, i, j);
      var a, b := if i < n then i else i - 1, if j < n then j else j - 1;
      if i == n {
        assert l[b] in l;
        if b > n { assert l[n] in l && Sooner(tcb, ops, q, flag, l[n], l[b]); }
      } else if j == n {
        assert l[a] in l;
      } else {
        assert l[a] in l && l[b] in l && Sooner(tcb, ops, q, flag, l[a], l[b]);
      }
    }
  }

  lemma MembersOf(l: seq<Tid>, l': seq<Tid>, n: nat, t: Tid)
    requires n <= |l| && l' == l[..n] + [t] + l[n..]
    ensures forall u :: u in l' ==> u == t || u in l
  {}

  lemma JoinInTurn(tcb: map<Tid, Tcb>, tcb': map<Tid, Tcb>, l: seq<Tid>, l': seq<Tid>, ops: seq<Op>, op: Op, q: nat,
                   t: Tid, flag: Flag)
    requires InTurn(tcb, l, ops, q, flag) && op.OpWait? && op.q == q && op.t == t && t !in l
    requires tcb'.Keys == tcb.Keys && t in tcb && forall u :: u in tcb ==> tcb'[u].prio == tcb[u].prio
    requires PutIn(tcb', l, l', t, flag)
    ensures InTurn(tcb', l', ops + [op], q, flag)
  {
    hide InTurn;
    if flag == FIFO {
      assert l' == l[..|l|] + [t] + l[|l|..];
      JoinAt(tcb, tcb', l, l', ops, op, q, t, flag, |l|);
    } else {
      var n := PlaceOf(tcb', l, l', t);
      JoinAt(tcb, tcb', l, l', ops, op, q, t, flag, n);
    }
  }

  lemma PlaceOf(tcb: map<Tid, Tcb>, l: seq<Tid>, l': seq<Tid>, t: Tid) returns (n: nat)
    requires PutIn(tcb, l, l', t, PRIO)
    ensures PutAt(tcb, l, l', t, n)
  {
    n :| PutAt(tcb, l, l', t, n);
  }

  lemma OldPlaces(l: seq<Tid>, l': seq<Tid>, n: nat, t: Tid, i: nat, j: nat)
    requires n <= |l| && l' == l[..n] + [t] + l[n..] && i < j < |l'|
    ensures l'[n] == t && (i != n ==> l'[i] == l[if i < n then i else i - 1])
    ensures j != n ==> l'[j] == l[if j < n then j else j - 1]
  {}

  // ---- One operation -------------------------------------------------------------------------

  /** What an operation does to wait list q and to the priorities of those in it. */
  ghost predicate ListGoes(s: Sys, s': Sys, op: Op, q: nat, l': seq<Tid>) {
    && |s'.wait| == |s.wait| && q < |s.wait| && s'.wait[q] == l'
    && (forall t :: t in s.wait[q] ==> t in s'.tcb && t in s.tcb && (!op.OpPriority? ==> s'.tcb[t].prio == s.tcb[t].prio))
  }

  lemma ResumeList(s: Sys, t: Tid, op: Op, q: nat)
    requires Placed(s) && t in s.tcb && q < |s.wait|
    ensures s.tcb[t].prio < |s.ready|
    ensures ListGoes(s, Resume(s, t), op, q, if s.tcb[t].stat == Suspended then Without(s.wait[q], t) else s.wait[q])
  {
    ResumeDoes(s, t);
    PlacedRanges(s);
    hide Placed, Resume, Without;
  }

  /** Operations of threads that wait nowhere leave the wait lists alone. */
  lemma OwnList(s: Sys, op: Op, q: nat)
    requires Placed(s) && OpEnabled(s, op) && q < |s.wait|
    requires op.OpStartup? || op.OpSuspend? || op.OpSleep? || op.OpYield? || op.OpPriority? || op.OpExit?
    ensures ListGoes(s, Perform(s, op), op, q, s.wait[q])
  {
    hide Placed, Startup, Suspend, Sleep, Yield, ChangePriority, Exit, Without;
    PlacedRanges(s);
    match op {
      case OpStartup(t) =>
        NewThread(s, t, q);
        StartupDoes(s, t);
      case OpSuspend(t) => SuspendDoes(s, t);
      case OpSleep(t) => SleepDoes(s, t);
      case OpYield(t) => YieldDoes(s, t);
      case OpPriority(t, p) => PriorityDoes(s, t, p);
      case OpExit(t) => ExitDoes(s, t);
    }
  }

  lemma NewThread(s: Sys, t: Tid, q: nat)
    requires Placed(s) && t in s.tcb && s.tcb[t].stat == Initial && q < |s.wait|
    ensures t !in s.wait[q]
  {}

  /** Any operation but a wait on list q takes at most some threads out of it. */
  lemma OtherList(s: Sys, op: Op, q: nat)
    requires Placed(s) && OpEnabled(s, op) && q < |s.wait| && !(op.OpWait? && op.q == q)
    ensures var l, s' := s.wait[q], Perform(s, op);
      ListGoes(s, s', op, q, l) || ListGoes(s, s', op, q, [])
      || exists t :: ListGoes(s, s', op, q, Without(l, t))
  {
    hide Placed, Resume, Timeout, ListSuspend, ResumeAll, PutIn, Without;
    PlacedRanges(s);
    match op {
      case OpResume(t) => ResumeList(s, t, op, q);
      case OpTimeout(t) =>
        TimeoutDoes(s, t);
        assert ListGoes(s, Perform(s, op), op, q, Without(s.wait[q], t));
      case OpWait(r, t, flag, timed) => ListSuspendDoes(s, r, t, flag);
      case OpWake(r) => ResumeList(s, s.wait[r][0], op, q);
      case OpWakeAll(r) => ResumeAllEffect(s, r);
      case _ =>
        hide Perform, OpEnabled;
        OwnList(s, op, q);
    }
  }

  lemma StepInTurn(s: Sys, ops: seq<Op>, op: Op, q: nat, flag: Flag)
    requires Placed(s) && OpEnabled(s, op) && q < |s.wait| && OfKind(op, q, flag)
    requires InTurn(s.tcb, s.wait[q], ops, q, flag)
    ensures var s' := Perform(s, op); |s'.wait| == |s.wait| && InTurn(s'.tcb, s'.wait[q], ops + [op], q, flag)
  {
    hide Placed, InTurn, PutIn, Without;
    if op.OpWait? && op.q == q {
      WaitJoins(s, op);
      var s' := Perform(s, op);
      hide Perform;
      JoinInTurn(s.tcb, s'.tcb, s.wait[q], s'.wait[q], ops, op, q, op.t, flag);
    } else {
      OtherList(s, op, q);
      var l, s' := s.wait[q], Perform(s, op);
      hide Perform;
      if ListGoes(s, s', op, q, l) {
        SameInTurn(s.tcb, s'.tcb, l, ops, op, q, flag);
      } else if ListGoes(s, s', op, q, []) {
        NobodyInTurn(s'.tcb, ops + [op], q, flag);
      } else {
        var t :| ListGoes(s, s', op, q, Without(l, t));
        SameInTurn(s.tcb, s'.tcb, l, ops, op, q, flag);
        FewerInTurn(s'.tcb, l, ops + [op], q, flag, t);
      }
    }
  }

  lemma NobodyInTurn(tcb: map<Tid, Tcb>, ops: seq<Op>, q: nat, flag: Flag)
    ensures InTurn(tcb, [], ops, q, flag)
  {}

  lemma WaitJoins(s: Sys, op: Op)
    requires Placed(s) && OpEnabled(s, op) && op.OpWait?
    ensures var s' := Perform(s, op);
      && |s'.wait| == |s.wait| && op.q < |s.wait| && op.t in s.tcb && op.t !in s.wait[op.q]
      && s'.tcb.Keys == s.tcb.Keys && (forall u :: u in s.tcb ==> s'.tcb[u].prio == s.tcb[u].prio)
      && PutIn(s'.tcb, s.wait[op.q], s'.wait[op.q], op.t, op.flag)
  {
    ListSuspendDoes(s, op.q, op.t, op.flag);
    var s1 := ListSuspend(s, op.q, op.t, op.flag);
    hide ListSuspend, PutIn;
    if op.timed { SamePut(s1.tcb, Perform(s, op).tcb, s.wait[op.q], s1.wait[op.q], op.t, op.flag); }
  }

  // ---- Over every run ------------------------------------------------------------------------

  lemma {:induction false} RunInTurn(s: Sys, done: seq<Op>, ops: seq<Op>, q: nat, flag: Flag)
    requires Placed(s) && OpsEnabled(s, ops) && q < |s.wait| && InTurn(s.tcb, s.wait[q], done, q, flag)
    requires forall op :: op in ops ==> OfKind(op, q, flag)
    ensures var s' := RunOps(s, ops); |s'.wait| == |s.wait| && InTurn(s'.tcb, s'.wait[q], done + ops, q, flag)
    decreases |ops|
  {
    hide Placed, InTurn, Perform, OfKind;
    if ops == [] {
      assert done + ops == done;
    } else {
      assert ops[0] in ops && forall op :: op in ops[1..] ==> op in ops;
      PerformPlaced(s, ops[0]);
      StepInTurn(s, done, ops[0], q, flag);
      RunInTurn(Perform(s, ops[0]), done + [ops[0]], ops[1..], q, flag);
      assert done + [ops[0]] + ops[1..] == done + ops;
    }
  }

  /** Over every run that begins with an empty wait list q and uses it in one way: a FIFO list holds its
      waiters in the order they came, a PRIO list in the order of their priorities and then as they came,
      as long as no priority changes; so rt_ipc_list_resume serves them first come, first served. */
  lemma FirstComeFirstServed(s: Sys, ops: seq<Op>, q: nat, flag: Flag)
    requires Placed(s) && OpsEnabled(s, ops) && q < |s.wait| && s.wait[q] == []
    requires forall op :: op in ops ==> OfKind(op, q, flag)
    ensures var s' := RunOps(s, ops);
      && |s'.wait| == |s.wait|
      && forall i, j :: 0 <= i < j < |s'.wait[q]| ==> Sooner(s'.tcb, ops, q, flag, s'.wait[q][i], s'.wait[q][j])
  {
    NobodyInTurn(s.tcb, [], q, flag);
    assert [] + ops == ops;
    hide Placed, RunOps, OpsEnabled, Sooner, OfKind;
    RunInTurn(s, [], ops, q, flag);
  }
}
