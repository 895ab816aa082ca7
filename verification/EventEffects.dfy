/** What the sections of an event do, bit by bit, and what becomes of bits that were sent
    (software/src/ipc.c:940-1162). */
module EventEffects {
  import opened Base
  import opened Threads
  import opened Waiters
  import opened WaiterEffects
  import opened EventSpec
  import opened EventLemmas

  // ---- Bits ----------------------------------------------------------------------------------

  /** b has exactly one bit set. */
  predicate Single(b: bv32) {
    b != 0 && b & (b - 1) == 0
  }

  predicate Bit(bits: bv32, b: bv32) {
    Common(bits, b) != 0
  }

  lemma AddedCommon(x: bv32, y: bv32, b: bv32)
    ensures Common(Added(x, y), b) == Added(Common(x, b), Common(y, b))
  {}

  lemma AddedZero(x: bv32, y: bv32)
    ensures Added(x, y) == 0 <==> x == 0 && y == 0
  {}

  lemma OneOrNone(x: bv32, b: bv32)
    requires Single(b)
    ensures Common(x, b) == 0 || Common(x, b) == b
  {}

  lemma CommonCommon(x: bv32, y: bv32, b: bv32)
    ensures Common(Common(x, y), b) == Common(Common(x, b), Common(y, b))
  {}

  lemma ClearedCommon(x: bv32, y: bv32, b: bv32)
    ensures Common(Cleared(x, y), b) == Cleared(Common(x, b), Common(y, b))
  {}

  lemma WithZero(b: bv32)
    ensures Common(b, b) == b && Common(0, b) == 0 && Common(b, 0) == 0
    ensures Cleared(b, 0) == b && Cleared(b, b) == 0 && Cleared(0, b) == 0
    ensures Cleared(0, 0) == 0 && Common(0, 0) == 0
  {}

  lemma OrBit(x: bv32, y: bv32, b: bv32)
    ensures Bit(Added(x, y), b) <==> Bit(x, b) || Bit(y, b)
  {
    AddedCommon(x, y, b);
    AddedZero(Common(x, b), Common(y, b));
    hide Added, Common;
  }

  lemma AndBit(x: bv32, y: bv32, b: bv32)
    requires Single(b)
    ensures Bit(Common(x, y), b) <==> Bit(x, b) && Bit(y, b)
  {
    OneOrNone(x, b);
    OneOrNone(y, b);
    CommonCommon(x, y, b);
    WithZero(b);
    hide Common, Cleared;
  }

  lemma ClearedBit(x: bv32, y: bv32, b: bv32)
    requires Single(b)
    ensures Bit(Cleared(x, y), b) <==> Bit(x, b) && !Bit(y, b)
  {
    OneOrNone(x, b);
    OneOrNone(y, b);
    ClearedCommon(x, y, b);
    WithZero(b);
    hide Common, Cleared;
  }

  lemma SomeBit(x: bv32) returns (b: bv32)
    requires x != 0
    ensures Single(b) && Bit(x, b)
  {
    b := x & (0 - x);
  }

  lemma NoBit(b: bv32)
    ensures !Bit(0, b)
  {}

  lemma Within(want: bv32, bits: bv32)
    ensures Cleared(want, bits) == 0 ==> AllIn(want, bits)
  {}

  lemma InBit(want: bv32, bits: bv32, b: bv32)
    requires AllIn(want, bits) && Bit(want, b)
    ensures Bit(bits, b)
  {}

  /** All the bits asked for are set. */
  ghost predicate AllSet(want: bv32, bits: bv32) {
    forall b :: Single(b) && Bit(want, b) ==> Bit(bits, b)
  }

  ghost predicate SomeSet(want: bv32, bits: bv32) {
    exists b :: Single(b) && Bit(want, b) && Bit(bits, b)
  }

  lemma AllInIs(want: bv32, bits: bv32)
    ensures AllIn(want, bits) <==> AllSet(want, bits)
  {
    if AllIn(want, bits) {
      forall b | Single(b) && Bit(want, b) ensures Bit(bits, b) { InBit(want, bits, b); }
    } else if AllSet(want, bits) {
      Within(want, bits);
      hide AllIn, Single, Bit, Cleared;
      var b := SomeBit(Cleared(want, bits));
      ClearedBit(want, bits, b);
    }
  }

  lemma CommonIs(want: bv32, bits: bv32)
    ensures Common(want, bits) != 0 <==> SomeSet(want, bits)
  {
    hide Common, Single, Bit;
    if Common(want, bits) != 0 {
      var b := SomeBit(Common(want, bits));
      AndBit(want, bits, b);
    } else if SomeSet(want, bits) {
      var b :| Single(b) && Bit(want, b) && Bit(bits, b);
      AndBit(want, bits, b);
      NoBit(b);
    }
  }

  // ---- The condition of a receiver -----------------------------------------------------------

  /** Options 1, 2 and 4: all bits, any bit, clear what was received. */
  predicate Wants(w: Want, option: bv8) {
    w.option & option != 0
  }

  lemma HasIs(w: Want)
    ensures Has(w.option, FLAG_AND) <==> Wants(w, 1)
    ensures Has(w.option, FLAG_OR) <==> Wants(w, 2)
    ensures Has(w.option, FLAG_CLEAR) <==> Wants(w, 4)
  {}

  /** A receiver for all bits is satisfied when all of them are set, one for any bit when one is; the
      first option goes before the second. */
  ghost predicate Satisfied(w: Want, bits: bv32) {
    if Wants(w, 1) then AllSet(w.bits, bits) else Wants(w, 2) && SomeSet(w.bits, bits)
  }

  lemma MetIs(w: Want, bits: bv32)
    ensures Met(w, bits) <==> Satisfied(w, bits)
  {
    HasIs(w);
    AllInIs(w.bits, bits);
    CommonIs(w.bits, bits);
    hide Has, AllIn, Common, AllSet, SomeSet, Wants;
  }

  /** What is left of `bits` for the next one when w is served. */
  ghost predicate Leaves(w: Want, bits: bv32, bits': bv32) {
    forall b :: Single(b) ==> (Bit(bits', b) <==> Bit(bits, b) && !(Wants(w, 4) && Bit(w.bits, b)))
  }

  /** What w gets out of `bits`. */
  ghost predicate Gets(w: Want, bits: bv32, got: bv32) {
    forall b :: Single(b) ==> (Bit(got, b) <==> Bit(bits, b) && Bit(w.bits, b))
  }

  lemma NowIs(w: Want, bits: bv32)
    ensures Leaves(w, bits, LeftNow(w, bits)) && Gets(w, bits, GotNow(w, bits))
  {
    HasIs(w);
    hide Has, Bit, Wants, Cleared, Common, Single;
    forall b | Single(b)
      ensures Bit(LeftNow(w, bits), b) <==> Bit(bits, b) && !(Wants(w, 4) && Bit(w.bits, b))
      ensures Bit(GotNow(w, bits), b) <==> Bit(bits, b) && Bit(w.bits, b)
    {
      ClearedBit(bits, w.bits, b);
      AndBit(bits, w.bits, b);
    }
  }

  // ---- What one section does -----------------------------------------------------------------

  /** One waiter of a scan: if it is satisfied at its turn it becomes READY without an error and holds
      what an immediate receive would have got, and an immediate receive's bits are gone; otherwise
      nothing happens. */
  ghost predicate Visited(e: Event, e': Event, t: Tid) {
    t in e.want && if !Satisfied(e.want[t], e.bits) then e' == e else
      && t in e.core.sys.tcb && BackReady(e.core, e'.core, t, e.core.sys.tcb[t].error)
      && Leaves(e.want[t], e.bits, e'.bits)
      && t in e'.want && t in e'.owed && e'.owed[t] == e'.want[t].bits && Gets(e.want[t], e.bits, e'.owed[t])
      && e' == e.(core := e'.core, bits := e'.bits, want := e.want[t := e.want[t].(bits := e'.want[t].bits)],
                  owed := e.owed[t := e'.owed[t]])
  }

  lemma VisitDoes(e: Event, t: Tid)
    requires Sound(e) && t in e.core.sys.wait[WAITERS] && Knows(e, t) && t in e.want
    ensures Visited(e, Visit(e, t), t)
  {
    hide CoreInv, Resume, Met, Satisfied, Leaves, Gets, GotNow, GotLater, LeftNow, LeftLater, BackReady;
    MetIs(e.want[t], e.bits);
    if Met(e.want[t], e.bits) {
      NowIs(e.want[t], e.bits);
      LaterIsNow(e.want[t], e.bits);
      WaitsSuspended(e.core, t);
      RouseDoes(e.core, t);
    }
  }

  lemma WaitsSuspended(c: Core, t: Tid)
    requires CoreInv(c) && |c.sys.wait| == 1 && t in c.sys.wait[WAITERS]
    ensures t in c.sys.tcb && c.sys.tcb[t].stat == Suspended
  {}

  /** States of a scan of the waiters of l, one after the other. */
  ghost predicate Scans(es: seq<Event>, l: seq<Tid>) {
    |es| == |l| + 1 && forall i :: 0 <= i < |l| ==> Visited(es[i], es[i + 1], l[i])
  }

  lemma {:induction false} ScanDoes(e: Event, l: seq<Tid>) returns (es: seq<Event>)
    requires Scanning(e, l)
    ensures Waiting(e, l) && Scans(es, l) && es[0] == e && es[|l|] == Scan(e, l)
    decreases |l|
  {
    hide Visit, Visited, Sound, Paid, NobodyMet, NoDup;
    ScanningShape(e, l);
    if l == [] {
      es := [e];
    } else {
      VisitKeeps(e, l);
      ScanningShape(Visit(e, l[0]), l[1..]);
      assert l[0] in l;
      VisitDoes(e, l[0]);
      hide Scanning;
      var rest := ScanDoes(Visit(e, l[0]), l[1..]);
      es := [e] + rest;
      forall i | 0 <= i < |l| ensures Visited(es[i], es[i + 1], l[i]) {
        if i > 0 { assert Visited(rest[i - 1], rest[i], l[1..][i - 1]); }
      }
    }
  }

  /** rt_event_send: an empty set is an error. Otherwise the bits of the argument join those that are set,
      and the waiters are visited in the order they stand, each of them once. */
  lemma SendOutcome(e: Event, mask: bv32) returns (es: seq<Event>)
    requires Inv(e) && Enabled(e, DoSend(mask))
    ensures mask == 0 ==> Next(e, DoSend(mask)) == e && Send(e, mask).1 == Returned(ERROR, 0)
    ensures mask != 0 ==>
      var l := e.core.sys.wait[WAITERS];
      && Send(e, mask).1 == Returned(EOK, 0)
      && Scans(es, l) && es[0] == e.(bits := es[0].bits) && es[|l|] == Next(e, DoSend(mask))
      && forall b :: Single(b) ==> (Bit(es[0].bits, b) <==> Bit(e.bits, b) || Bit(mask, b))
  {
    es := [];
    if mask != 0 {
      forall b ensures Bit(Added(e.bits, mask), b) <==> Bit(e.bits, b) || Bit(mask, b) { OrBit(e.bits, mask, b); }
      SendScans(e, Added(e.bits, mask));
      hide Scanning, Scan, Inv, Added, Waiting, Bit, Visited;
      es := ScanDoes(e.(bits := Added(e.bits, mask)), e.core.sys.wait[WAITERS]);
    }
  }

  /** The first section of a receive: satisfied, it returns the bits it asked for that are set and clears
      them if it wants that; not satisfied, it gives up at once if it may not wait and sleeps otherwise;
      nobody else and no other bit is touched. */
  lemma RecvOutcome(e: Event, t: Tid, mask: bv32, option: bv8, timeout: int)
    requires Inv(e) && Enabled(e, DoRecv(t, mask, option, timeout))
    ensures var w, (e', o), c := Want(mask, option), Recv(e, t, mask, option, timeout), e.core.sys.tcb[t];
      && e' == Next(e, DoRecv(t, mask, option, timeout))
      && (mask == 0 ==> o == Returned(ERROR, 0) && e' == e)
      && (mask != 0 && Satisfied(w, e.bits) ==>
            && o.Returned? && o.err == EOK && Gets(w, e.bits, o.bits) && Leaves(w, e.bits, e'.bits)
            && Flagged(e.core, e'.core, t, EOK) && e' == e.(bits := e'.bits, core := e'.core))
      && (mask != 0 && !Satisfied(w, e.bits) && timeout == 0 ==>
            o == Returned(ETIMEOUT, 0) && Flagged(e.core, e'.core, t, ETIMEOUT) && e' == e.(core := e'.core))
      && (mask != 0 && !Satisfied(w, e.bits) && timeout != 0 ==>
            && o == Blocked && Slept(e.core, e'.core, WAITERS, t, e.flag, timeout > 0)
            && e' == e.(core := e'.core, want := e.want[t := w], stray := e.stray - {t}))
  {
    var w := Want(mask, option);
    MetIs(w, e.bits);
    NowIs(w, e.bits);
    hide Met, Satisfied, Leaves, Gets, GotNow, LeftNow, CoreInv, Paid, NobodyMet, Enter, Slept, Waiting;
    if mask != 0 && !Met(w, e.bits) && timeout != 0 { EnterDoes(e.core, WAITERS, t, e.flag, timeout > 0); }
  }

  /** A receive that goes on after rt_schedule returns its error code, or the bits it holds. */
  lemma ContinueOutcome(e: Event, t: Tid)
    requires Inv(e) && Enabled(e, DoContinue(t))
    ensures var err := e.core.sys.tcb[t].error;
      && Continue(e, t).1 == Returned(err, if err == EOK then e.want[t].bits else 0)
      && var e' := Next(e, DoContinue(t)); Left(e.core, e'.core, t) && e' == e.(core := e'.core)
  {
    hide CoreInv, Paid, NobodyMet, Waiting;
  }

  /** A reset clears all bits and sends all waiters away with -RT_ERROR. */
  lemma ResetOutcome(e: Event)
    requires Inv(e) && Enabled(e, DoReset)
    ensures var e' := Next(e, DoReset);
      e' == e.(core := e'.core, bits := 0) && AllKicked(e.core, e'.core, WAITERS)
  {
    KickDoes(e.core, WAITERS);
    hide CoreInv, Paid, NobodyMet, KickAll, AllKicked, InRange;
  }

  lemma EndOfWait(e: Event, t: Tid)
    requires Inv(e)
    ensures Enabled(e, DoExpire(t)) ==> var e' := Next(e, DoExpire(t));
      e' == e.(core := e'.core) && BackReady(e.core, e'.core, t, ETIMEOUT)
    ensures Enabled(e, DoRouse(t)) ==> var e' := Next(e, DoRouse(t));
      e' == e.(core := e'.core, stray := e.stray + {t}) && BackReady(e.core, e'.core, t, e.core.sys.tcb[t].error)
  {
    hide CoreInv, Paid, NobodyMet, Expire, Rouse, BackReady, Waiting;
    if Enabled(e, DoExpire(t)) { ExpireDoes(e.core, t); }
    if Enabled(e, DoRouse(t)) { RouseDoes(e.core, t); }
  }

  lemma AsideOutcome(e: Event, o: Other)
    requires Inv(e) && Enabled(e, DoAside(o))
    ensures var e' := Next(e, DoAside(o)); e' == e.(core := e'.core) && Meanwhile(e.core, e'.core, o)
  {
    hide CoreInv, Paid, NobodyMet, Aside, OtherEnabled, Meanwhile;
    AsideDoes(e.core, o);
  }

  // ---- What becomes of a bit that was sent ---------------------------------------------------

  /** Step s takes bit b away: a reset, a receive that clears it at once, or a send that resumes a
      waiter that clears it. */
  ghost predicate Clears(e: Event, s: Step, b: bv32)
    requires Enabled(e, s)
  {
    match s
    case DoReset => true
    case DoRecv(_, mask, option, _) =>
      var w := Want(mask, option); Satisfied(w, e.bits) && Wants(w, 4) && Bit(mask, b)
    case DoSend(_) =>
      exists t :: t in e.core.sys.wait[WAITERS] && t in e.want && Wants(e.want[t], 4) && Bit(e.want[t].bits, b)
                  && |Next(e, s).core.sys.wait| == 1 && t !in Next(e, s).core.sys.wait[WAITERS]
    case _ => false
  }

  lemma {:induction false} ScanShrinks(e: Event, l: seq<Tid>, t: Tid)
    requires Scanning(e, l) && t !in e.core.sys.wait[WAITERS]
    ensures Waiting(e, l) && |Scan(e, l).core.sys.wait| == 1 && t !in Scan(e, l).core.sys.wait[WAITERS]
    decreases |l|
  {
    hide Visit, Sound, Paid, NobodyMet, NoDup, Satisfied, Leaves, Gets;
    ScanningShape(e, l);
    if l != [] {
      VisitKeeps(e, l);
      ScanningShape(Visit(e, l[0]), l[1..]);
      assert l[0] in l;
      VisitDoes(e, l[0]);
      hide Scanning;
      ScanShrinks(Visit(e, l[0]), l[1..], t);
    }
  }

  /** A bit that no resumed waiter clears is still there after the scan. */
  lemma {:induction false} ScanKeepsBit(e: Event, l: seq<Tid>, b: bv32)
    requires Scanning(e, l) && Single(b) && Bit(e.bits, b)
    ensures Waiting(e, l) && |Scan(e, l).core.sys.wait| == 1
    ensures Bit(Scan(e, l).bits, b)
         || exists t :: t in l && t in e.want && Wants(e.want[t], 4) && Bit(e.want[t].bits, b)
                        && t !in Scan(e, l).core.sys.wait[WAITERS]
    decreases |l|
  {
    hide Visit, Sound, Paid, NobodyMet, NoDup, Satisfied, Gets, Single, Bit, Wants;
    ScanningShape(e, l);
    if l != [] {
      var t := l[0];
      VisitKeeps(e, l);
      ScanningShape(Visit(e, t), l[1..]);
      assert t in l;
      VisitDoes(e, t);
      var e1 := Visit(e, t);
      NotAgain(e, l);
      hide Scanning;
      if Bit(e1.bits, b) {
        ScanKeepsBit(e1, l[1..], b);
        if !Bit(Scan(e, l).bits, b) {
          var u :| u in l[1..] && u in e1.want && Wants(e1.want[u], 4) && Bit(e1.want[u].bits, b)
                   && u !in Scan(e1, l[1..]).core.sys.wait[WAITERS];
          assert u in l && e1.want[u] == e.want[u];
        }
      } else {
        ServedOut(e, e1, t);
        ScanShrinks(e1, l[1..], t);
      }
    }
  }

  lemma NotAgain(e: Event, l: seq<Tid>)
    requires Scanning(e, l) && l != []
    ensures l[0] !in l[1..] && l[0] in e.core.sys.wait[WAITERS]
  {
    NoDupTail(l);
    assert l[0] in l;
    hide NoDup;
  }

  lemma ServedOut(e: Event, e1: Event, t: Tid)
    requires Visited(e, e1, t) && e1 != e && |e.core.sys.wait| == 1 && Sound(e)
    ensures |e1.core.sys.wait| == 1 && t !in e1.core.sys.wait[WAITERS]
  {
    WaitDistinct(e.core);
    hide CoreInv, NoDup, Satisfied, Leaves, Gets;
  }

  lemma RecvBit(e: Event, s: Step, b: bv32)
    requires Inv(e) && s.DoRecv? && Enabled(e, s) && !Clears(e, s, b) && Single(b) && Bit(e.bits, b)
    ensures Bit(Next(e, s).bits, b)
  {
    RecvOutcome(e, s.t, s.mask, s.option, s.timeout);
    hide Inv, Satisfied, Wants, Bit, Single, Gets, Waiting, Slept;
  }

  lemma SendBit(e: Event, mask: bv32, b: bv32)
    requires Inv(e) && Enabled(e, DoSend(mask)) && !Clears(e, DoSend(mask), b) && Single(b)
    requires Bit(e.bits, b) || Bit(mask, b)
    ensures Bit(Next(e, DoSend(mask)).bits, b)
  {
    hide Inv, Scanning, Scan, Wants, Bit, Single, Waiting;
    if mask != 0 {
      OrBit(e.bits, mask, b);
      var e1 := e.(bits := Added(e.bits, mask));
      SendScans(e, Added(e.bits, mask));
      hide Added;
      ScanKeepsBit(e1, e.core.sys.wait[WAITERS], b);
    } else {
      NoBit(b);
    }
  }

  lemma StepKeepsBit(e: Event, s: Step, b: bv32)
    requires Inv(e) && Enabled(e, s) && !Clears(e, s, b) && Single(b) && Bit(e.bits, b)
    ensures Bit(Next(e, s).bits, b)
  {
    if s.DoRecv? {
      RecvBit(e, s, b);
    } else if s.DoSend? {
      SendBit(e, s.mask, b);
    }
    hide Inv, Bit, Single, Waiting, Expire, Aside, Rouse, KickAll, Scan, Recv;
  }

  /** No step of the run takes bit b away. */
  ghost predicate Kept(e: Event, ss: seq<Step>, b: bv32)
    requires EnabledRun(e, ss)
    decreases |ss|
  {
    ss == [] || (!Clears(e, ss[0], b) && Kept(Next(e, ss[0]), ss[1..], b))
  }

  /** Some send of the run brings bit b, and neither it nor a later step takes the bit away. */
  ghost predicate SentAndKept(e: Event, ss: seq<Step>, b: bv32)
    requires EnabledRun(e, ss)
    decreases |ss|
  {
    ss != [] && ((ss[0].DoSend? && Bit(ss[0].mask, b) && Kept(e, ss, b)) || SentAndKept(Next(e, ss[0]), ss[1..], b))
  }

  lemma {:induction false} KeptStays(e: Event, ss: seq<Step>, b: bv32)
    requires Inv(e) && EnabledRun(e, ss) && Single(b) && Bit(e.bits, b) && Kept(e, ss, b)
    ensures Bit(Run(e, ss).bits, b)
    decreases |ss|
  {
    hide Inv, Next, Enabled, Clears, Single, Bit;
    if ss != [] {
      NextKeeps(e, ss[0]);
      StepKeepsBit(e, ss[0], b);
      KeptStays(Next(e, ss[0]), ss[1..], b);
    }
  }

  lemma {:induction false} SentStays(e: Event, ss: seq<Step>, b: bv32)
    requires Inv(e) && EnabledRun(e, ss) && Single(b) && SentAndKept(e, ss, b)
    ensures Bit(Run(e, ss).bits, b)
    decreases |ss|
  {
    hide Inv, Next, Enabled, Clears, Single, Bit;
    NextKeeps(e, ss[0]);
    if ss[0].DoSend? && Bit(ss[0].mask, b) && Kept(e, ss, b) {
      SendBit(e, ss[0].mask, b);
      KeptStays(Next(e, ss[0]), ss[1..], b);
    } else {
      SentStays(Next(e, ss[0]), ss[1..], b);
    }
  }

  /** Over every run: a bit that was sent and not taken away since is set. So a thread does not wait when
      all the bits it waits for, or for a receive of any bit one of them, were sent, in however many sends,
      and not taken away since. */
  lemma SeveralSends(sys: Sys, flag: Flag, ss: seq<Step>, t: Tid)
    requires Placed(sys) && EnabledRun(Create(sys, flag), ss)
    ensures var e := Run(Create(sys, flag), ss);
      forall b :: Single(b) && SentAndKept(Create(sys, flag), ss, b) ==> Bit(e.bits, b)
    ensures var e := Run(Create(sys, flag), ss);
      && |e.core.sys.wait| == 1
      && (t in e.want && Wants(e.want[t], 1)
          && (forall b :: Single(b) && Bit(e.want[t].bits, b) ==> SentAndKept(Create(sys, flag), ss, b))
          ==> t !in e.core.sys.wait[WAITERS])
      && (t in e.want && !Wants(e.want[t], 1) && Wants(e.want[t], 2)
          && (exists b :: Single(b) && Bit(e.want[t].bits, b) && SentAndKept(Create(sys, flag), ss, b))
          ==> t !in e.core.sys.wait[WAITERS])
  {
    var e := Run(Create(sys, flag), ss);
    CreateInv(sys, flag);
    hide Inv, Create, Run, EnabledRun, SentAndKept, Single, Bit, Wants;
    forall b | Single(b) && SentAndKept(Create(sys, flag), ss, b) ensures Bit(e.bits, b) {
      SentStays(Create(sys, flag), ss, b);
    }
    NoMissedWakeup(sys, flag, ss);
    if t in e.want { MetIs(e.want[t], e.bits); }
    hide Met;
  }

  /** A new event has no bits and nobody waits. */
  lemma CreateOutcome(sys: Sys, flag: Flag)
    ensures var e := Create(sys, flag);
      e.bits == 0 && e.flag == flag && e.core.blocked == map[] && e.core.sys == sys.(wait := [[]])
  {}
}
