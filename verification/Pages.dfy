/** The page allocator of the slab heap (software/src/slab.c:233-329) on values: a list of runs of
    free pages. Pages are numbered from the start of the heap. */
module PageSpec {
  import opened Base

  datatype Run = Run(start: nat, len: nat)

  function End(r: Run): nat {
    r.start + r.len
  }

  /** rt_page_alloc: the first run that is long enough gives its first n pages. */
  function Alloc(runs: seq<Run>, n: nat): (seq<Run>, Option<nat>)
  {
    if n == 0 || runs == [] then (runs, None)
    else if runs[0].len > n then ([Run(runs[0].start + n, runs[0].len - n)] + runs[1..], Some(runs[0].start))
    else if runs[0].len == n then (runs[1..], Some(runs[0].start))
    else
      var rest := Alloc(runs[1..], n);
      ([runs[0]] + rest.0, rest.1)
  }

  /** rt_page_free */
  function Free(runs: seq<Run>, s: nat, n: nat): seq<Run> {
    if runs == [] then [Run(s, n)]
    else if End(runs[0]) == s then
      if |runs| > 1 && s + n == runs[1].start then
        [Run(runs[0].start, runs[0].len + n + runs[1].len)] + runs[2..]
      else
        [Run(runs[0].start, runs[0].len + n)] + runs[1..]
    else if runs[0].start == s + n then [Run(s, runs[0].len + n)] + runs[1..]
    else if runs[0].start > s + n then [Run(s, n)] + runs
    else [runs[0]] + Free(runs[1..], s, n)
  }

  /** Page p is free. */
  predicate In(runs: seq<Run>, p: nat) {
    runs != [] && (runs[0].start <= p < End(runs[0]) || In(runs[1..], p))
  }

  /** Strictly sorted from lo on, no empty run, no two runs that touch. */
  predicate Canon(lo: nat, runs: seq<Run>)
    decreases |runs|
  {
    runs == [] || (lo <= runs[0].start && runs[0].len > 0 && Canon(End(runs[0]) + 1, runs[1..]))
  }

  datatype Op = Take(n: nat) | Give(s: nat)

  /** `out` maps the first page of each allocation to its length. */
  datatype Pool = Pool(runs: seq<Run>, out: map<nat, nat>)

  predicate Enabled(p: Pool, op: Op) {
    op.Give? ==> op.s in p.out
  }

  function Next(p: Pool, op: Op): Pool
    requires Enabled(p, op)
  {
    match op
    case Take(n) =>
      var r := Alloc(p.runs, n);
      if r.1.None? then p else Pool(r.0, p.out[r.1.value := n])
    case Give(s) => Pool(Free(p.runs, s, p.out[s]), p.out - {s})
  }

  predicate EnabledRun(p: Pool, ops: seq<Op>)
    decreases |ops|
  {
    ops == [] || (Enabled(p, ops[0]) && EnabledRun(Next(p, ops[0]), ops[1..]))
  }

  function RunOps(p: Pool, ops: seq<Op>): Pool
    requires EnabledRun(p, ops)
    decreases |ops|
  {
    if ops == [] then p else RunOps(Next(p, ops[0]), ops[1..])
  }
}

/** The free list is the one canonical list of the free pages. */
module PageLemmas {
  import opened Base
  import opened PageSpec

  lemma {:induction false} CanonLower(lo: nat, lo': nat, runs: seq<Run>)
    requires Canon(lo, runs) && (lo' <= lo || (runs != [] && lo' <= runs[0].start))
    ensures Canon(lo', runs)
  {}

  /** Free pages are not below lo. */
  lemma {:induction false} NotBelow(lo: nat, runs: seq<Run>, p: nat)
    requires Canon(lo, runs) && In(runs, p)
    ensures lo <= p && runs[0].start <= p
    decreases |runs|
  {
    if !(runs[0].start <= p < End(runs[0])) {
      NotBelow(End(runs[0]) + 1, runs[1..], p);
    }
  }

  // ---- Allocation ----------------------------------------------------------------------------

  predicate Fits(r: Run, n: nat) {
    r.len >= n
  }

  /** The pages handed out are the first ones of the first run that is long enough; exactly they
      stop being free, and null means there is no such run. */
  lemma {:induction false} AllocFirstFit(lo: nat, runs: seq<Run>, n: nat)
    requires Canon(lo, runs) && n > 0
    ensures var (runs', r) := Alloc(runs, n);
      && Canon(lo, runs')
      && (r.None? <==> forall i :: 0 <= i < |runs| ==> !Fits(runs[i], n))
      && (r.None? ==> runs' == runs)
      && (r.Some? ==> (exists i :: 0 <= i < |runs| && Fits(runs[i], n) && runs[i].start == r.value
                          && forall j :: 0 <= j < i ==> !Fits(runs[j], n)))
    decreases |runs|
  {
    if runs != [] {
      CanonLower(End(runs[0]) + 1, runs[0].start + 1, runs[1..]);
      if Fits(runs[0], n) {
        assert Canon(lo, Alloc(runs, n).0) by {
          if runs[0].len == n { CanonLower(End(runs[0]) + 1, lo, runs[1..]); }
        }
        assert Alloc(runs, n).1 == Some(runs[0].start);
      } else {
        AllocFirstFit(End(runs[0]) + 1, runs[1..], n);
        FitsShift(runs, n, Alloc(runs[1..], n).1);
      }
    }
  }

  lemma FitsShift(runs: seq<Run>, n: nat, r: Option<nat>)
    requires runs != [] && !Fits(runs[0], n)
    requires r.None? <==> forall i :: 0 <= i < |runs[1..]| ==> !Fits(runs[1..][i], n)
    requires r.Some? ==> (exists i :: 0 <= i < |runs[1..]| && Fits(runs[1..][i], n)
                            && runs[1..][i].start == r.value
                            && forall j :: 0 <= j < i ==> !Fits(runs[1..][j], n))
    ensures r.None? <==> forall i :: 0 <= i < |runs| ==> !Fits(runs[i], n)
    ensures r.Some? ==> (exists i :: 0 <= i < |runs| && Fits(runs[i], n) && runs[i].start == r.value
                            && forall j :: 0 <= j < i ==> !Fits(runs[j], n))
  {
    hide Fits;
    if r.Some? {
      var i :| 0 <= i < |runs[1..]| && Fits(runs[1..][i], n) && runs[1..][i].start == r.value
        && forall j :: 0 <= j < i ==> !Fits(runs[1..][j], n);
      assert runs[i + 1] == runs[1..][i];
      forall j | 0 <= j < i + 1 ensures !Fits(runs[j], n) {
        if j > 0 { assert runs[j] == runs[1..][j - 1]; }
      }
    } else {
      forall i | 0 <= i < |runs| ensures !Fits(runs[i], n) {
        if i > 0 { assert runs[i] == runs[1..][i - 1]; }
      }
    }
  }

  lemma {:induction false} AllocPages(lo: nat, runs: seq<Run>, n: nat, p: nat)
    requires Canon(lo, runs) && n > 0 && Alloc(runs, n).1.Some?
    ensures var (runs', r) := Alloc(runs, n);
      && (r.value <= p < r.value + n ==> In(runs, p) && !In(runs', p))
      && (!(r.value <= p < r.value + n) ==> (In(runs', p) <==> In(runs, p)))
      && lo <= r.value
    decreases |runs|
  {
    var (runs', r) := Alloc(runs, n);
    if Fits(runs[0], n) {
      if In(runs[1..], p) { NotBelow(End(runs[0]) + 1, runs[1..], p); }
    } else {
      AllocPages(End(runs[0]) + 1, runs[1..], n, p);
      assert runs'[1..] == Alloc(runs[1..], n).0 && runs'[0] == runs[0];
    }
  }

  /** Null means that there are no n free pages in a row. */
  lemma {:induction false} NoneMeansNone(lo: nat, runs: seq<Run>, n: nat, s: nat)
    requires Canon(lo, runs) && n > 0 && Alloc(runs, n).1.None?
    requires forall p :: s <= p < s + n ==> In(runs, p)
    ensures false
    decreases |runs|
  {
    assert In(runs, s);
    if runs[0].start <= s < End(runs[0]) {
      assert In(runs, End(runs[0]));
      NotBelow(End(runs[0]) + 1, runs[1..], End(runs[0]));
    } else {
      forall p | s <= p < s + n ensures In(runs[1..], p) {
        assert In(runs, p) && In(runs[1..], s);
        NotBelow(End(runs[0]) + 1, runs[1..], s);
      }
      NoneMeansNone(End(runs[0]) + 1, runs[1..], n, s);
    }
  }

  // ---- Freeing -------------------------------------------------------------------------------

  /** No page of [s, s + n) is free. */
  ghost predicate Apart(runs: seq<Run>, s: nat, n: nat) {
    forall p :: s <= p < s + n ==> !In(runs, p)
  }

  lemma ApartHead(runs: seq<Run>, s: nat, n: nat)
    requires Apart(runs, s, n) && runs != [] && runs[0].len > 0 && n > 0
    ensures End(runs[0]) <= s || s + n <= runs[0].start
    ensures Apart(runs[1..], s, n)
  {
    assert !In(runs, s) && In(runs, runs[0].start);
    forall p: nat | s <= p < s + n ensures !In(runs[1..], p) { assert !In(runs, p); }
  }

  /** Freeing keeps the list sorted and merged on both sides, and frees exactly these pages. */
  lemma {:induction false} FreeCanon(lo: nat, runs: seq<Run>, s: nat, n: nat)
    requires Canon(lo, runs) && Apart(runs, s, n) && n > 0 && lo <= s
    ensures Canon(lo, Free(runs, s, n))
    decreases |runs|
  {
    if runs != [] {
      ApartHead(runs, s, n);
      if End(runs[0]) == s {
        MergeCanon(lo, runs, s, n);
      } else if runs[0].start > s + n {
        CanonLower(lo, s + n + 1, runs);
      } else if runs[0].start != s + n {
        FreeCanon(End(runs[0]) + 1, runs[1..], s, n);
      }
    }
  }

  lemma MergeCanon(lo: nat, runs: seq<Run>, s: nat, n: nat)
    requires Canon(lo, runs) && Apart(runs, s, n) && n > 0 && runs != [] && End(runs[0]) == s
    ensures Canon(lo, Free(runs, s, n))
  {
    ApartHead(runs, s, n);
    if |runs| > 1 {
      assert runs[1..][0] == runs[1] && runs[1..][1..] == runs[2..];
      ApartHead(runs[1..], s, n);
      if s + n != runs[1].start { CanonLower(s + 1, s + n + 1, runs[1..]); }
    }
  }

  lemma {:induction false} FreePages(runs: seq<Run>, s: nat, n: nat, p: nat)
    ensures In(Free(runs, s, n), p) <==> In(runs, p) || s <= p < s + n
    decreases |runs|
  {
    if runs == [] {
    } else if End(runs[0]) == s {
      if |runs| > 1 && s + n == runs[1].start {
        assert runs[1..][0] == runs[1] && runs[1..][1..] == runs[2..];
      }
    } else if runs[0].start == s + n || runs[0].start > s + n {
    } else {
      FreePages(runs[1..], s, n, p);
      assert Free(runs, s, n)[1..] == Free(runs[1..], s, n);
    }
  }

  // ---- Uniqueness ----------------------------------------------------------------------------

  /** Two canonical lists of the same pages are the same list. */
  lemma {:induction false} CanonUnique(lo: nat, a: seq<Run>, b: seq<Run>)
    requires Canon(lo, a) && Canon(lo, b) && forall p :: In(a, p) <==> In(b, p)
    ensures a == b
    decreases |a|
  {
    if a == [] || b == [] {
      if a != [] { assert In(a, a[0].start); }
      if b != [] { assert In(b, b[0].start); }
    } else {
      SameHead(lo, a, b);
      forall p ensures In(a[1..], p) <==> In(b[1..], p) {
        assert In(a, p) <==> In(b, p);
        if In(a[1..], p) { NotBelow(End(a[0]) + 1, a[1..], p); }
        if In(b[1..], p) { NotBelow(End(b[0]) + 1, b[1..], p); }
      }
      CanonUnique(End(a[0]) + 1, a[1..], b[1..]);
    }
  }

  lemma SameHead(lo: nat, a: seq<Run>, b: seq<Run>)
    requires Canon(lo, a) && Canon(lo, b) && a != [] && b != [] && forall p :: In(a, p) <==> In(b, p)
    ensures a[0] == b[0]
  {
    assert In(a, a[0].start) && In(b, b[0].start);
    NotBelow(lo, b, a[0].start);
    NotBelow(lo, a, b[0].start);
    if End(a[0]) < End(b[0]) {
      assert In(b, End(a[0])) && !In(a[1..], End(a[0])) by {
        if In(a[1..], End(a[0])) { NotBelow(End(a[0]) + 1, a[1..], End(a[0])); }
      }
    }
    if End(b[0]) < End(a[0]) {
      assert In(a, End(b[0])) && !In(b[1..], End(b[0])) by {
        if In(b[1..], End(b[0])) { NotBelow(End(b[0]) + 1, b[1..], End(b[0])); }
      }
    }
  }

  // ---- Runs of allocations and releases ------------------------------------------------------

  predicate Holds(out: map<nat, nat>, s: nat, p: nat) {
    s in out && s <= p < s + out[s]
  }

  /** Every page of the heap is free or in exactly one allocation. */
  ghost predicate PoolInv(total: nat, p: Pool) {
    && Canon(0, p.runs)
    && (forall s :: s in p.out ==> p.out[s] > 0)
    && (forall x: nat :: In(p.runs, x) ==> x < total && forall s: nat :: !Holds(p.out, s, x))
    && (forall x: nat :: x < total && !In(p.runs, x) ==> exists s: nat :: Holds(p.out, s, x))
    && (forall s: nat, x: nat :: Holds(p.out, s, x) ==> x < total)
    && (forall s: nat, t: nat, x: nat :: Holds(p.out, s, x) && Holds(p.out, t, x) ==> s == t)
  }

  lemma {:induction false} RunStart(lo: nat, runs: seq<Run>, i: nat)
    requires Canon(lo, runs) && i < |runs|
    ensures In(runs, runs[i].start)
    decreases i
  {
    if i > 0 { RunStart(End(runs[0]) + 1, runs[1..], i - 1); }
  }

  lemma TakeKeeps(total: nat, p: Pool, n: nat)
    requires PoolInv(total, p)
    ensures PoolInv(total, Next(p, Take(n)))
  {
    var (runs', r) := Alloc(p.runs, n);
    if r.Some? {
      var s, p' := r.value, Next(p, Take(n));
      AllocFirstFit(0, p.runs, n);
      forall x: nat
        ensures s <= x < s + n ==> In(p.runs, x) && !In(runs', x)
        ensures !(s <= x < s + n) ==> (In(runs', x) <==> In(p.runs, x))
      {
        AllocPages(0, p.runs, n, x);
      }
      hide Alloc, In, Canon, Fits;
      TakeOut(total, p, p', s, n);
    }
  }

  lemma TakeOut(total: nat, p: Pool, p': Pool, s: nat, n: nat)
    requires PoolInv(total, p) && n > 0 && p'.out == p.out[s := n] && Canon(0, p'.runs)
    requires forall x: nat :: s <= x < s + n ==> In(p.runs, x) && !In(p'.runs, x)
    requires forall x: nat :: !(s <= x < s + n) ==> (In(p'.runs, x) <==> In(p.runs, x))
    ensures PoolInv(total, p')
  {
    assert In(p.runs, s) && !Holds(p.out, s, s);
    forall t: nat, x: nat ensures Holds(p'.out, t, x) <==> (if t == s then s <= x < s + n else Holds(p.out, t, x)) {}
    hide Holds, In, Canon;
    forall x: nat | s <= x < s + n
      ensures In(p.runs, x) && x < total && !In(p'.runs, x) && forall t: nat :: !Holds(p.out, t, x) {}
    forall x: nat | In(p'.runs, x) ensures x < total && forall t: nat :: !Holds(p'.out, t, x) {
      assert In(p.runs, x) && !(s <= x < s + n);
    }
    forall x: nat, t: nat | Holds(p'.out, t, x) ensures x < total {
      if s <= x < s + n { assert In(p.runs, x); } else { assert Holds(p.out, t, x); }
    }
    forall t: nat, u: nat, x: nat | Holds(p'.out, t, x) && Holds(p'.out, u, x) ensures t == u {
      if s <= x < s + n { assert In(p.runs, x); }
    }
    forall x: nat | x < total && !In(p'.runs, x) ensures exists t: nat :: Holds(p'.out, t, x) {
      if s <= x < s + n {
        assert Holds(p'.out, s, x);
      } else {
        var t: nat :| Holds(p.out, t, x);
        assert t != s by { if t == s { HoldsKey(p.out, t, x); } }
        assert Holds(p'.out, t, x);
      }
    }
  }

  lemma HoldsKey(out: map<nat, nat>, s: nat, x: nat)
    requires Holds(out, s, x)
    ensures s in out && s <= x < s + out[s]
  {}

  lemma GiveKeeps(total: nat, p: Pool, s: nat)
    requires PoolInv(total, p) && s in p.out
    ensures PoolInv(total, Next(p, Give(s))) && Apart(p.runs, s, p.out[s])
  {
    var n, p' := p.out[s], Next(p, Give(s));
    forall x | s <= x < s + n ensures !In(p.runs, x) { assert Holds(p.out, s, x); }
    FreeCanon(0, p.runs, s, n);
    forall x: nat ensures In(p'.runs, x) <==> In(p.runs, x) || s <= x < s + n { FreePages(p.runs, s, n, x); }
    hide Free, In, Canon;
    GiveBack(total, p, p', s);
  }

  lemma GiveBack(total: nat, p: Pool, p': Pool, s: nat)
    requires PoolInv(total, p) && s in p.out && p'.out == p.out - {s} && Canon(0, p'.runs)
    requires forall x: nat :: In(p'.runs, x) <==> In(p.runs, x) || s <= x < s + p.out[s]
    ensures PoolInv(total, p')
  {
    forall t: nat, x: nat ensures Holds(p'.out, t, x) <==> t != s && Holds(p.out, t, x) {}
    forall x: nat ensures Holds(p.out, s, x) <==> s <= x < s + p.out[s] {}
    hide Holds, In, Canon;
    forall x: nat | In(p'.runs, x) ensures x < total && forall t: nat :: !Holds(p'.out, t, x) {
      assert Holds(p.out, s, x) || In(p.runs, x);
    }
    forall x: nat | x < total && !In(p'.runs, x) ensures exists t: nat :: Holds(p'.out, t, x) {
      var t: nat :| Holds(p.out, t, x);
      assert Holds(p'.out, t, x);
    }
  }

  lemma {:induction false} PoolRun(total: nat, p: Pool, ops: seq<Op>)
    requires PoolInv(total, p) && EnabledRun(p, ops)
    ensures PoolInv(total, RunOps(p, ops))
    decreases |ops|
  {
    hide PoolInv, Next;
    if ops != [] {
      match ops[0]
      case Take(n) => TakeKeeps(total, p, n);
                      PoolRun(total, Next(p, ops[0]), ops[1..]);
      case Give(s) => GiveKeeps(total, p, s);
                      PoolRun(total, Next(p, ops[0]), ops[1..]);
    }
  }

  /** After any allocations and releases that leave nothing allocated, the free list is the single
      run it was at the start. */
  lemma AllFreedIsInitial(total: nat, ops: seq<Op>)
    requires total > 0 && EnabledRun(Pool([Run(0, total)], map[]), ops)
    requires RunOps(Pool([Run(0, total)], map[]), ops).out == map[]
    ensures RunOps(Pool([Run(0, total)], map[]), ops).runs == [Run(0, total)]
  {
    var p := Pool([Run(0, total)], map[]);
    WholeHeap(total);
    PoolRun(total, p, ops);
    var p' := RunOps(p, ops);
    NothingOut(total, p'.runs);
    hide Canon, RunOps, EnabledRun;
    CanonUnique(0, p'.runs, [Run(0, total)]);
  }

  lemma WholeHeap(total: nat)
    requires total > 0
    ensures PoolInv(total, Pool([Run(0, total)], map[])) && Canon(0, [Run(0, total)])
    ensures forall x: nat :: In([Run(0, total)], x) <==> x < total
  {
    forall x: nat ensures In([Run(0, total)], x) <==> x < total {}
  }

  lemma NothingOut(total: nat, runs: seq<Run>)
    requires PoolInv(total, Pool(runs, map[]))
    ensures forall x: nat :: In(runs, x) <==> x < total
  {
    forall s: nat, x: nat ensures !Holds(map[], s, x) {}
    hide In, Canon;
  }
}
