/** rt_page_list with its in-band page heads, updated in place (software/src/slab.c:222-329). */
module PageList {
  import opened Base
  import opened PageSpec
  import opened PageLemmas

  const NULL: int := -1

  /** From page `from` the links lead through the heads of l to page `to`. */
  ghost predicate Seg(next: seq<int>, len: seq<int>, from: int, l: seq<Run>, to: int)
    decreases |l|
  {
    if l == [] then from == to
    else
      && from == l[0].start < |next| && l[0].start < |len| && len[from] == l[0].len
      && Seg(next, len, next[from], l[1..], to)
  }

  ghost predicate NoStart(l: seq<Run>, x: int) {
    forall i :: 0 <= i < |l| ==> l[i].start != x
  }

  ghost predicate DistinctStarts(l: seq<Run>) {
    forall i, j :: 0 <= i < j < |l| ==> l[i].start != l[j].start
  }

  lemma NoStartTail(l: seq<Run>, x: int)
    requires NoStart(l, x) && l != []
    ensures NoStart(l[1..], x) && l[0].start != x
  {}

  /** Page heads that l does not use may be written. */
  lemma {:induction false} SegOther(next: seq<int>, len: seq<int>, next': seq<int>, len': seq<int>,
                                    from: int, l: seq<Run>, to: int, x: nat)
    requires Seg(next, len, from, l, to) && NoStart(l, x)
    requires |next'| == |next| && |len'| == |len|
    requires forall b :: 0 <= b < |next| && b != x ==> next'[b] == next[b]
    requires forall b :: 0 <= b < |len| && b != x ==> len'[b] == len[b]
    ensures Seg(next', len', from, l, to)
    decreases |l|
  {
    if l != [] {
      NoStartTail(l, x);
      SegOther(next, len, next', len', next[from], l[1..], to, x);
    }
  }

  lemma {:induction false} SegCat(next: seq<int>, len: seq<int>, from: int, a: seq<Run>, mid: int, b: seq<Run>, to: int)
    requires Seg(next, len, from, a, mid) && Seg(next, len, mid, b, to)
    ensures Seg(next, len, from, a + b, to)
    decreases |a|
  {
    if a == [] {
      assert a + b == b;
    } else {
      SegCat(next, len, next[from], a[1..], mid, b, to);
      assert (a + b)[1..] == a[1..] + b && (a + b)[0] == a[0];
    }
  }

  /** Writing the link of the last head of l. */
  lemma {:induction false} SegRelink(next: seq<int>, len: seq<int>, from: int, l: seq<Run>, to: int, to': int)
    requires Seg(next, len, from, l, to) && DistinctStarts(l) && l != []
    ensures var last := l[|l| - 1].start; last < |next| && Seg(next[last := to'], len, from, l, to')
    decreases |l|
  {
    if |l| > 1 {
      var t := l[1..];
      assert t[|t| - 1] == l[|l| - 1];
      SegRelink(next, len, next[from], t, to, to');
    }
  }

  lemma CanonHeads(lo: nat, runs: seq<Run>)
    requires Canon(lo, runs)
    ensures DistinctStarts(runs)
    ensures forall i :: 0 <= i < |runs| ==> lo <= runs[i].start && runs[i].len > 0
    ensures forall i, j :: 0 <= i < j < |runs| ==> End(runs[i]) < runs[j].start
    decreases |runs|
  {
    if runs != [] {
      var t := runs[1..];
      CanonHeads(End(runs[0]) + 1, t);
      assert forall i :: 0 < i < |runs| ==> runs[i] == t[i - 1];
    }
  }

  lemma SegHead(next: seq<int>, len: seq<int>, from: int, l: seq<Run>)
    requires Seg(next, len, from, l, NULL)
    ensures from == NULL <==> l == []
    ensures l != [] ==> from == l[0].start < |next| && l[0].start < |len| && len[from] == l[0].len
                        && Seg(next, len, next[from], l[1..], NULL)
  {}

  lemma SegNext(next: seq<int>, len: seq<int>, from: int, l: seq<Run>, b: int, r: Run)
    requires Seg(next, len, from, l, b) && b == r.start < |next| && r.start < |len| && len[b] == r.len
    ensures Seg(next, len, from, l + [r], next[b])
  {
    SegCat(next, len, from, l, b, [r], next[b]);
  }

  function LastStart(l: seq<Run>): int {
    if l == [] then NULL else l[|l| - 1].start
  }

  /** Everything the loops know: the runs passed by, the runs ahead, the head in front of b. */
  ghost predicate At(next: seq<int>, len: seq<int>, head: int, runs: seq<Run>, passed: seq<Run>, ahead: seq<Run>,
                     b: int, prev: int) {
    && runs == passed + ahead && DistinctStarts(runs)
    && Seg(next, len, head, passed, b) && Seg(next, len, b, ahead, NULL) && prev == LastStart(passed)
  }

  lemma AtStart(next: seq<int>, len: seq<int>, head: int, runs: seq<Run>)
    requires Canon(0, runs) && Seg(next, len, head, runs, NULL)
    ensures At(next, len, head, runs, [], runs, head, NULL)
  {
    CanonHeads(0, runs);
    assert [] + runs == runs;
  }

  lemma AtNext(next: seq<int>, len: seq<int>, head: int, runs: seq<Run>, passed: seq<Run>, ahead: seq<Run>,
               b: int, prev: int)
    requires At(next, len, head, runs, passed, ahead, b, prev) && ahead != []
    ensures 0 <= b < |next| && b < |len| && b == ahead[0].start && len[b] == ahead[0].len
    ensures At(next, len, head, runs, passed + [ahead[0]], ahead[1..], next[b], b)
  {
    hide DistinctStarts;
    SegHead(next, len, b, ahead);
    SegNext(next, len, head, passed, b, ahead[0]);
    assert (passed + [ahead[0]]) + ahead[1..] == runs;
  }

  lemma AtHead(next: seq<int>, len: seq<int>, head: int, runs: seq<Run>, passed: seq<Run>, ahead: seq<Run>,
               b: int, prev: int)
    requires At(next, len, head, runs, passed, ahead, b, prev)
    ensures b == NULL <==> ahead == []
  {
    SegHead(next, len, b, ahead);
    hide Seg, DistinctStarts;
  }

  lemma AllocStep(passed: seq<Run>, ahead: seq<Run>, n: nat)
    requires ahead != [] && ahead[0].len < n
    ensures passed + Alloc(ahead, n).0 == (passed + [ahead[0]]) + Alloc(ahead[1..], n).0
    ensures Alloc(ahead, n).1 == Alloc(ahead[1..], n).1
  {}

  lemma FreeStep(passed: seq<Run>, ahead: seq<Run>, s: nat, n: nat)
    requires ahead != [] && End(ahead[0]) != s && ahead[0].start < s + n
    ensures passed + Free(ahead, s, n) == (passed + [ahead[0]]) + Free(ahead[1..], s, n)
  {}

  lemma FreeHere(ahead: seq<Run>, s: nat, n: nat)
    requires ahead != [] ==> End(ahead[0]) != s && ahead[0].start >= s + n
    ensures Free(ahead, s, n) == if ahead != [] && ahead[0].start == s + n then [Run(s, ahead[0].len + n)] + ahead[1..]
                                 else [Run(s, n)] + ahead
  {}

  lemma DistinctParts(a: seq<Run>, b: seq<Run>)
    requires DistinctStarts(a + b)
    ensures DistinctStarts(a) && DistinctStarts(b)
    ensures a != [] ==> NoStart(b, a[|a| - 1].start)
    ensures b != [] ==> NoStart(a, b[0].start) && NoStart(b[1..], b[0].start)
  {
    var c := a + b;
    assert forall i :: 0 <= i < |a| ==> c[i] == a[i];
    assert forall i :: 0 <= i < |b| ==> c[|a| + i] == b[i];
  }

  /** The last step of all cases: the head in front gets the link to the new rest. */
  lemma Relink(next: seq<int>, len: seq<int>, head: int, passed: seq<Run>, b: int, prev: int, rest: seq<Run>, to: int)
    requires Seg(next, len, head, passed, b) && Seg(next, len, to, rest, NULL) && prev == LastStart(passed)
    requires DistinctStarts(passed) && (passed != [] ==> NoStart(rest, prev))
    ensures passed == [] ==> Seg(next, len, to, passed + rest, NULL)
    ensures passed != [] ==> 0 <= prev < |next| && Seg(next[prev := to], len, head, passed + rest, NULL)
  {
    if passed == [] {
      assert passed + rest == rest;
    } else {
      SegRelink(next, len, head, passed, b, to);
      SegOther(next, len, next[prev := to], len, to, rest, NULL, prev);
      SegCat(next[prev := to], len, head, passed, to, rest, NULL);
    }
  }

  /** All free pages are pages of the heap. */
  ghost predicate Inside(total: nat, runs: seq<Run>) {
    forall x: nat :: In(runs, x) ==> x < total
  }

  lemma {:induction false} InsideEnd(total: nat, runs: seq<Run>, i: nat)
    requires Inside(total, runs) && i < |runs| && runs[i].len > 0
    ensures End(runs[i]) <= total
  {
    InAt(runs, i, End(runs[i]) - 1);
  }

  lemma {:induction false} InAt(runs: seq<Run>, i: nat, x: nat)
    requires i < |runs| && runs[i].start <= x < End(runs[i])
    ensures In(runs, x)
    decreases i
  {
    if i > 0 { InAt(runs[1..], i - 1, x); }
  }

  lemma AllocInside(total: nat, runs: seq<Run>, n: nat)
    requires Inside(total, runs) && Canon(0, runs) && n > 0
    ensures Inside(total, Alloc(runs, n).0) && Canon(0, Alloc(runs, n).0)
  {
    AllocFirstFit(0, runs, n);
    if Alloc(runs, n).1.Some? {
      forall x: nat | In(Alloc(runs, n).0, x) ensures x < total { AllocPages(0, runs, n, x); }
    }
  }

  lemma FreeInside(total: nat, runs: seq<Run>, s: nat, n: nat)
    requires Inside(total, runs) && Canon(0, runs) && n > 0 && s + n <= total && Apart(runs, s, n)
    ensures Inside(total, Free(runs, s, n)) && Canon(0, Free(runs, s, n))
  {
    FreeCanon(0, runs, s, n);
    forall x: nat | In(Free(runs, s, n), x) ensures x < total { FreePages(runs, s, n, x); }
  }

  /** A page that is not free starts no run. */
  lemma ApartNoStart(lo: nat, runs: seq<Run>, s: nat, n: nat)
    requires Canon(lo, runs) && Apart(runs, s, n) && n > 0
    ensures NoStart(runs, s)
  {
    CanonHeads(lo, runs);
    forall i | 0 <= i < |runs| ensures runs[i].start != s {
      if runs[i].start == s { InAt(runs, i, s); }
    }
  }

  lemma NoStartParts(a: seq<Run>, b: seq<Run>, x: int)
    requires NoStart(a + b, x)
    ensures NoStart(a, x) && NoStart(b, x) && (b != [] ==> NoStart(b[1..], x))
  {
    assert forall i :: 0 <= i < |a| ==> (a + b)[i] == a[i];
    assert forall i :: 0 <= i < |b| ==> (a + b)[|a| + i] == b[i];
  }

  class PageList {
    /** next and page of the page heads, one for each page of the heap */
    const next: array<int>
    const len: array<int>
    var head: int
    ghost var runs: seq<Run>

    ghost predicate Valid()
      reads this, next, len
    {
      && next != len && next.Length == len.Length && Canon(0, runs) && Inside(next.Length, runs)
      && Seg(next[..], len[..], head, runs, NULL)
    }

    /** rt_page_init */
    constructor (total: nat)
      requires total > 0
      ensures Valid() && fresh(next) && fresh(len) && runs == [Run(0, total)] && next.Length == total
    {
      next := new int[total];
      len := new int[total];
      new;
      head, runs := NULL, [];
      PageFree(0, total);
    }

    /** prev := to, where prev is the list head or the link in the head of page `prev`. */
    method SetLink(prev: int, to: int)
      requires prev == NULL || 0 <= prev < next.Length
      modifies this`head, next
      ensures prev == NULL ==> head == to && next[..] == old(next[..])
      ensures prev != NULL ==> head == old(head) && next[..] == old(next[..])[prev := to]
    {
      if prev == NULL {
        head := to;
      } else {
        next[prev] := to;
      }
    }

    /** The walk of rt_page_alloc to the first run that is long enough. */
    method FindFit(n: nat) returns (b: int, prev: int, ghost passed: seq<Run>, ghost ahead: seq<Run>)
      requires Valid() && n > 0
      ensures At(next[..], len[..], head, runs, passed, ahead, b, prev)
      ensures b == NULL <==> ahead == []
      ensures b != NULL ==> 0 <= b < next.Length && ahead[0].len >= n
      ensures Alloc(runs, n) == (passed + Alloc(ahead, n).0, Alloc(ahead, n).1)
    {
      b, prev, passed, ahead := head, NULL, [], runs;
      AtStart(next[..], len[..], head, runs);
      assert [] + Alloc(runs, n).0 == Alloc(runs, n).0;
      hide Seg, Canon, DistinctStarts, Alloc, At, Inside;
      while b != NULL
        invariant At(next[..], len[..], head, runs, passed, ahead, b, prev)
        invariant Alloc(runs, n) == (passed + Alloc(ahead, n).0, Alloc(ahead, n).1)
        decreases |ahead|
      {
        AtHead(next[..], len[..], head, runs, passed, ahead, b, prev);
        AtNext(next[..], len[..], head, runs, passed, ahead, b, prev);
        if len[b] >= n {
          return;
        }
        AllocStep(passed, ahead, n);
        prev, passed := b, passed + [ahead[0]];
        b, ahead := next[b], ahead[1..];
      }
      AtHead(next[..], len[..], head, runs, passed, ahead, b, prev);
    }

    /** rt_page_alloc */
    method PageAlloc(n: nat) returns (r: int)
      requires Valid()
      modifies this, next, len
      ensures Valid() && runs == Alloc(old(runs), n).0
      ensures r == (if Alloc(old(runs), n).1.None? then NULL else Alloc(old(runs), n).1.value)
      ensures r == NULL ==> runs == old(runs)
    {
      if n == 0 {
        return NULL;
      }
      AllocInside(next.Length, runs, n);
      ghost var all := runs;
      hide Canon, Inside, Seg, DistinctStarts, NoStart, Alloc, At;
      var b, prev, passed, ahead := FindFit(n);
      if b == NULL {
        NoFit(n);
        return NULL;
      }
      AllocHere(passed, ahead, n);
      Cut(b, n, prev, passed, ahead);
      r := b;
    }

    lemma NoFit(n: nat)
      ensures Alloc([], n) == ([], None)
    {}

    /** The first n pages of the run at b are taken off the list. */
    method Cut(b: int, n: nat, prev: int, ghost passed: seq<Run>, ghost ahead: seq<Run>)
      requires next != len && next.Length == len.Length && Canon(0, runs) && Inside(next.Length, runs)
      requires At(next[..], len[..], head, runs, passed, ahead, b, prev) && ahead != [] && ahead[0].len >= n > 0
      modifies this, next, len
      ensures runs == passed + if ahead[0].len > n then [Run(ahead[0].start + n, ahead[0].len - n)] + ahead[1..]
                               else ahead[1..]
      ensures Seg(next[..], len[..], head, runs, NULL) && b == ahead[0].start
    {
      hide Canon, Inside, Seg, DistinctStarts, NoStart;
      ghost var nx, ln := next[..], len[..];
      AtNext(nx, ln, head, runs, passed, ahead, b, prev);
      DistinctParts(passed, ahead);
      SegHead(nx, ln, b, ahead);
      if len[b] > n {
        SplitRoom(runs, passed, ahead, n, next.Length);
        SplitOff(b, n, passed, ahead);
        ghost var rest := [Run(b + n, ahead[0].len - n)] + ahead[1..];
        assert rest[1..] == ahead[1..];
        MidApart(passed, ahead, rest, b + n);
        Relink(next[..], len[..], head, passed, b, prev, rest, b + n);
        SetLink(prev, b + n);
        runs := passed + rest;
      } else {
        TailApart(passed, ahead);
        Relink(nx, ln, head, passed, b, prev, ahead[1..], next[b]);
        SetLink(prev, next[b]);
        runs := passed + ahead[1..];
      }
    }

    lemma TailApart(passed: seq<Run>, ahead: seq<Run>)
      requires ahead != [] && (passed != [] ==> NoStart(ahead, passed[|passed| - 1].start))
      ensures passed != [] ==> NoStart(ahead[1..], passed[|passed| - 1].start)
    {}

    /** The second half of a run that is split gets a head of its own. */
    method SplitOff(b: int, n: nat, ghost passed: seq<Run>, ghost ahead: seq<Run>)
      requires next != len && next.Length == len.Length && 0 <= b && b + n < next.Length && ahead != [] && b == ahead[0].start
      requires len[b] == ahead[0].len > n > 0
      requires Seg(next[..], len[..], head, passed, b) && Seg(next[..], len[..], next[b], ahead[1..], NULL)
      requires NoStart(passed, b + n) && NoStart(ahead, b + n)
      modifies next, len
      ensures Seg(next[..], len[..], head, passed, b)
      ensures Seg(next[..], len[..], b + n, [Run(b + n, ahead[0].len - n)] + ahead[1..], NULL)
    {
      ghost var nx, ln, rest := next[..], len[..], ahead[1..];
      next[b + n] := next[b];
      len[b + n] := len[b] - n;
      SegOther(nx, ln, next[..], len[..], head, passed, b, b + n);
      SegOther(nx, ln, next[..], len[..], nx[b], rest, NULL, b + n);
      assert ([Run(b + n, ahead[0].len - n)] + rest)[1..] == rest;
      assert next[..][b + n] == nx[b];
    }

    lemma AllocHere(passed: seq<Run>, ahead: seq<Run>, n: nat)
      requires ahead != [] && ahead[0].len >= n > 0
      ensures Alloc(ahead, n).1 == Some(ahead[0].start)
      ensures Alloc(ahead, n).0 == if ahead[0].len > n then [Run(ahead[0].start + n, ahead[0].len - n)] + ahead[1..]
                                   else ahead[1..]
    {}

    /** The page where a run is split starts no other run, and it is a page of the heap. */
    lemma SplitRoom(all: seq<Run>, passed: seq<Run>, ahead: seq<Run>, n: nat, total: nat)
      requires Canon(0, all) && all == passed + ahead && ahead != [] && 0 < n < ahead[0].len
      requires Inside(total, all)
      ensures ahead[0].start + n < total
      ensures NoStart(passed, ahead[0].start + n) && NoStart(ahead, ahead[0].start + n)
    {
      CanonHeads(0, all);
      InsideEnd(total, all, |passed|);
      assert forall i :: 0 <= i < |passed| ==> all[i] == passed[i];
      assert forall i :: 0 <= i < |ahead| ==> all[|passed| + i] == ahead[i];
    }

    /** The walk of rt_page_free to the place of the pages. */
    method FindPlace(s: nat, n: nat)
      returns (b: int, prev: int, ghost passed: seq<Run>, ghost ahead: seq<Run>)
      requires Valid() && n > 0
      ensures At(next[..], len[..], head, runs, passed, ahead, b, prev)
      ensures b == NULL <==> ahead == []
      ensures b != NULL ==> (End(ahead[0]) == s || ahead[0].start == s + n || ahead[0].start > s + n)
      ensures Free(runs, s, n) == passed + Free(ahead, s, n)
    {
      b, prev, passed, ahead := head, NULL, [], runs;
      AtStart(next[..], len[..], head, runs);
      assert [] + Free(runs, s, n) == Free(runs, s, n);
      hide Seg, Canon, DistinctStarts, Free, At, Inside;
      while b != NULL
        invariant At(next[..], len[..], head, runs, passed, ahead, b, prev)
        invariant Free(runs, s, n) == passed + Free(ahead, s, n)
        decreases |ahead|
      {
        AtHead(next[..], len[..], head, runs, passed, ahead, b, prev);
        AtNext(next[..], len[..], head, runs, passed, ahead, b, prev);
        if b + len[b] == s || b == s + n || b > s + n {
          return;
        }
        FreeStep(passed, ahead, s, n);
        prev, passed := b, passed + [ahead[0]];
        b, ahead := next[b], ahead[1..];
      }
      AtHead(next[..], len[..], head, runs, passed, ahead, b, prev);
    }

    lemma MidApart(passed: seq<Run>, ahead: seq<Run>, mid: seq<Run>, s: nat)
      requires NoStart(passed, s) && mid != [] && mid[0].start == s
      requires mid[1..] == ahead || (ahead != [] && mid[1..] == ahead[1..])
      requires passed != [] ==> NoStart(ahead, passed[|passed| - 1].start)
      ensures passed != [] ==> NoStart(mid, passed[|passed| - 1].start)
    {
      assert forall i :: 0 < i < |mid| ==> mid[i] == mid[1..][i - 1];
    }

    /** A page that was in use becomes the head of a run in front of `rest`. */
    method NewHead(s: nat, size: nat, to: int, b: int, ghost passed: seq<Run>, ghost rest: seq<Run>)
      requires next != len && next.Length == len.Length && s < next.Length
      requires Seg(next[..], len[..], head, passed, b) && Seg(next[..], len[..], to, rest, NULL)
      requires NoStart(passed, s) && NoStart(rest, s)
      modifies next, len
      ensures Seg(next[..], len[..], head, passed, b)
      ensures Seg(next[..], len[..], s, [Run(s, size)] + rest, NULL)
    {
      ghost var nx, ln := next[..], len[..];
      len[s] := size;
      next[s] := to;
      SegOther(nx, ln, next[..], len[..], head, passed, b, s);
      SegOther(nx, ln, next[..], len[..], to, rest, NULL, s);
      assert ([Run(s, size)] + rest)[1..] == rest && next[..][s] == to;
    }

    /** The pages join the run in front of them, and that run joins the next one if they touch. */
    method Extend(b: int, n: nat, ghost passed: seq<Run>, ghost ahead: seq<Run>)
      requires next != len && next.Length == len.Length && 0 <= b < next.Length && ahead != [] && b == ahead[0].start
      requires len[b] == ahead[0].len
      requires Seg(next[..], len[..], head, passed, b) && Seg(next[..], len[..], next[b], ahead[1..], NULL)
      requires NoStart(passed, b) && NoStart(ahead[1..], b)
      modifies next, len
      ensures Seg(next[..], len[..], head, passed + Free(ahead, b + old(len[b]), n), NULL)
    {
      hide NoStart, Seg;
      ghost var rest := ahead[1..];
      SegHead(next[..], len[..], next[b], rest);
      assert |ahead| > 1 ==> ahead[1] == rest[0] && ahead[2..] == rest[1..];
      if b + len[b] + n == next[b] {
        ghost var nx, ln := next[..], len[..];
        NoStartTail(rest, b);
        len[b] := len[b] + n;
        len[b] := len[b] + len[next[b]];
        next[b] := next[next[b]];
        SegOther(nx, ln, next[..], len[..], head, passed, b, b);
        SegOther(nx, ln, next[..], len[..], nx[nx[b]], rest[1..], NULL, b);
        Joined(passed, b, Run(b, ahead[0].len + n + rest[0].len), rest[1..]);
      } else {
        ghost var nx, ln := next[..], len[..];
        len[b] := len[b] + n;
        SegOther(nx, ln, next[..], len[..], head, passed, b, b);
        SegOther(nx, ln, next[..], len[..], nx[b], rest, NULL, b);
        Joined(passed, b, Run(b, ahead[0].len + n), rest);
      }
    }

    lemma Joined(passed: seq<Run>, b: int, r: Run, rest: seq<Run>)
      requires next != len && next.Length == len.Length && b == r.start < next.Length && len[b] == r.len
      requires Seg(next[..], len[..], head, passed, b) && Seg(next[..], len[..], next[b], rest, NULL)
      ensures Seg(next[..], len[..], head, passed + ([r] + rest), NULL)
    {
      assert ([r] + rest)[1..] == rest && next[..][b] == next[b];
      SegCat(next[..], len[..], head, passed, b, [r] + rest, NULL);
    }

    /** rt_page_free */
    method PageFree(s: nat, n: nat)
      requires Valid() && n > 0 && s + n <= next.Length && Apart(runs, s, n)
      modifies this, next, len
      ensures Valid() && runs == Free(old(runs), s, n)
    {
      FreeInside(next.Length, runs, s, n);
      ApartNoStart(0, runs, s, n);
      hide Canon, Inside, Seg, DistinctStarts, NoStart, Apart, At, Free;
      var b, prev, passed, ahead := FindPlace(s, n);
      AtRuns(next[..], len[..], passed, ahead, b, prev);
      NoStartParts(passed, ahead, s);
      ghost var nx, ln := next[..], len[..];
      if b != NULL {
        AtNext(nx, ln, head, runs, passed, ahead, b, prev);
      }
      if b != NULL && b + len[b] == s {
        ExtendAt(b, n, prev, passed, ahead);
        runs := passed + Free(ahead, s, n);
      } else {
        FreeHere(ahead, s, n);
        PutIn(s, n, b, prev, passed, ahead);
      }
    }

    lemma AtRuns(nx: seq<int>, ln: seq<int>, passed: seq<Run>, ahead: seq<Run>, b: int, prev: int)
      requires At(nx, ln, head, runs, passed, ahead, b, prev)
      ensures runs == passed + ahead
    {}

    method ExtendAt(b: int, n: nat, ghost prev: int, ghost passed: seq<Run>, ghost ahead: seq<Run>)
      requires next != len && next.Length == len.Length
      requires At(next[..], len[..], head, runs, passed, ahead, b, prev) && ahead != []
      modifies next, len
      ensures 0 <= b < len.Length
      ensures Seg(next[..], len[..], head, passed + Free(ahead, b + old(len[b]), n), NULL)
    {
      hide Seg, DistinctStarts, NoStart, Free;
      AtNext(next[..], len[..], head, runs, passed, ahead, b, prev);
      DistinctParts(passed, ahead);
      SegHead(next[..], len[..], b, ahead);
      Extend(b, n, passed, ahead);
    }

    /** The pages join the run behind them or become a run of their own. */
    method PutIn(s: nat, n: nat, b: int, prev: int, ghost passed: seq<Run>, ghost ahead: seq<Run>)
      requires next != len && next.Length == len.Length && s < next.Length
      requires At(next[..], len[..], head, runs, passed, ahead, b, prev) && (b == NULL <==> ahead == [])
      requires NoStart(passed, s) && NoStart(ahead, s) && (ahead != [] ==> NoStart(ahead[1..], s))
      modifies this, next, len
      ensures Seg(next[..], len[..], head, runs, NULL)
      ensures runs == passed + if ahead != [] && ahead[0].start == s + n then [Run(s, ahead[0].len + n)] + ahead[1..]
                               else [Run(s, n)] + ahead
    {
      hide Seg, DistinctStarts, NoStart;
      DistinctParts(passed, ahead);
      ghost var mid;
      if b != NULL {
        AtNext(next[..], len[..], head, runs, passed, ahead, b, prev);
        SegHead(next[..], len[..], b, ahead);
      }
      if b != NULL && b == s + n {
        mid := [Run(s, ahead[0].len + n)] + ahead[1..];
        NewHead(s, len[b] + n, next[b], b, passed, ahead[1..]);
        assert mid[1..] == ahead[1..];
      } else {
        mid := [Run(s, n)] + ahead;
        NewHead(s, n, b, b, passed, ahead);
        assert mid[1..] == ahead;
      }
      MidApart(passed, ahead, mid, s);
      Relink(next[..], len[..], head, passed, b, prev, mid, s);
      SetLink(prev, s);
      runs := passed + mid;
    }
  }
}
