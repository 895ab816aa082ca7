/** What the operations of HeapSpec keep. */
module HeapLemmas {
  import opened HeapSpec

  // ---- Spans ---------------------------------------------------------------------------------

  function Own(bs: seq<Block>, end: int, k: nat, u: bool): int
    requires k < |bs|
  {
    if bs[k].used == u then Span(bs, end, k) else 0
  }

  lemma {:induction false} SpanSplit(a: seq<Block>, b: seq<Block>, end: int)
    requires b != []
    ensures UsedSpan(a + b, end) == UsedSpan(a, b[0].at) + UsedSpan(b, end)
    ensures FreeSpan(a + b, end) == FreeSpan(a, b[0].at) + FreeSpan(b, end)
  {
    if a == [] {
      assert a + b == b;
    } else {
      assert (a + b)[1..] == a[1..] + b;
      SpanSplit(a[1..], b, end);
    }
  }

  /** The span sums around block k. */
  lemma SpanAt(bs: seq<Block>, end: int, k: nat)
    requires k < |bs|
    ensures UsedSpan(bs, end)
         == UsedSpan(bs[..k], bs[k].at) + Own(bs, end, k, true) + UsedSpan(bs[k + 1..], end)
  {
    assert bs == bs[..k] + bs[k..];
    SpanSplit(bs[..k], bs[k..], end);
    assert bs[k..][1..] == bs[k + 1..];
  }

  lemma SpanMark(bs: seq<Block>, end: int, k: nat, u: bool)
    requires k < |bs|
    ensures UsedSpan(Mark(bs, k, u), end)
         == UsedSpan(bs, end) - Own(bs, end, k, true) + (if u then Span(bs, end, k) else 0)
  {
    var m := Mark(bs, k, u);
    SpanAt(bs, end, k);
    SpanAt(m, end, k);
    assert m[..k] == bs[..k] && m[k + 1..] == bs[k + 1..];
  }

  lemma SpanCut(bs: seq<Block>, end: int, k: nat, at: nat)
    requires k < |bs|
    ensures UsedSpan(Cut(bs, k, at), end)
         == UsedSpan(bs, end) - (if bs[k].used then Next(bs, end, k) - at else 0)
  {
    var c := Cut(bs, k, at);
    SpanAt(bs, end, k);
    SpanAt(c, end, k);
    assert c[..k] == bs[..k];
    assert c[k + 1..] == [Block(at, false)] + bs[k + 1..];
    assert c[k + 1..][1..] == bs[k + 1..];
  }

  lemma SpanDrop(bs: seq<Block>, end: int, k: nat)
    requires 0 < k < |bs| && !bs[k].used && !bs[k - 1].used
    ensures UsedSpan(Drop(bs, k), end) == UsedSpan(bs, end)
  {
    var d := Drop(bs, k);
    SpanAt(bs, end, k - 1);
    SpanAt(d, end, k - 1);
    assert d[..k - 1] == bs[..k - 1];
    assert d[k..] == bs[k + 1..];
    assert bs[k..][1..] == bs[k + 1..];
  }

  /** Used and free spans together make up the whole heap. */
  lemma {:induction false} SpansCover(bs: seq<Block>, end: int)
    requires bs != []
    ensures UsedSpan(bs, end) + FreeSpan(bs, end) == end - bs[0].at
  {
    if |bs| == 1 {
      assert bs[1..] == [];
    } else {
      SpansCover(bs[1..], end);
    }
  }

  // ---- Shape ---------------------------------------------------------------------------------

  lemma TiledCut(bs: seq<Block>, end: int, k: nat, at: nat)
    requires Tiled(bs, end) && k < |bs|
    requires bs[k].at + HEADER <= at
    requires at + HEADER + MIN_DATA <= Next(bs, end, k)
    ensures Tiled(Cut(bs, k, at), end)
  {
    var c := Cut(bs, k, at);
    forall i, j | 0 <= i < j < |c| ensures c[i].at + HEADER <= c[j].at {
      if i <= k && j == k + 1 {
        assert i < k ==> bs[i].at + HEADER <= bs[k].at;
      } else if i == k + 1 {
        assert j > k + 2 ==> bs[k + 1].at + HEADER <= bs[j - 1].at;
      } else if i > k + 1 {
        assert c[i] == bs[i - 1] && c[j] == bs[j - 1];
      } else if j > k + 1 {
        assert c[j] == bs[j - 1];
        assert bs[i].at + HEADER <= bs[j - 1].at;
      }
    }
  }

  lemma TiledDrop(bs: seq<Block>, end: int, k: nat)
    requires Tiled(bs, end) && 0 < k < |bs|
    ensures Tiled(Drop(bs, k), end)
  {
    var d := Drop(bs, k);
    forall i, j | 0 <= i < j < |d| ensures d[i].at + HEADER <= d[j].at {
      var i', j' := if i < k then i else i + 1, if j < k then j else j + 1;
      assert d[i] == bs[i'] && d[j] == bs[j'];
    }
    if k == |bs| - 1 {
      assert d[|d| - 1] == bs[k - 1];
      assert bs[k - 1].at + HEADER <= bs[k].at;
    } else {
      assert d[|d| - 1] == bs[|bs| - 1];
    }
  }

  // ---- Live extents --------------------------------------------------------------------------

  lemma LiveDrop(bs: seq<Block>, end: int, k: nat)
    requires 0 < k < |bs| && !bs[k].used && !bs[k - 1].used
    ensures LiveOf(Drop(bs, k), end) == LiveOf(bs, end)
  {
    var d := Drop(bs, k);
    forall i | 0 <= i < |bs| && bs[i].used ensures ExtentOf(bs, end, i) in LiveOf(d, end) {
      var i' := if i < k then i else i - 1;
      assert d[i'] == bs[i] && ExtentOf(d, end, i') == ExtentOf(bs, end, i);
    }
    forall i | 0 <= i < |d| && d[i].used ensures ExtentOf(d, end, i) in LiveOf(bs, end) {
      var i' := if i < k then i else i + 1;
      assert bs[i'] == d[i] && ExtentOf(bs, end, i') == ExtentOf(d, end, i);
    }
  }

  lemma StartsDiffer(bs: seq<Block>, end: int, i: nat, k: nat)
    requires Tiled(bs, end) && i < |bs| && k < |bs| && i != k
    ensures ExtentOf(bs, end, i) != ExtentOf(bs, end, k)
  {}

  lemma CutExtent(bs: seq<Block>, end: int, k: nat, at: nat, i: nat)
    requires k < |bs| && i < |bs| && i != k
    ensures var j := if i < k then i else i + 1;
      j < |Cut(bs, k, at)| && Cut(bs, k, at)[j] == bs[i] && ExtentOf(Cut(bs, k, at), end, j) == ExtentOf(bs, end, i)
  {
    var c, j := Cut(bs, k, at), if i < k then i else i + 1;
    assert j + 1 < |c| && j + 1 != k + 1 ==> c[j + 1] == bs[i + 1];
  }

  /** Cutting block k changes no extent but its own. */
  lemma LiveCut(bs: seq<Block>, end: int, k: nat, at: nat)
    requires Tiled(bs, end) && k < |bs| && bs[k].used
    ensures LiveOf(Cut(bs, k, at), end)
         == LiveOf(bs, end) - {ExtentOf(bs, end, k)} + {Extent(bs[k].at + HEADER, at - bs[k].at - HEADER)}
  {
    hide Tiled;
    var c := Cut(bs, k, at);
    var mine := Extent(bs[k].at + HEADER, at - bs[k].at - HEADER);
    assert c[k] == bs[k] && c[k + 1] == Block(at, false) && ExtentOf(c, end, k) == mine;
    forall i | 0 <= i < |bs| && bs[i].used && i != k
      ensures ExtentOf(bs, end, i) in LiveOf(c, end) && ExtentOf(bs, end, i) != ExtentOf(bs, end, k)
    {
      CutExtent(bs, end, k, at, i);
      StartsDiffer(bs, end, i, k);
    }
    forall i | 0 <= i < |c| && c[i].used && i != k
      ensures ExtentOf(c, end, i) in LiveOf(bs, end) - {ExtentOf(bs, end, k)}
    {
      assert i != k + 1;
      var j := if i < k then i else i - 1;
      CutExtent(bs, end, k, at, j);
      StartsDiffer(bs, end, j, k);
    }
  }

  lemma MarkExtents(bs: seq<Block>, end: int, k: nat, u: bool)
    requires Tiled(bs, end) && k < |bs|
    ensures |Mark(bs, k, u)| == |bs| && Mark(bs, k, u)[k].used == u
    ensures forall i :: 0 <= i < |bs| ==> ExtentOf(Mark(bs, k, u), end, i) == ExtentOf(bs, end, i)
    ensures forall i :: 0 <= i < |bs| && i != k ==>
      Mark(bs, k, u)[i] == bs[i] && ExtentOf(bs, end, i) != ExtentOf(bs, end, k)
  {}

  lemma LiveMark(bs: seq<Block>, end: int, k: nat, u: bool)
    requires Tiled(bs, end) && k < |bs|
    ensures LiveOf(Mark(bs, k, u), end)
         == LiveOf(bs, end) - {ExtentOf(bs, end, k)} + (if u then {ExtentOf(bs, end, k)} else {})
  {
    MarkExtents(bs, end, k, u);
    hide ExtentOf, Tiled, Mark, LiveOf;
    var m, x := Mark(bs, k, u), ExtentOf(bs, end, k);
    forall e | e in LiveOf(m, end) ensures e in LiveOf(bs, end) - {x} + (if u then {x} else {}) {
      var i := LivePlace(m, end, e);
      if i != k { LiveAtPlace(bs, end, i); }
    }
    forall e | e in LiveOf(bs, end) - {x} + (if u then {x} else {}) ensures e in LiveOf(m, end) {
      var i := k;
      if e != x { i := LivePlace(bs, end, e); }
      LiveAtPlace(m, end, i);
    }
  }

  lemma LivePlace(bs: seq<Block>, end: int, e: Extent) returns (i: nat)
    requires e in LiveOf(bs, end)
    ensures i < |bs| && bs[i].used && e == ExtentOf(bs, end, i)
  {
    i :| i < |bs| && bs[i].used && e == ExtentOf(bs, end, i);
  }

  lemma LiveAtPlace(bs: seq<Block>, end: int, i: nat)
    requires i < |bs| && bs[i].used
    ensures ExtentOf(bs, end, i) in LiveOf(bs, end)
  {}
}
