/** The in-band headers of software/src/mem.c: three words in front of every payload. The first
    word packs `magic` (low half) and `used` (high half), then come `next` and `prev`. */
module HeapHeaders {
  import opened HeapSpec
  import opened HeapRuns

  const HEAP_MAGIC: int := 0x1ea0
  const HALF: int := 0x1_0000

  type word = x: int | 0 <= x < 0x1_0000_0000

  function UsedFlag(w: word): int {
    w / HALF
  }

  function Magic(w: word): int {
    w % HALF
  }

  function WithUsed(w: word, u: bool): (r: word)
    ensures Magic(r) == Magic(w) && UsedFlag(r) == (if u then 1 else 0)
  {
    Magic(w) + (if u then HALF else 0)
  }

  function WithMagic(w: word, m: int): (r: word)
    requires 0 <= m < HALF
    ensures Magic(r) == m && UsedFlag(r) == UsedFlag(w)
  {
    UsedFlag(w) * HALF + m
  }

  /** Block i's header: used flag, next, prev, and the magic number while the block is in use. */
  ghost predicate HeaderOk(s: seq<word>, bs: seq<Block>, end: int, i: nat)
    requires i < |bs|
  {
    && bs[i].at + HEADER <= |s|
    && UsedFlag(s[bs[i].at]) == (if bs[i].used then 1 else 0)
    && (bs[i].used ==> Magic(s[bs[i].at]) == HEAP_MAGIC)
    && s[bs[i].at + 1] == Next(bs, end, i)
    && s[bs[i].at + 2] == (if i == 0 then 0 else bs[i - 1].at)
  }

  /** All headers agree with the block list; of heap_end only `used` and `next` are kept. */
  ghost predicate Headers(s: seq<word>, bs: seq<Block>, end: int) {
    && 0 <= end && |s| == end + HEADER
    && (forall i :: 0 <= i < |bs| ==> HeaderOk(s, bs, end, i))
    && UsedFlag(s[end]) == 1 && s[end + 1] == end
  }

  ghost predicate SameExcept(s: seq<word>, t: seq<word>, ws: set<int>) {
    |s| == |t| && forall w :: 0 <= w < |s| && w !in ws ==> s[w] == t[w]
  }

  // ---- Header surgery follows list surgery ---------------------------------------------------

  lemma MarkHeaders(s: seq<word>, t: seq<word>, bs: seq<Block>, end: int, k: nat, u: bool)
    requires Tiled(bs, end) && Headers(s, bs, end) && k < |bs|
    requires SameExcept(s, t, {bs[k].at})
    requires UsedFlag(t[bs[k].at]) == (if u then 1 else 0)
    requires u ==> Magic(t[bs[k].at]) == HEAP_MAGIC
    ensures Headers(t, Mark(bs, k, u), end)
  {
    var m := Mark(bs, k, u);
    forall i | 0 <= i < |m| ensures HeaderOk(t, m, end, i) {
      assert HeaderOk(s, bs, end, i);
      assert i < k ==> bs[i].at + HEADER <= bs[k].at;
      assert k < i ==> bs[k].at + HEADER <= bs[i].at;
    }
    NextBounds(bs, end, k);
  }

  ghost function CutWrites(bs: seq<Block>, end: int, k: nat, at: int): set<int>
    requires k < |bs|
  {
    {bs[k].at + 1, at, at + 1, at + 2} + (if k + 1 < |bs| then {bs[k + 1].at + 2} else {})
  }

  /** A header whose words, neighbours and flag did not change is still right. */
  lemma KeptHeader(s: seq<word>, t: seq<word>, ws: set<int>, bs: seq<Block>, i: nat,
                   c: seq<Block>, j: nat, end: int)
    requires i < |bs| && j < |c| && HeaderOk(s, bs, end, i) && SameExcept(s, t, ws)
    requires c[j] == bs[i] && Next(c, end, j) == Next(bs, end, i)
    requires (if j == 0 then 0 else c[j - 1].at) == (if i == 0 then 0 else bs[i - 1].at)
    requires bs[i].at !in ws && bs[i].at + 1 !in ws && bs[i].at + 2 !in ws
    ensures HeaderOk(t, c, end, j)
  {}

  lemma CutLow(bs: seq<Block>, end: int, k: nat, at: nat, i: nat)
    requires Tiled(bs, end) && i < k < |bs| && bs[k].at + HEADER <= at
    ensures var ws := CutWrites(bs, end, k, at);
      bs[i].at !in ws && bs[i].at + 1 !in ws && bs[i].at + 2 !in ws
  {
    assert bs[i].at + HEADER <= bs[k].at;
    assert k + 1 < |bs| ==> bs[i].at + HEADER <= bs[k + 1].at;
  }

  lemma CutHigh(bs: seq<Block>, end: int, k: nat, at: nat, i: nat)
    requires Tiled(bs, end) && k + 1 < i < |bs| && bs[k].at + HEADER <= at
    requires at + HEADER <= Next(bs, end, k)
    ensures var ws := CutWrites(bs, end, k, at);
      bs[i].at !in ws && bs[i].at + 1 !in ws && bs[i].at + 2 !in ws
  {
    assert bs[k].at + HEADER <= bs[k + 1].at;
    assert bs[k + 1].at + HEADER <= bs[i].at;
  }

  lemma CutHeaderLow(s: seq<word>, t: seq<word>, bs: seq<Block>, end: int, k: nat, at: nat, i: nat)
    requires Tiled(bs, end) && i < k < |bs| && HeaderOk(s, bs, end, i)
    requires bs[k].at + HEADER <= at && at + HEADER <= Next(bs, end, k)
    requires SameExcept(s, t, CutWrites(bs, end, k, at))
    ensures HeaderOk(t, Cut(bs, k, at), end, i)
  {
    CutLow(bs, end, k, at, i);
    KeptHeader(s, t, CutWrites(bs, end, k, at), bs, i, Cut(bs, k, at), i, end);
  }

  lemma CutHeaderHigh(s: seq<word>, t: seq<word>, bs: seq<Block>, end: int, k: nat, at: nat, i: nat)
    requires Tiled(bs, end) && k + 1 < i < |bs| && HeaderOk(s, bs, end, i)
    requires bs[k].at + HEADER <= at && at + HEADER <= Next(bs, end, k)
    requires SameExcept(s, t, CutWrites(bs, end, k, at))
    ensures HeaderOk(t, Cut(bs, k, at), end, i + 1)
  {
    CutHigh(bs, end, k, at, i);
    var c := Cut(bs, k, at);
    assert c[i + 1] == bs[i] && c[i] == bs[i - 1];
    assert i + 1 < |bs| ==> c[i + 2] == bs[i + 1];
    KeptHeader(s, t, CutWrites(bs, end, k, at), bs, i, c, i + 1, end);
  }

  /** The three headers around the cut. */
  lemma CutHeaderMid(s: seq<word>, t: seq<word>, bs: seq<Block>, end: int, k: nat, at: nat)
    requires k < |bs| && HeaderOk(s, bs, end, k)
    requires k + 1 < |bs| ==> HeaderOk(s, bs, end, k + 1)
    requires bs[k].at + HEADER <= at && at + HEADER <= Next(bs, end, k) <= |s| - HEADER
    requires SameExcept(s, t, CutWrites(bs, end, k, at))
    requires t[bs[k].at + 1] == at
    requires UsedFlag(t[at]) == 0 && t[at + 1] == Next(bs, end, k) && t[at + 2] == bs[k].at
    requires k + 1 < |bs| ==> t[bs[k + 1].at + 2] == at
    ensures HeaderOk(t, Cut(bs, k, at), end, k)
    ensures HeaderOk(t, Cut(bs, k, at), end, k + 1)
    ensures k + 1 < |bs| ==> HeaderOk(t, Cut(bs, k, at), end, k + 2)
  {
    var c := Cut(bs, k, at);
    assert c[k] == bs[k] && c[k + 1] == Block(at, false);
    assert k > 0 ==> c[k - 1] == bs[k - 1];
    assert k + 1 < |bs| ==> c[k + 2] == bs[k + 1];
    assert k + 2 < |bs| ==> c[k + 3] == bs[k + 2];
  }

  lemma CutHeaders(s: seq<word>, t: seq<word>, bs: seq<Block>, end: int, k: nat, at: nat)
    requires Tiled(bs, end) && Headers(s, bs, end) && k < |bs|
    requires bs[k].at + HEADER <= at && at + HEADER <= Next(bs, end, k)
    requires SameExcept(s, t, CutWrites(bs, end, k, at))
    requires t[bs[k].at + 1] == at
    requires UsedFlag(t[at]) == 0 && t[at + 1] == Next(bs, end, k) && t[at + 2] == bs[k].at
    requires k + 1 < |bs| ==> t[bs[k + 1].at + 2] == at
    ensures Headers(t, Cut(bs, k, at), end)
  {
    hide Tiled, HeaderOk;
    var c := Cut(bs, k, at);
    NextBounds(bs, end, k);
    CutHeaderMid(s, t, bs, end, k, at);
    forall i | 0 <= i < |c| ensures HeaderOk(t, c, end, i) {
      if i < k {
        CutHeaderLow(s, t, bs, end, k, at, i);
      } else if i > k + 2 {
        CutHeaderHigh(s, t, bs, end, k, at, i - 1);
      }
    }
    if k + 1 < |bs| { NextBounds(bs, end, k + 1); }
  }

  /** Words rewritten when block k is merged into block k - 1. */
  ghost function DropWrites(bs: seq<Block>, end: int, k: nat): set<int>
    requires 0 < k < |bs|
  {
    {bs[k - 1].at + 1, Next(bs, end, k) + 2}
  }

  lemma DropApart(bs: seq<Block>, end: int, k: nat, i: nat)
    requires Tiled(bs, end) && 0 < k < |bs| && i < |bs| && i != k - 1 && i != k && i != k + 1
    ensures var ws := DropWrites(bs, end, k);
      bs[i].at !in ws && bs[i].at + 1 !in ws && bs[i].at + 2 !in ws
  {
    NextBounds(bs, end, k);
    assert bs[k - 1].at + HEADER <= bs[k].at;
    if i < k {
      assert bs[i].at + HEADER <= bs[k - 1].at;
    } else {
      assert bs[k].at + HEADER <= bs[k + 1].at && bs[k + 1].at + HEADER <= bs[i].at;
    }
  }

  lemma DropHeaderMid(s: seq<word>, t: seq<word>, bs: seq<Block>, end: int, k: nat)
    requires 0 < k < |bs| && HeaderOk(s, bs, end, k - 1)
    requires k + 1 < |bs| ==> HeaderOk(s, bs, end, k + 1)
    requires bs[k - 1].at + HEADER <= Next(bs, end, k)
    requires SameExcept(s, t, DropWrites(bs, end, k))
    requires t[bs[k - 1].at + 1] == Next(bs, end, k)
    requires k + 1 < |bs| ==> t[bs[k + 1].at + 2] == bs[k - 1].at
    ensures HeaderOk(t, Drop(bs, k), end, k - 1)
    ensures k + 1 < |bs| ==> HeaderOk(t, Drop(bs, k), end, k)
  {
    var d := Drop(bs, k);
    assert d[k - 1] == bs[k - 1];
    assert k > 1 ==> d[k - 2] == bs[k - 2];
    assert k + 1 < |bs| ==> d[k] == bs[k + 1];
    assert k + 2 < |bs| ==> d[k + 1] == bs[k + 2];
  }

  lemma DropHeaders(s: seq<word>, t: seq<word>, bs: seq<Block>, end: int, k: nat)
    requires Tiled(bs, end) && Headers(s, bs, end) && 0 < k < |bs|
    requires SameExcept(s, t, DropWrites(bs, end, k))
    requires t[bs[k - 1].at + 1] == Next(bs, end, k)
    requires k + 1 < |bs| ==> t[bs[k + 1].at + 2] == bs[k - 1].at
    ensures Headers(t, Drop(bs, k), end)
  {
    hide Tiled, HeaderOk;
    var d := Drop(bs, k);
    NextBounds(bs, end, k - 1);
    NextBounds(bs, end, k);
    if k + 1 < |bs| { NextBounds(bs, end, k + 1); }
    DropHeaderMid(s, t, bs, end, k);
    forall i | 0 <= i < |d| ensures HeaderOk(t, d, end, i) {
      if i < k - 1 {
        DropApart(bs, end, k, i);
        KeptHeader(s, t, DropWrites(bs, end, k), bs, i, d, i, end);
      } else if i > k {
        DropApart(bs, end, k, i + 1);
        KeptHeader(s, t, DropWrites(bs, end, k), bs, i + 1, d, i, end);
      }
    }
  }

  // ---- Payload -------------------------------------------------------------------------------

  ghost predicate SamePayload(s: seq<word>, t: seq<word>, e: Extent) {
    && |s| == |t| && 0 <= e.at && e.at + e.len <= |s|
    && forall w :: e.at <= w < e.at + e.len ==> s[w] == t[w]
  }

  /** Word w is outside every payload of a block other than k. */
  ghost predicate Outside(bs: seq<Block>, end: int, k: nat, w: int) {
    forall i :: 0 <= i < |bs| && i != k && bs[i].used
            ==> w < bs[i].at + HEADER || Next(bs, end, i) <= w
  }

  lemma HeaderOutside(bs: seq<Block>, end: int, k: nat, j: nat, w: int)
    requires Tiled(bs, end) && j < |bs| && bs[j].at <= w < bs[j].at + HEADER
    ensures Outside(bs, end, k, w)
  {
    forall i | 0 <= i < |bs| && i != j ensures w < bs[i].at + HEADER || Next(bs, end, i) <= w {
      NextBounds(bs, end, i);
      assert j < i ==> bs[j].at + HEADER <= bs[i].at;
    }
  }

  lemma SpanOutside(bs: seq<Block>, end: int, k: nat, w: int)
    requires Tiled(bs, end) && k < |bs| && bs[k].at <= w < Next(bs, end, k)
    ensures Outside(bs, end, k, w)
  {
    forall i | 0 <= i < |bs| && i != k ensures w < bs[i].at + HEADER || Next(bs, end, i) <= w {
      NextBounds(bs, end, i);
      NextBounds(bs, end, k);
    }
  }

  lemma EndOutside(bs: seq<Block>, end: int, k: nat, w: int)
    requires Tiled(bs, end) && end <= w
    ensures Outside(bs, end, k, w)
  {
    forall i | 0 <= i < |bs| ensures Next(bs, end, i) <= w { NextBounds(bs, end, i); }
  }
}
