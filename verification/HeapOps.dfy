/** Every section of the allocator keeps the heap invariant and changes the set of live extents by
    exactly the block it hands out, takes back or trims. */
module HeapOps {
  import opened HeapSpec
  import opened HeapLemmas

  // ---- plug_holes ----------------------------------------------------------------------------

  ghost predicate CoalescedExcept(bs: seq<Block>, k: nat) {
    forall i, j :: 0 <= i < |bs| && j == i + 1 && j < |bs| && i != k && j != k
              ==> bs[i].used || bs[j].used
  }

  lemma DropHint(bs: seq<Block>, end: int, k: nat, lfree: int)
    requires k < |bs| && HintOk(bs, end, lfree) && lfree != bs[k].at
    ensures HintOk(Drop(bs, k), end, lfree)
  {
    if lfree != end {
      var i :| 0 <= i < |bs| && bs[i].at == lfree && !bs[i].used;
      var i' := if i < k then i else i - 1;
      assert Drop(bs, k)[i'] == bs[i];
    }
  }

  lemma DropLowest(bs: seq<Block>, k: nat, lfree: int)
    requires k < |bs| && HintLowest(bs, lfree)
    ensures HintLowest(Drop(bs, k), lfree)
  {
    var d := Drop(bs, k);
    forall i | 0 <= i < |d| && !d[i].used ensures lfree <= d[i].at {
      assert d[i] == bs[if i < k then i else i + 1];
    }
  }

  /** Merging free block k into free block k - 1 keeps the shape, the sums and the live extents. */
  lemma DropKeeps(bs: seq<Block>, end: int, k: nat)
    requires Tiled(bs, end) && 0 < k < |bs| && !bs[k].used && !bs[k - 1].used
    ensures Tiled(Drop(bs, k), end)
    ensures UsedSpan(Drop(bs, k), end) == UsedSpan(bs, end)
    ensures LiveOf(Drop(bs, k), end) == LiveOf(bs, end)
  {
    SpanDrop(bs, end, k);
    TiledDrop(bs, end, k);
    LiveDrop(bs, end, k);
  }

  lemma MovedHint(bs: seq<Block>, end: int, k: nat, lfree: int)
    requires Tiled(bs, end) && 0 < k < |bs| && !bs[k].used && !bs[k - 1].used
    requires HintOk(bs, end, lfree)
    ensures var l := if lfree == bs[k].at then bs[k - 1].at else lfree;
      HintOk(Drop(bs, k), end, l) && (HintLowest(bs, lfree) ==> HintLowest(Drop(bs, k), l))
  {
    if lfree == bs[k].at {
      assert Drop(bs, k)[k - 1] == bs[k - 1];
      assert bs[k - 1].at + HEADER <= bs[k].at;
    } else {
      DropHint(bs, end, k, lfree);
    }
    if HintLowest(bs, lfree) { DropLowest(bs, k, lfree); }
  }

  lemma DropCoalesced(bs: seq<Block>, k: nat)
    requires 0 < k < |bs| && !bs[k].used && !bs[k - 1].used
    ensures CoalescedExcept(bs, k - 1) ==> CoalescedExcept(Drop(bs, k), k - 1)
    ensures CoalescedExcept(bs, k) && (k + 1 < |bs| ==> bs[k + 1].used) ==> Coalesced(Drop(bs, k))
  {
    var d := Drop(bs, k);
    forall i | 0 <= i < |d| ensures d[i] == bs[if i < k then i else i + 1] {}
  }

  lemma PlugForwardShape(h: Heap, k: nat)
    requires k < |h.blocks| && !h.blocks[k].used && CoalescedExcept(h.blocks, k)
    ensures var bs := PlugForward(h, k).blocks;
      && k < |bs| && bs[k] == h.blocks[k]
      && (k + 1 < |bs| ==> bs[k + 1].used) && CoalescedExcept(bs, k)
  {
    var bs := h.blocks;
    if k + 1 < |bs| && !bs[k + 1].used {
      DropCoalesced(bs, k + 1);
      if k + 2 < |bs| {
        assert Drop(bs, k + 1)[k + 1] == bs[k + 2];
      }
    }
  }

  lemma PlugForwardKeeps(h: Heap, k: nat)
    requires Sound(h) && k < |h.blocks| && !h.blocks[k].used
    ensures var h' := PlugForward(h, k);
      && Sound(h') && Live(h') == Live(h)
      && (HintLowest(h.blocks, h.lfree) ==> HintLowest(h'.blocks, h'.lfree))
  {
    if k + 1 < |h.blocks| && !h.blocks[k + 1].used {
      DropKeeps(h.blocks, h.end, k + 1);
      MovedHint(h.blocks, h.end, k + 1, h.lfree);
    }
  }

  lemma PlugBackwardKeeps(h: Heap, k: nat)
    requires Sound(h) && k < |h.blocks| && !h.blocks[k].used && CoalescedExcept(h.blocks, k)
    requires k + 1 < |h.blocks| ==> h.blocks[k + 1].used
    ensures var h' := PlugBackward(h, k);
      && Inv(h') && Live(h') == Live(h)
      && (HintLowest(h.blocks, h.lfree) ==> HintLowest(h'.blocks, h'.lfree))
  {
    if k > 0 && !h.blocks[k - 1].used {
      DropKeeps(h.blocks, h.end, k);
      DropCoalesced(h.blocks, k);
      MovedHint(h.blocks, h.end, k, h.lfree);
    }
  }

  /** plug_holes on a free block whose neighbours were coalesced before it became free. */
  lemma PlugKeeps(h: Heap, k: nat)
    requires Sound(h) && k < |h.blocks| && !h.blocks[k].used && CoalescedExcept(h.blocks, k)
    ensures var h' := Plug(h, k);
      && Inv(h') && Live(h') == Live(h)
      && (HintLowest(h.blocks, h.lfree) ==> HintLowest(h'.blocks, h'.lfree))
  {
    PlugForwardShape(h, k);
    PlugForwardKeeps(h, k);
    PlugBackwardKeeps(PlugForward(h, k), k);
  }

  // ---- rt_malloc -----------------------------------------------------------------------------

  /** The blocks rt_malloc's loop accepts: the strict bound passes over a block that ends at
      heap_end and fits exactly. */
  predicate Eligible(h: Heap, k: nat, size: int) {
    && k < |h.blocks|
    && !h.blocks[k].used
    && Data(h.blocks, h.end, k) >= size
    && !(k == |h.blocks| - 1 && Data(h.blocks, h.end, k) == size)
  }

  /** The loop bound on the offset is the exact-fit exception and nothing else. */
  lemma BoundIsException(h: Heap, k: nat, size: int)
    requires Tiled(h.blocks, h.end) && k < |h.blocks|
    requires Data(h.blocks, h.end, k) >= size
    ensures h.blocks[k].at < MemSize(h) - size
        <==> !(k == |h.blocks| - 1 && Data(h.blocks, h.end, k) == size)
  {
    if k < |h.blocks| - 1 {
      assert h.blocks[k + 1].at <= h.blocks[|h.blocks| - 1].at;
    }
  }

  /** The search from block i returns the first eligible block from there on, or none. */
  lemma {:induction false} FirstFitIsFirst(h: Heap, i: nat, size: int)
    requires Tiled(h.blocks, h.end) && i <= |h.blocks|
    ensures var r := FirstFit(h, i, size);
      && (r.Some? ==> Eligible(h, r.value, size))
      && (forall j :: i <= j < (if r.Some? then r.value else |h.blocks|) ==> !Eligible(h, j, size))
    decreases |h.blocks| - i
  {
    if i == |h.blocks| {
    } else if h.blocks[i].at >= MemSize(h) - size {
      forall j | i <= j < |h.blocks| ensures !Eligible(h, j, size) {
        assert j > i ==> h.blocks[i].at <= h.blocks[j].at;
        if Data(h.blocks, h.end, j) >= size { BoundIsException(h, j, size); }
      }
    } else {
      if Data(h.blocks, h.end, i) >= size { BoundIsException(h, i, size); }
      if !(!h.blocks[i].used && Data(h.blocks, h.end, i) >= size) {
        FirstFitIsFirst(h, i + 1, size);
      }
    }
  }

  lemma {:induction false} FirstFreeHint(bs: seq<Block>, end: nat, i: nat)
    requires Tiled(bs, end) && i <= |bs|
    ensures HintOk(bs, end, FirstFree(bs, end, i))
    ensures forall j :: i <= j < |bs| && !bs[j].used ==> FirstFree(bs, end, i) <= bs[j].at
    decreases |bs| - i
  {
    if i < |bs| && bs[i].used {
      FirstFreeHint(bs, end, i + 1);
    } else if i < |bs| {
      assert forall j :: i < j < |bs| ==> bs[i].at + HEADER <= bs[j].at;
    }
  }

  /** Taking block k whole. */
  lemma MarkKeeps(bs: seq<Block>, end: int, k: nat)
    requires Tiled(bs, end) && k < |bs| && !bs[k].used
    ensures var m := Mark(bs, k, true);
      && Tiled(m, end) && UsedSpan(m, end) == UsedSpan(bs, end) + Span(bs, end, k)
      && LiveOf(m, end) == LiveOf(bs, end) + {ExtentOf(bs, end, k)}
      && ExtentOf(bs, end, k) !in LiveOf(bs, end)
  {
    SpanMark(bs, end, k, true);
    LiveMark(bs, end, k, true);
    SameStart(bs, end, k, ExtentOf(bs, end, k));
  }

  /** Cutting used block k behind its first `words` payload words. */
  lemma CutKeeps(bs: seq<Block>, end: int, k: nat, words: nat)
    requires Tiled(bs, end) && k < |bs| && bs[k].used
    requires words + HEADER + MIN_DATA <= Data(bs, end, k)
    ensures var c := Cut(bs, k, bs[k].at + HEADER + words);
      && Tiled(c, end) && UsedSpan(c, end) == UsedSpan(bs, end) - Data(bs, end, k) + words
      && LiveOf(c, end) == LiveOf(bs, end) - {ExtentOf(bs, end, k)} + {Extent(bs[k].at + HEADER, words)}
  {
    hide Tiled, LiveOf, UsedSpan, Cut;
    var at := bs[k].at + HEADER + words;
    SpanCut(bs, end, k, at);
    TiledCut(bs, end, k, at);
    LiveCut(bs, end, k, at);
  }

  lemma CutIndex(bs: seq<Block>, k: nat, at: nat)
    requires k < |bs|
    ensures |Cut(bs, k, at)| == |bs| + 1
    ensures forall i :: 0 <= i <= k ==> Cut(bs, k, at)[i] == bs[i]
    ensures Cut(bs, k, at)[k + 1] == Block(at, false)
    ensures forall i :: k + 2 <= i <= |bs| ==> Cut(bs, k, at)[i] == bs[i - 1]
  {}

  lemma SplitKeeps(bs: seq<Block>, end: int, k: nat, size: nat)
    requires Tiled(bs, end) && k < |bs| && !bs[k].used
    requires size + HEADER + MIN_DATA <= Data(bs, end, k)
    ensures var c := Cut(Mark(bs, k, true), k, bs[k].at + HEADER + size);
      && Tiled(c, end) && UsedSpan(c, end) == UsedSpan(bs, end) + HEADER + size
      && Data(c, end, k) == size
      && LiveOf(c, end) == LiveOf(bs, end) + {Extent(bs[k].at + HEADER, size)}
      && Extent(bs[k].at + HEADER, size) !in LiveOf(bs, end)
  {
    hide Tiled, LiveOf, UsedSpan;
    var m := Mark(bs, k, true);
    MarkKeeps(bs, end, k);
    assert Data(m, end, k) == Data(bs, end, k) && ExtentOf(m, end, k) == ExtentOf(bs, end, k);
    CutKeeps(m, end, k, size);
    CutIndex(m, k, bs[k].at + HEADER + size);
    SameStart(bs, end, k, Extent(bs[k].at + HEADER, size));
  }

  /** The block list rt_malloc leaves behind when it takes block k. */
  lemma AllocBlocks(h: Heap, k: nat, size: nat)
    requires Inv(h) && Eligible(h, k, size) && size >= MIN_DATA
    ensures var h' := Alloc(h, k, size);
      && Tiled(h'.blocks, h'.end) && h'.used == UsedSpan(h'.blocks, h'.end)
      && size <= Data(h'.blocks, h'.end, k)
      && Live(h') == Live(h) + {ExtentOf(h'.blocks, h'.end, k)}
      && ExtentOf(h'.blocks, h'.end, k) !in Live(h)
  {
    hide Tiled, LiveOf, UsedSpan, Coalesced, HintOk;
    var bs, end := h.blocks, h.end;
    if Data(bs, end, k) >= size + HEADER + MIN_DATA {
      SplitKeeps(bs, end, k, size);
      CutIndex(Mark(bs, k, true), k, bs[k].at + HEADER + size);
    } else {
      MarkKeeps(bs, end, k);
    }
  }

  lemma SameStart(bs: seq<Block>, end: int, k: nat, e: Extent)
    requires Tiled(bs, end) && k < |bs| && !bs[k].used && e.at == bs[k].at + HEADER
    ensures e !in LiveOf(bs, end)
  {
    forall i | 0 <= i < |bs| && bs[i].used ensures ExtentOf(bs, end, i) != e {
      assert i != k;
    }
  }

  lemma AllocShape(h: Heap, k: nat, size: nat)
    requires Coalesced(h.blocks) && Eligible(h, k, size)
    ensures var bs := Alloc(h, k, size).blocks;
      && Coalesced(bs) && k < |bs| && bs[k] == Block(h.blocks[k].at, true)
      && (forall i :: 0 <= i < k ==> bs[i] == h.blocks[i])
      && (|bs| == |h.blocks| || (|bs| == |h.blocks| + 1 && bs[k].at <= bs[k + 1].at))
      && (forall i :: k < i < |h.blocks| ==> bs[i + |bs| - |h.blocks|] == h.blocks[i])
  {
    var bs, m := h.blocks, Mark(h.blocks, k, true);
    assert Coalesced(m);
    if Data(bs, h.end, k) >= size + HEADER + MIN_DATA {
      CutIndex(m, k, bs[k].at + HEADER + size);
      assert k + 1 < |bs| ==> bs[k + 1].used;
    }
  }

  /** A hint that is not block k survives the change of block k into bs' (grown by 0 or 1). */
  lemma OtherHint(bs: seq<Block>, bs': seq<Block>, end: int, k: nat, lfree: int)
    requires k < |bs| <= |bs'| <= |bs| + 1 && HintOk(bs, end, lfree) && lfree != bs[k].at
    requires !bs[k].used && bs'[k].used
    requires forall i :: 0 <= i < k ==> bs'[i] == bs[i]
    requires forall i :: k < i < |bs| ==> bs'[i + |bs'| - |bs|] == bs[i]
    requires |bs'| > |bs| ==> bs[k].at <= bs'[k + 1].at
    ensures HintOk(bs', end, lfree)
    ensures HintLowest(bs, lfree) ==> HintLowest(bs', lfree)
  {
    var grown := |bs'| - |bs|;
    if lfree != end {
      var i :| 0 <= i < |bs| && bs[i].at == lfree && !bs[i].used;
      assert bs'[if i > k then i + grown else i] == bs[i];
    }
    if HintLowest(bs, lfree) {
      forall j | 0 <= j < |bs'| && !bs'[j].used ensures lfree <= bs'[j].at {
        if j > k + grown { assert bs'[(j - grown) + grown] == bs[j - grown]; }
      }
    }
  }

  /** A hint that was block k moves on to the next free block. */
  lemma NextHint(bs: seq<Block>, bs': seq<Block>, end: nat, k: nat)
    requires Tiled(bs, end) && k < |bs| && !bs[k].used
    requires Tiled(bs', end) && k < |bs'|
    requires forall i :: 0 <= i < k ==> bs'[i] == bs[i]
    ensures HintOk(bs', end, FirstFree(bs', end, k))
    ensures HintLowest(bs, bs[k].at) ==> HintLowest(bs', FirstFree(bs', end, k))
  {
    FirstFreeHint(bs', end, k);
    assert forall i :: 0 <= i < k ==> bs[i].at + HEADER <= bs[k].at;
  }

  lemma AllocHint(h: Heap, k: nat, size: nat)
    requires Inv(h) && Eligible(h, k, size)
    requires Tiled(Alloc(h, k, size).blocks, h.end)
    ensures var h' := Alloc(h, k, size);
      && HintOk(h'.blocks, h'.end, h'.lfree)
      && (HintLowest(h.blocks, h.lfree) ==> HintLowest(h'.blocks, h'.lfree))
  {
    hide Tiled, LiveOf, UsedSpan, Coalesced, HintOk, HintLowest, FirstFree, Cut, Mark;
    var bs' := Alloc(h, k, size).blocks;
    AllocShape(h, k, size);
    if h.lfree == h.blocks[k].at {
      NextHint(h.blocks, bs', h.end, k);
    } else {
      OtherHint(h.blocks, bs', h.end, k, h.lfree);
    }
  }

  /** rt_malloc: the invariant is kept and exactly one new extent, long enough, becomes live. */
  lemma AllocKeeps(h: Heap, k: nat, size: nat)
    requires Inv(h) && Eligible(h, k, size) && size >= MIN_DATA
    ensures var h' := Alloc(h, k, size);
      && Inv(h') && k < |h'.blocks|
      && var e := ExtentOf(h'.blocks, h'.end, k);
      && e.at == h.blocks[k].at + HEADER && e.len >= size
      && e !in Live(h) && Live(h') == Live(h) + {e}
      && (HintLowest(h.blocks, h.lfree) ==> HintLowest(h'.blocks, h'.lfree))
  {
    hide Tiled, LiveOf, UsedSpan, Coalesced, HintOk, HintLowest, FirstFree, Cut, Mark;
    AllocBlocks(h, k, size);
    AllocShape(h, k, size);
    AllocHint(h, k, size);
  }

  // ---- rt_free and rt_realloc ----------------------------------------------------------------

  lemma ReleaseHint(h: Heap, k: nat)
    requires Inv(h) && k < |h.blocks|
    ensures var r := Release(h, k);
      && HintOk(r.blocks, r.end, r.lfree)
      && (HintLowest(h.blocks, h.lfree) ==> HintLowest(r.blocks, r.lfree))
  {
    var r := Release(h, k);
    if h.blocks[k].at < h.lfree {
      assert r.blocks[k].at == r.lfree;
    } else if h.lfree != h.end {
      var i :| 0 <= i < |h.blocks| && h.blocks[i].at == h.lfree && !h.blocks[i].used;
      assert r.blocks[i] == h.blocks[i];
    }
  }

  lemma ReleaseKeeps(h: Heap, k: nat)
    requires Inv(h) && k < |h.blocks| && h.blocks[k].used
    ensures var r := Release(h, k);
      && Sound(r) && CoalescedExcept(r.blocks, k)
      && Live(r) == Live(h) - {ExtentOf(h.blocks, h.end, k)}
  {
    hide HintOk, UsedSpan, LiveOf;
    SpanMark(h.blocks, h.end, k, false);
    LiveMark(h.blocks, h.end, k, false);
    ReleaseHint(h, k);
  }

  /** rt_free: the invariant is kept and exactly the freed extent leaves the live set. */
  lemma FreeKeeps(h: Heap, k: nat)
    requires Inv(h) && k < |h.blocks| && h.blocks[k].used
    ensures var h' := Free(h, k);
      && Inv(h') && Live(h') == Live(h) - {ExtentOf(h.blocks, h.end, k)}
      && (HintLowest(h.blocks, h.lfree) ==> HintLowest(h'.blocks, h'.lfree))
  {
    ReleaseHint(h, k);
    ReleaseKeeps(h, k);
    PlugKeeps(Release(h, k), k);
  }

  lemma CutHint(bs: seq<Block>, end: int, k: nat, at: nat, lfree: int)
    requires k < |bs| && HintOk(bs, end, lfree)
    ensures HintOk(Cut(bs, k, at), end, lfree)
  {
    CutIndex(bs, k, at);
    if lfree != end {
      var i :| 0 <= i < |bs| && bs[i].at == lfree && !bs[i].used;
      assert Cut(bs, k, at)[if i <= k then i else i + 1] == bs[i];
    }
  }

  lemma TrimKeeps(h: Heap, k: nat, words: nat)
    requires Inv(h) && k < |h.blocks| && h.blocks[k].used
    requires words + HEADER + MIN_DATA < Data(h.blocks, h.end, k)
    ensures var t := Trim(h, k, words);
      && Sound(t) && CoalescedExcept(t.blocks, k + 1)
      && Live(t) == Live(h) - {ExtentOf(h.blocks, h.end, k)} + {Extent(h.blocks[k].at + HEADER, words)}
  {
    hide Tiled, LiveOf, UsedSpan, HintOk;
    var at := h.blocks[k].at + HEADER + words;
    CutKeeps(h.blocks, h.end, k, words);
    CutHint(h.blocks, h.end, k, at, h.lfree);
    CutIndex(h.blocks, k, at);
  }

  /** rt_realloc's in-place path: the trimmed extent keeps its start, nothing else changes. */
  lemma ShrinkKeeps(h: Heap, k: nat, words: nat)
    requires Inv(h) && k < |h.blocks| && h.blocks[k].used
    requires words + HEADER + MIN_DATA < Data(h.blocks, h.end, k)
    ensures var h' := Shrink(h, k, words);
      && Inv(h')
      && Live(h') == Live(h) - {ExtentOf(h.blocks, h.end, k)} + {Extent(h.blocks[k].at + HEADER, words)}
  {
    TrimKeeps(h, k, words);
    PlugKeeps(Trim(h, k, words), k + 1);
  }
}
