/** What each call of the heap allocator answers and leaves behind, for its caller. The set of live
    extents fixes the list of blocks, so a statement about the extents is one about the headers. */
module HeapEffects {
  import opened Base
  import opened HeapSpec
  import opened HeapOps
  import opened HeapRuns

  // ---- The extents fix the blocks ------------------------------------------------------------

  lemma UsedSame(h: Heap, g: Heap, i: nat)
    requires Inv(h) && Inv(g) && h.end == g.end && Live(h) == Live(g)
    requires i < |h.blocks| && i < |g.blocks| && h.blocks[i].at == g.blocks[i].at && h.blocks[i].used
    ensures g.blocks[i].used && Next(g.blocks, g.end, i) == Next(h.blocks, h.end, i)
  {
    assert ExtentOf(h.blocks, h.end, i) in Live(g);
    var j :| 0 <= j < |g.blocks| && g.blocks[j].used && ExtentOf(g.blocks, g.end, j) == ExtentOf(h.blocks, h.end, i);
    assert g.blocks[j].at == g.blocks[i].at;
  }

  /** Behind a free block stands a used one, and that one is live in both heaps. */
  lemma BehindFree(h: Heap, g: Heap, i: nat)
    requires Inv(h) && Inv(g) && h.end == g.end && Live(h) == Live(g)
    requires i < |h.blocks| && i < |g.blocks| && h.blocks[i].at == g.blocks[i].at
    requires !h.blocks[i].used && !g.blocks[i].used
    ensures Next(g.blocks, g.end, i) <= Next(h.blocks, h.end, i)
  {
    if i + 1 < |h.blocks| {
      assert h.blocks[i + 1].used;
      assert ExtentOf(h.blocks, h.end, i + 1) in Live(g);
      var j :| 0 <= j < |g.blocks| && g.blocks[j].used && ExtentOf(g.blocks, g.end, j) == ExtentOf(h.blocks, h.end, i + 1);
      assert g.blocks[j].at == h.blocks[i + 1].at > g.blocks[i].at;
      assert j > i;
    }
    NextBounds(g.blocks, g.end, i);
  }

  lemma {:induction false} SameFrom(h: Heap, g: Heap, i: nat)
    requires Inv(h) && Inv(g) && h.end == g.end && Live(h) == Live(g)
    requires i < |h.blocks| && i < |g.blocks| && h.blocks[i].at == g.blocks[i].at
    ensures h.blocks[i..] == g.blocks[i..]
    decreases |h.blocks| - i
  {
    hide LiveOf, UsedSpan, HintOk, Coalesced;
    if h.blocks[i].used {
      UsedSame(h, g, i);
    } else if g.blocks[i].used {
      UsedSame(g, h, i);
    } else {
      BehindFree(h, g, i);
      BehindFree(g, h, i);
    }
    assert i + 1 < |h.blocks| ==> Next(h.blocks, h.end, i) < h.end;
    assert i + 1 < |g.blocks| ==> Next(g.blocks, g.end, i) < g.end;
    if i + 1 < |h.blocks| { SameFrom(h, g, i + 1); }
    assert h.blocks[i..] == [h.blocks[i]] + h.blocks[i + 1..];
    assert g.blocks[i..] == [g.blocks[i]] + g.blocks[i + 1..];
  }

  /** Two heaps in order with the same live extents have the same blocks and the same used_mem. */
  lemma BlocksUnique(h: Heap, g: Heap)
    requires Inv(h) && Inv(g) && h.end == g.end && Live(h) == Live(g)
    ensures h.blocks == g.blocks && h.used == g.used
    ensures HintLowest(h.blocks, h.lfree) && HintLowest(g.blocks, g.lfree) ==> h.lfree == g.lfree
  {
    SameFrom(h, g, 0);
    assert h.blocks[0..] == h.blocks && g.blocks[0..] == g.blocks;
  }

  // ---- rt_malloc -----------------------------------------------------------------------------

  /** How many words of payload a request of `size` words gets out of a free block of `had` words: what
      it asks for if the rest can hold a header and a smallest block, all of it otherwise. */
  function Granted(had: int, size: int): int {
    if size + HEADER + MIN_DATA <= had then size else had
  }

  /** The lowest free block at word `from` or above, or heap_end. */
  ghost predicate NextFree(h: Heap, from: int, l: int) {
    && HintOk(h.blocks, h.end, l) && from <= l
    && forall i :: 0 <= i < |h.blocks| && !h.blocks[i].used && from <= h.blocks[i].at ==> l <= h.blocks[i].at
  }

  lemma AllocDoes(h: Heap, k: nat, size: nat)
    requires Inv(h) && Eligible(h, k, size) && size >= MIN_DATA
    ensures var h' := Alloc(h, k, size); var at := h.blocks[k].at;
      && Inv(h') && h'.end == h.end
      && Live(h') == Live(h) + {Extent(at + HEADER, Granted(Data(h.blocks, h.end, k), size))}
      && (h.lfree != at ==> h'.lfree == h.lfree)
      && (h.lfree == at ==> NextFree(h', at, h'.lfree))
  {
    AllocKeeps(h, k, size);
    AllocShape(h, k, size);
    AllocLengthIs(h, k, size);
    if h.lfree == h.blocks[k].at { MovedOn(h, k, size); }
    hide Inv, Live, Alloc, HintLowest, NextFree, Eligible;
  }

  lemma AllocLengthIs(h: Heap, k: nat, size: nat)
    requires Inv(h) && Eligible(h, k, size) && size >= MIN_DATA
    ensures var h' := Alloc(h, k, size);
      k < |h'.blocks| && Data(h'.blocks, h'.end, k) == Granted(Data(h.blocks, h.end, k), size)
  {
    hide Tiled, LiveOf, UsedSpan, Coalesced, HintOk, HintLowest, FirstFree;
    AllocShape(h, k, size);
    CutIndex(Mark(h.blocks, k, true), k, h.blocks[k].at + HEADER + size);
  }

  lemma MovedOn(h: Heap, k: nat, size: nat)
    requires Inv(h) && Eligible(h, k, size) && size >= MIN_DATA && h.lfree == h.blocks[k].at
    requires Inv(Alloc(h, k, size)) && k < |Alloc(h, k, size).blocks|
    requires forall i :: 0 <= i < k ==> Alloc(h, k, size).blocks[i] == h.blocks[i]
    ensures NextFree(Alloc(h, k, size), h.lfree, Alloc(h, k, size).lfree)
  {
    var h' := Alloc(h, k, size);
    FirstFreeHint(h'.blocks, h'.end, k);
    FirstFreeFrom(h'.blocks, h'.end, k);
    hide Coalesced, UsedSpan, LiveOf;
    assert forall i :: 0 <= i < k ==> h'.blocks[i].at < h.lfree;
    assert h'.blocks[k].at == h.lfree;
  }

  lemma {:induction false} FirstFreeFrom(bs: seq<Block>, end: nat, i: nat)
    requires Tiled(bs, end) && i < |bs|
    ensures bs[i].at <= FirstFree(bs, end, i)
    decreases |bs| - i
  {
    if i + 1 < |bs| && bs[i].used { FirstFreeFrom(bs, end, i + 1); }
  }

  /** rt_malloc: RT_NULL and nothing changed for zero bytes, for more than the heap and when no block
      from the hint on can serve; otherwise the first that can, cut to the request if the rest is worth
      a block. The hint moves on only when it was this block. */
  lemma MallocOutcome(h: Heap, bytes: nat)
    requires Inv(h)
    ensures var size := Adjusted(bytes); var (h', r) := Malloc(h, bytes);
      && (r.None? <==> bytes == 0 || AlignedWords(bytes) > MemSize(h)
                       || forall j :: 0 <= j < |h.blocks| && h.lfree <= h.blocks[j].at ==> !Eligible(h, j, size))
      && (r.None? ==> h' == h)
      && (r.Some? ==> exists k :: Serves(h, h', r.value, k, size))
  {
    hide Inv, Live, Eligible, Alloc, FirstFit, IndexOf, HintOk, NextFree, Granted, AlignedWords;
    FromHint(h, Adjusted(bytes));
    var k := Fit(h, bytes);
    if k.Some? {
      AllocDoes(h, k.value, Adjusted(bytes));
      assert Serves(h, Malloc(h, bytes).0, Malloc(h, bytes).1.value, k.value, Adjusted(bytes));
    }
  }

  /** Block k, the first from the hint on that can, serves a request of `size` words. */
  ghost predicate Serves(h: Heap, h': Heap, p: int, k: nat, size: nat) {
    && Eligible(h, k, size) && h.lfree <= h.blocks[k].at && p == h.blocks[k].at + HEADER
    && (forall j :: 0 <= j < k && h.lfree <= h.blocks[j].at ==> !Eligible(h, j, size))
    && Inv(h') && h'.end == h.end
    && Live(h') == Live(h) + {Extent(p, Granted(Data(h.blocks, h.end, k), size))}
    && (h.lfree != h.blocks[k].at ==> h'.lfree == h.lfree)
    && (h.lfree == h.blocks[k].at ==> NextFree(h', h.lfree, h'.lfree))
  }

  lemma FromHint(h: Heap, size: int)
    requires Inv(h)
    ensures var r := FirstFit(h, IndexOf(h.blocks, h.lfree, 0), size);
      && (r.Some? ==> Eligible(h, r.value, size) && h.lfree <= h.blocks[r.value].at)
      && (forall j :: 0 <= j < (if r.Some? then r.value else |h.blocks|) && h.lfree <= h.blocks[j].at
            ==> !Eligible(h, j, size))
  {
    HintIndex(h);
    var s := IndexOf(h.blocks, h.lfree, 0);
    FirstFitIsFirst(h, s, size);
    forall j | 0 <= j < |h.blocks| ensures s <= j <==> h.lfree <= h.blocks[j].at {
      NextBounds(h.blocks, h.end, j);
      if s < |h.blocks| { NextBounds(h.blocks, h.end, s); }
    }
    hide Inv, Eligible, FirstFit;
  }

  // ---- rt_free -------------------------------------------------------------------------------

  /** rt_free: the live extents lose this one, which fixes the blocks; the hint moves down to the free
      block that now holds it, unless it was lower already. */
  lemma FreeOutcome(h: Heap, e: Extent)
    requires Inv(h) && e in Live(h)
    ensures IsLive(h, e.at)
    ensures var h' := FreePtr(h, e.at);
      && Inv(h') && h'.end == h.end && Live(h') == Live(h) - {e}
      && (h.lfree < e.at - HEADER ==> h'.lfree == h.lfree)
      && (h.lfree >= e.at - HEADER ==> exists b: nat :: Holds(h', b, e) && h'.lfree == h'.blocks[b].at)
  {
    FreeRefines(h, e);
    LivePtr(h, e);
    FreeHint(h, BlockOf(h, e.at));
    hide Inv, Live, Free, BlockOf;
  }

  /** Free block b contains the freed extent. */
  predicate Holds(h: Heap, b: nat, e: Extent) {
    && b < |h.blocks| && !h.blocks[b].used
    && h.blocks[b].at + HEADER <= e.at && e.at + e.len <= Next(h.blocks, h.end, b)
  }

  lemma FreeHint(h: Heap, k: nat)
    requires Inv(h) && k < |h.blocks| && h.blocks[k].used
    ensures var h' := Free(h, k); var e := ExtentOf(h.blocks, h.end, k);
      && h'.end == h.end
      && (h.lfree < h.blocks[k].at ==> h'.lfree == h.lfree)
      && (h.lfree >= h.blocks[k].at ==> exists b: nat :: Holds(h', b, e) && h'.lfree == h'.blocks[b].at)
  {
    hide UsedSpan, LiveOf, Coalesced, HintOk;
    var r := Release(h, k);
    var f := PlugForward(r, k);
    ForwardHolds(r, k);
    BackwardHolds(r, f, k);
  }

  lemma ForwardHolds(r: Heap, k: nat)
    requires Tiled(r.blocks, r.end) && k < |r.blocks| && !r.blocks[k].used && r.lfree <= r.blocks[k].at
    ensures var f := PlugForward(r, k);
      && k < |f.blocks| && f.end == r.end && f.lfree == r.lfree
      && (forall i :: 0 <= i <= k ==> f.blocks[i] == r.blocks[i])
      && Next(r.blocks, r.end, k) <= Next(f.blocks, f.end, k)
  {
    NextBounds(r.blocks, r.end, k);
    if k + 1 < |r.blocks| && !r.blocks[k + 1].used {
      assert forall i :: 0 <= i <= k ==> Drop(r.blocks, k + 1)[i] == r.blocks[i];
      NextBounds(r.blocks, r.end, k + 1);
    }
  }

  lemma BackwardHolds(r: Heap, f: Heap, k: nat)
    requires Tiled(r.blocks, r.end) && k < |r.blocks| && !r.blocks[k].used && r.lfree <= r.blocks[k].at
    requires k < |f.blocks| && f.end == r.end && f.lfree == r.lfree
    requires forall i :: 0 <= i <= k ==> f.blocks[i] == r.blocks[i]
    requires Next(r.blocks, r.end, k) <= Next(f.blocks, f.end, k)
    ensures var h' := PlugBackward(f, k);
      && h'.end == r.end && (r.lfree < r.blocks[k].at ==> h'.lfree == r.lfree)
      && (r.lfree == r.blocks[k].at ==>
            exists b: nat :: Holds(h', b, ExtentOf(r.blocks, r.end, k)) && h'.lfree == h'.blocks[b].at)
  {
    var h' := PlugBackward(f, k);
    var b := if k > 0 && !f.blocks[k - 1].used then k - 1 else k;
    assert h'.blocks[b] == f.blocks[b];
    assert b < k ==> r.blocks[b].at + HEADER <= r.blocks[k].at;
    assert Holds(h', b, ExtentOf(r.blocks, r.end, k));
  }

  /** A block that is taken and given back leaves the blocks and used_mem as they were, and a lowest
      hint too. */
  lemma MallocThenFree(h: Heap, bytes: nat)
    requires Inv(h) && Malloc(h, bytes).1.Some?
    ensures var (h', r) := Malloc(h, bytes);
      && IsLive(h', r.value)
      && FreePtr(h', r.value).blocks == h.blocks && FreePtr(h', r.value).used == h.used
      && (HintLowest(h.blocks, h.lfree) ==> FreePtr(h', r.value).lfree == h.lfree)
  {
    hide Inv, Live, Malloc, FreePtr, HintLowest, Adjusted;
    MallocRefines(h, bytes);
    MallocEnd(h, bytes);
    var (h', r) := Malloc(h, bytes);
    var e: Extent :| e.at == r.value && e !in Live(h) && Live(h') == Live(h) + {e};
    assert e in Live(h');
    FreeRefines(h', e);
    FreeEnd(h', e.at);
    assert Live(FreePtr(h', e.at)) == Live(h);
    BlocksUnique(FreePtr(h', e.at), h);
  }

  lemma MallocEnd(h: Heap, bytes: nat)
    ensures Malloc(h, bytes).0.end == h.end
  {}

  lemma FreeEnd(h: Heap, p: int)
    requires IsLive(h, p)
    ensures FreePtr(h, p).end == h.end
  {}

  // ---- rt_realloc ----------------------------------------------------------------------------

  lemma RoundedWords(bytes: nat)
    ensures AlignedWords(4 * AlignedWords(bytes)) == AlignedWords(bytes)
    ensures bytes <= 0xFFFF_FFFC ==> (AlignedWords(bytes) == 0 <==> bytes == 0)
    ensures 0xFFFF_FFFC < bytes < 0x1_0000_0000 ==> AlignedWords(bytes) == 0
  {
    var w := AlignedWords(bytes);
    assert (4 * w + 3) % 0x1_0000_0000 == 4 * w + 3;
    if bytes <= 0xFFFF_FFFC {
      assert (bytes + 3) % 0x1_0000_0000 == bytes + 3;
    } else if bytes < 0x1_0000_0000 {
      assert (bytes + 3) % 0x1_0000_0000 == bytes + 3 - 0x1_0000_0000;
    }
  }

  /** rt_realloc of RT_NULL is rt_malloc, except for a request that rounding makes zero: it gets RT_NULL
      from rt_realloc, also where rt_malloc hands out a smallest block. */
  lemma ReallocNull(h: Heap, bytes: nat)
    requires bytes < 0x1_0000_0000
    ensures Realloc(h, None, bytes) == Malloc(h, bytes) <==> bytes <= 0xFFFF_FFFC || Malloc(h, bytes).1.None?
    ensures bytes > 0xFFFF_FFFC ==> Realloc(h, None, bytes) == (h, None)
  {
    RoundedWords(bytes);
    hide AlignedWords, FirstFit, IndexOf, Alloc;
  }

  /** rt_realloc of a pointer that is not in the heap hands it back, or RT_NULL if the request is too
      large; nothing changes. */
  lemma ReallocOutside(h: Heap, p: int, bytes: nat)
    requires !(0 <= p < h.end)
    ensures Realloc(h, Some(p), bytes) == (h, if AlignedWords(bytes) > MemSize(h) then None else Some(p))
  {}

  /** rt_realloc of a live block. More than the heap: RT_NULL and nothing changed. The size it has: nothing
      changed. So much less that a block fits behind: the same pointer with exactly the rounded size.
      Otherwise what rt_malloc answers for the rounded size, and on success the old block is free. */
  lemma ReallocOutcome(h: Heap, e: Extent, bytes: nat)
    requires Inv(h) && e in Live(h)
    ensures IsLive(h, e.at)
    ensures var words := AlignedWords(bytes); var (h', r) := Realloc(h, Some(e.at), bytes);
      && (words > MemSize(h) ==> (h', r) == (h, None))
      && (words <= MemSize(h) && words == e.len ==> (h', r) == (h, Some(e.at)))
      && (words <= MemSize(h) && words + HEADER + MIN_DATA < e.len ==>
            r == Some(e.at) && Inv(h') && Live(h') == Live(h) - {e} + {Extent(e.at, words)})
      && (words <= MemSize(h) && words != e.len && words + HEADER + MIN_DATA >= e.len ==>
            r == Malloc(h, 4 * words).1 && (r.None? ==> h' == h)
            && (r.Some? ==> Inv(h') && Live(h') == Live(Malloc(h, 4 * words).0) - {e}))
  {
    hide Inv, Live, Shrink, Malloc, FreePtr, AlignedWords;
    LivePtr(h, e);
    LiveIndex(h, e);
    var k, words := BlockOf(h, e.at), AlignedWords(bytes);
    hide IsLive, BlockOf;
    if words > MemSize(h) || words == e.len {
    } else if words + HEADER + MIN_DATA < e.len {
      ShrinkKeeps(h, k, words);
    } else {
      MoveDoes(h, e, words);
    }
  }

  lemma LiveIndex(h: Heap, e: Extent)
    requires Inv(h) && e in Live(h)
    ensures IsLive(h, e.at) && 0 <= e.at < h.end
    ensures Data(h.blocks, h.end, BlockOf(h, e.at)) == e.len
  {
    LivePtr(h, e);
  }

  lemma MoveDoes(h: Heap, e: Extent, words: nat)
    requires Inv(h) && e in Live(h)
    ensures var (h', r) := Move(h, e.at, words);
      && r == Malloc(h, 4 * words).1 && (r.None? ==> h' == h)
      && (r.Some? ==> Inv(h') && Live(h') == Live(Malloc(h, 4 * words).0) - {e})
  {
    hide Inv, Live, Malloc, FreePtr, HintLowest, Adjusted;
    MallocRefines(h, 4 * words);
    var h1 := Malloc(h, 4 * words).0;
    if Malloc(h, 4 * words).1.Some? {
      var f: Extent :| f !in Live(h) && Live(h1) == Live(h) + {f};
      assert e in Live(h1);
      FreeRefines(h1, e);
    }
  }
}
