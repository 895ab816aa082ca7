/** The allocator as its callers see it: one call at a time against the set of live extents, and
    whole runs of calls. */
module HeapRuns {
  import opened Base
  import opened HeapSpec
  import opened HeapLemmas
  import opened HeapOps

  // ---- One call ------------------------------------------------------------------------------

  /** Live blocks lie inside the heap and two of them are separated by at least a header. */
  lemma LiveDisjoint(h: Heap, e: Extent, f: Extent)
    requires Inv(h) && e in Live(h) && f in Live(h)
    ensures HEADER <= e.at && 0 <= e.len && e.at + e.len <= h.end
    ensures e == f || e.at + e.len + HEADER <= f.at || f.at + f.len + HEADER <= e.at
  {
    var bs := h.blocks;
    var i :| 0 <= i < |bs| && bs[i].used && e == ExtentOf(bs, h.end, i);
    var j :| 0 <= j < |bs| && bs[j].used && f == ExtentOf(bs, h.end, j);
    NextBounds(bs, h.end, i);
    NextBounds(bs, h.end, j);
  }

  lemma NextBounds(bs: seq<Block>, end: int, i: nat)
    requires Tiled(bs, end) && i < |bs|
    ensures bs[i].at + HEADER <= Next(bs, end, i) <= end
    ensures forall j :: i < j < |bs| ==> Next(bs, end, i) <= bs[j].at
  {
    forall j | i < j < |bs| ensures Next(bs, end, i) <= bs[j].at {
      assert j > i + 1 ==> bs[i + 1].at + HEADER <= bs[j].at;
    }
  }

  /** Blocks below the hint cannot serve a request, so the search may start at the hint. */
  lemma {:induction false} SearchSkips(h: Heap, i: nat, size: int)
    requires Inv(h) && HintLowest(h.blocks, h.lfree)
    requires i <= IndexOf(h.blocks, h.lfree, 0)
    ensures FirstFit(h, i, size) == FirstFit(h, IndexOf(h.blocks, h.lfree, 0), size)
    decreases |h.blocks| - i
  {
    var s := IndexOf(h.blocks, h.lfree, 0);
    if i < s {
      HintIndex(h);
      if h.blocks[i].at < MemSize(h) - size {
        SearchSkips(h, i + 1, size);
      } else {
        assert s < |h.blocks| ==> h.blocks[i].at + HEADER <= h.blocks[s].at;
      }
    }
  }

  /** The hint names a free block or, as heap_end, the position behind the last block; a lowest
      hint has only used blocks below it. */
  lemma HintIndex(h: Heap)
    requires Inv(h)
    ensures var s := IndexOf(h.blocks, h.lfree, 0);
      && (s < |h.blocks| ==> !h.blocks[s].used && h.blocks[s].at == h.lfree)
      && (s == |h.blocks| ==> h.lfree == h.end)
      && (HintLowest(h.blocks, h.lfree) ==> forall i :: 0 <= i < s ==> h.blocks[i].used)
  {
    var bs, s := h.blocks, IndexOf(h.blocks, h.lfree, 0);
    if h.lfree == h.end {
      forall i | 0 <= i < |bs| ensures bs[i].at < h.end { NextBounds(bs, h.end, i); }
    } else {
      var i :| 0 <= i < |bs| && bs[i].at == h.lfree && !bs[i].used;
      assert s <= i;
    }
    if HintLowest(bs, h.lfree) {
      forall i | 0 <= i < s ensures bs[i].used {
        assert s < |bs| ==> bs[i].at + HEADER <= bs[s].at;
        NextBounds(bs, h.end, i);
      }
    }
  }

  /** With a lowest hint rt_malloc takes the first block of the whole heap that can serve the
      request, and returns RT_NULL only when there is none, the size is zero or it exceeds the
      heap. */
  lemma MallocIsFirstFit(h: Heap, bytes: nat)
    requires Inv(h) && HintLowest(h.blocks, h.lfree)
    ensures var k := Fit(h, bytes); var size := Adjusted(bytes);
      && (k.Some? ==> Eligible(h, k.value, size) && forall j :: 0 <= j < k.value ==> !Eligible(h, j, size))
      && (k.None? <==> bytes == 0 || AlignedWords(bytes) > MemSize(h)
                       || forall j :: 0 <= j < |h.blocks| ==> !Eligible(h, j, size))
  {
    SearchSkips(h, 0, Adjusted(bytes));
    FirstFitIsFirst(h, 0, Adjusted(bytes));
  }

  /** rt_malloc against the set of live extents. */
  lemma MallocRefines(h: Heap, bytes: nat)
    requires Inv(h)
    ensures var (h', r) := Malloc(h, bytes);
      && Inv(h')
      && (HintLowest(h.blocks, h.lfree) ==> HintLowest(h'.blocks, h'.lfree))
      && (r.None? ==> h' == h)
      && (r.Some? ==> exists e: Extent ::
            && e.at == r.value && e.len >= Adjusted(bytes) && e !in Live(h)
            && Live(h') == Live(h) + {e})
  {
    hide Tiled, LiveOf, UsedSpan, Coalesced, HintOk, HintLowest, FirstFree, Alloc;
    var k := Fit(h, bytes);
    if k.Some? {
      FirstFitIsFirst(h, IndexOf(h.blocks, h.lfree, 0), Adjusted(bytes));
      AllocKeeps(h, k.value, Adjusted(bytes));
    }
  }

  /** The block handed out is as long as requested exactly when rounding the request up to whole
      words does not leave 32 bits; 0xFFFFFFFD and above round to zero and get a minimum block. */
  lemma RequestHonoured(h: Heap, bytes: nat)
    requires Inv(h) && bytes < 0x1_0000_0000 && Fit(h, bytes).Some?
    ensures var k := Fit(h, bytes).value; var h' := Malloc(h, bytes).0;
      && k < |h'.blocks|
      && (4 * Data(h'.blocks, h'.end, k) >= bytes <==> bytes <= 0xFFFF_FFFC)
  {
    hide Tiled, LiveOf, UsedSpan, Coalesced, HintOk, Alloc;
    var k := Fit(h, bytes).value;
    FirstFitIsFirst(h, IndexOf(h.blocks, h.lfree, 0), Adjusted(bytes));
    AllocKeeps(h, k, Adjusted(bytes));
    AllocLength(h, k, Adjusted(bytes));
    if bytes <= 0xFFFF_FFFC {
      assert (bytes + 3) % 0x1_0000_0000 == bytes + 3;
    } else {
      assert (bytes + 3) % 0x1_0000_0000 == bytes + 3 - 0x1_0000_0000;
    }
  }

  lemma AllocLength(h: Heap, k: nat, size: nat)
    requires Inv(h) && Eligible(h, k, size) && size >= MIN_DATA
    ensures var h' := Alloc(h, k, size);
      k < |h'.blocks| && size <= Data(h'.blocks, h'.end, k) < size + HEADER + MIN_DATA
  {
    hide Tiled, LiveOf, UsedSpan, Coalesced, HintOk, HintLowest, FirstFree;
    AllocShape(h, k, size);
    AllocBlocks(h, k, size);
    if Data(h.blocks, h.end, k) >= size + HEADER + MIN_DATA {
      CutIndex(Mark(h.blocks, k, true), k, h.blocks[k].at + HEADER + size);
    }
  }

  lemma ShrinkShape(h: Heap, k: nat, words: nat)
    requires k < |h.blocks| && h.blocks[k].used
    ensures var bs, at := h.blocks, h.blocks[k].at + HEADER + words;
      var h' := Shrink(h, k, words); var bs' := h'.blocks;
      && k + 1 < |bs'| && |bs| <= |bs'| <= |bs| + 1 && bs'[k + 1] == Block(at, false)
      && (forall j :: 0 <= j <= k ==> bs'[j] == bs[j])
      && (forall j :: k + 1 < j < |bs'| ==> bs'[j] == bs[j + |bs| - |bs'|])
      && h'.lfree == (if k + 1 < |bs| && !bs[k + 1].used && h.lfree == bs[k + 1].at then at else h.lfree)
  {
    var bs, at := h.blocks, h.blocks[k].at + HEADER + words;
    CutIndex(bs, k, at);
    var t := Trim(h, k, words);
    if k + 1 < |bs| && !bs[k + 1].used {
      var d := Drop(t.blocks, k + 2);
      assert forall j :: 0 <= j < |d| ==> d[j] == t.blocks[if j < k + 2 then j else j + 1];
      assert Shrink(h, k, words).blocks == d;
    } else {
      assert Shrink(h, k, words) == t;
    }
  }

  /** rt_realloc's shrink keeps the hint lowest exactly when the hint lies below the trimmed block
      or is the block right behind it; otherwise the new free block is missed. */
  lemma ShrinkLowestExactly(h: Heap, k: nat, words: nat)
    requires Inv(h) && HintLowest(h.blocks, h.lfree) && k < |h.blocks| && h.blocks[k].used
    requires words + HEADER + MIN_DATA < Data(h.blocks, h.end, k)
    ensures var h' := Shrink(h, k, words);
      HintLowest(h'.blocks, h'.lfree) <==>
        h.lfree < h.blocks[k].at || (k + 1 < |h.blocks| && h.lfree == h.blocks[k + 1].at)
  {
    hide LiveOf, UsedSpan, Coalesced, Shrink;
    ShrinkShape(h, k, words);
    HintIndex(h);
    NextBounds(h.blocks, h.end, k);
    var bs, bs' := h.blocks, Shrink(h, k, words).blocks;
    var s := IndexOf(bs, h.lfree, 0);
    assert s < |bs| && s != k ==> bs[s].at + HEADER <= bs[k].at || Next(bs, h.end, k) <= bs[s].at;
    assert s < k ==> forall j :: k < j < |bs| ==> bs[k].at + HEADER <= bs[j].at;
    if s == k + 1 {
      assert forall j :: s < j < |bs| ==> bs[s].at + HEADER <= bs[j].at;
    }
  }

  // ---- Pointers ------------------------------------------------------------------------------

  /** A pointer is live when it starts a live extent, and then that extent is its block's. */
  lemma LivePtr(h: Heap, e: Extent)
    requires Inv(h) && e in Live(h)
    ensures IsLive(h, e.at) && ExtentOf(h.blocks, h.end, BlockOf(h, e.at)) == e
    ensures 0 <= e.at < h.end
  {
    var i :| 0 <= i < |h.blocks| && h.blocks[i].used && e == ExtentOf(h.blocks, h.end, i);
    var k := BlockOf(h, e.at);
    assert k <= i;
    NextBounds(h.blocks, h.end, i);
    if i < |h.blocks| - 1 {
      NextBounds(h.blocks, h.end, i + 1);
    }
  }

  lemma PtrExtent(h: Heap, p: int)
    requires IsLive(h, p)
    ensures var e := ExtentOf(h.blocks, h.end, BlockOf(h, p)); e in Live(h) && e.at == p
  {}

  /** rt_free against the set of live extents. */
  lemma FreeRefines(h: Heap, e: Extent)
    requires Inv(h) && e in Live(h)
    ensures IsLive(h, e.at)
    ensures var h' := FreePtr(h, e.at);
      && Inv(h') && Live(h') == Live(h) - {e}
      && (HintLowest(h.blocks, h.lfree) ==> HintLowest(h'.blocks, h'.lfree))
  {
    hide Tiled, LiveOf, UsedSpan, Coalesced, HintOk, HintLowest, Free;
    LivePtr(h, e);
    FreeKeeps(h, BlockOf(h, e.at));
  }

  /** rt_realloc of a live block: on success exactly the old extent is replaced, in place with the
      rounded size or by a new extent at least that long; RT_NULL leaves everything as it was. */
  lemma ReallocRefines(h: Heap, e: Extent, bytes: nat)
    requires Inv(h) && e in Live(h)
    ensures IsLive(h, e.at)
    ensures var (h', r) := Realloc(h, Some(e.at), bytes);
      && Inv(h')
      && (r.None? ==> h' == h)
      && (r.Some? ==> exists f: Extent ::
            && f.at == r.value && f.len >= AlignedWords(bytes)
            && (f.at == e.at || f !in Live(h)) && Live(h') == Live(h) - {e} + {f})
  {
    hide Tiled, LiveOf, UsedSpan, Coalesced, HintOk, HintLowest, Shrink, Malloc, FreePtr;
    LivePtr(h, e);
    var k, words := BlockOf(h, e.at), AlignedWords(bytes);
    assert Data(h.blocks, h.end, k) == e.len;
    if words > MemSize(h) {
    } else if e.len == words {
      assert Live(h) == Live(h) - {e} + {e};
    } else if words + HEADER + MIN_DATA < e.len {
      ShrinkKeeps(h, k, words);
      var f := Extent(e.at, words);
      assert Live(Shrink(h, k, words)) == Live(h) - {e} + {f};
    } else {
      MoveRefines(h, e, words);
    }
  }

  lemma MoveRefines(h: Heap, e: Extent, words: nat)
    requires Inv(h) && e in Live(h) && 4 * words < 0x1_0000_0000
    ensures var (h', r) := Move(h, e.at, words);
      && Inv(h')
      && (r.None? ==> h' == h)
      && (r.Some? ==> exists f: Extent ::
            f.at == r.value && f.len >= words && f !in Live(h) && Live(h') == Live(h) - {e} + {f})
  {
    hide Tiled, LiveOf, UsedSpan, Coalesced, HintOk, HintLowest, Malloc, FreePtr;
    MallocRefines(h, 4 * words);
    var (h1, r) := Malloc(h, 4 * words);
    if r.Some? {
      var f: Extent :| f.at == r.value && f.len >= Adjusted(4 * words) && f !in Live(h)
        && Live(h1) == Live(h) + {f};
      FreeRefines(h1, e);
      assert Live(FreePtr(h1, e.at)) == Live(h) - {e} + {f};
    }
  }

  // ---- Runs ----------------------------------------------------------------------------------

  datatype Call = CallMalloc(bytes: nat) | CallFree(p: int) | CallRealloc(q: Option<int>, size: nat)

  /** rt_free and rt_realloc assert that a pointer into the heap belongs to a used block. */
  predicate Allowed(h: Heap, c: Call) {
    match c
    case CallMalloc(_) => true
    case CallFree(p) => IsLive(h, p)
    case CallRealloc(q, _) => q.Some? && 0 <= q.value < h.end ==> IsLive(h, q.value)
  }

  function After(h: Heap, c: Call): Heap
    requires Allowed(h, c)
  {
    match c
    case CallMalloc(bytes) => Malloc(h, bytes).0
    case CallFree(p) => FreePtr(h, p)
    case CallRealloc(q, size) => Realloc(h, q, size).0
  }

  predicate AllowedRun(h: Heap, cs: seq<Call>)
    decreases |cs|
  {
    cs == [] || (Allowed(h, cs[0]) && AllowedRun(After(h, cs[0]), cs[1..]))
  }

  function Run(h: Heap, cs: seq<Call>): Heap
    requires AllowedRun(h, cs)
    decreases |cs|
  {
    if cs == [] then h else Run(After(h, cs[0]), cs[1..])
  }

  lemma CallKeeps(h: Heap, c: Call)
    requires Inv(h) && Allowed(h, c)
    ensures Inv(After(h, c))
    ensures HintLowest(h.blocks, h.lfree) && !c.CallRealloc?
        ==> HintLowest(After(h, c).blocks, After(h, c).lfree)
  {
    hide Tiled, LiveOf, UsedSpan, Coalesced, HintOk, HintLowest, Malloc, FreePtr, Shrink, Move;
    match c
    case CallMalloc(bytes) => MallocRefines(h, bytes);
    case CallFree(p) =>
      PtrExtent(h, p);
      FreeRefines(h, ExtentOf(h.blocks, h.end, BlockOf(h, p)));
    case CallRealloc(q, size) =>
      if q.None? {
        MallocRefines(h, 4 * AlignedWords(size));
      } else if 0 <= q.value < h.end {
        PtrExtent(h, q.value);
        ReallocRefines(h, ExtentOf(h.blocks, h.end, BlockOf(h, q.value)), size);
      }
  }

  /** A fresh heap is in order if and only if it has room for a smallest block; what becomes of the
      others is TinyHeapSpins. */
  lemma InitInv(words: nat)
    ensures Inv(Init(words)) <==> words >= MIN_DATA
    ensures HintLowest(Init(words).blocks, Init(words).lfree) && Live(Init(words)) == {}
  {
    var h := Init(words);
    assert h.blocks[1..] == [];
    assert h.blocks[0].at == h.lfree && HintOk(h.blocks, h.end, h.lfree);
    assert UsedSpan(h.blocks, h.end) == 0;
  }

  // ---- Where the exceptions are met ----------------------------------------------------------

  /** A request of all the payload of a fresh heap is refused although its one block fits exactly. */
  lemma ExactFitRefused(words: nat)
    requires MIN_DATA <= words && 4 * words + 3 < 0x1_0000_0000
    ensures Malloc(Init(words), 4 * words) == (Init(words), None)
    ensures var h := Init(words);
      |h.blocks| == 1 && !h.blocks[0].used && Data(h.blocks, h.end, 0) == words == Adjusted(4 * words)
  {
    assert (4 * words + 3) % 0x1_0000_0000 / 4 == words;
    assert IndexOf(Init(words).blocks, 0, 0) == 0;
  }

  /** A request of nearly 4 GB is granted, with a block of 12 bytes. */
  lemma HugeRequestGranted()
    ensures Inv(Init(10)) && Fit(Init(10), 0xFFFF_FFFD) == Some(0)
    ensures var h' := Malloc(Init(10), 0xFFFF_FFFD).0;
      |h'.blocks| > 0 && h'.blocks[0].used && 4 * Data(h'.blocks, h'.end, 0) == 12
  {
    InitInv(10);
    assert AlignedWords(0xFFFF_FFFD) == 0;
    assert IndexOf(Init(10).blocks, 0, 0) == 0;
  }

  /** One block that takes the whole heap, then made shorter: the hint stays at heap_end although there
      is a free block now. */
  lemma HintTooHigh()
    ensures AllowedRun(Init(20), [CallMalloc(64), CallRealloc(Some(3), 16)])
    ensures var h := Run(Init(20), [CallMalloc(64), CallRealloc(Some(3), 16)]);
      && h.blocks == [Block(0, true), Block(7, false)] && h.lfree == h.end
      && Inv(h) && !HintLowest(h.blocks, h.lfree)
  {
    var cs := [CallMalloc(64), CallRealloc(Some(3), 16)];
    var h0, h1 := Init(20), Heap([Block(0, true)], 23, 23, 23, 23);
    assert After(h0, cs[0]) == h1 by { WholeBlock(); }
    assert IndexOf(h1.blocks, 0, 0) == 0;
    assert cs[1..] == [cs[1]] && cs[1..][1..] == [];
    var h2 := After(h1, cs[1]);
    assert h2.blocks == [Block(0, true), Block(7, false)] && h2.lfree == 23;
    assert Run(h0, cs) == Run(h1, cs[1..]) == Run(h2, []);
    InitInv(20);
    RunKeeps(h0, cs);
    assert !h2.blocks[1].used;
  }

  lemma WholeBlock()
    ensures Malloc(Init(20), 64).0 == Heap([Block(0, true)], 23, 23, 23, 23)
  {
    var h := Init(20);
    assert IndexOf(h.blocks, 0, 0) == 0 && AlignedWords(64) == 16;
    assert FirstFit(h, 0, 16) == Some(0);
    var m := Mark(h.blocks, 0, true);
    assert m == [Block(0, true)];
    assert FirstFree(m, 23, 0) == FirstFree(m, 23, 1) == 23;
  }

  /** The search of rt_malloc in a fresh heap is still running after n rounds. Offsets and the loop
      bound are unsigned; the only block is followed by heap_end, which is in use and its own
      successor. */
  predicate Spins(words: nat, size: nat, ptr: nat, n: nat)
    decreases n
  {
    && ptr < (words - size) % 0x4000_0000
    && (ptr == 0 ==> words < size)
    && (n > 0 ==> Spins(words, size, words + HEADER, n - 1))
  }

  lemma {:induction false} SpinsOn(words: nat, size: nat, ptr: nat, n: nat)
    requires words < size <= MIN_DATA && ptr <= words + HEADER
    ensures Spins(words, size, ptr, n)
    decreases n
  {
    assert (words - size) % 0x4000_0000 == words - size + 0x4000_0000;
    if n > 0 { SpinsOn(words, size, words + HEADER, n - 1); }
  }

  /** The first request that passes the size test makes rt_malloc loop for ever if and only if the heap
      has fewer than three words of payload, which rt_system_heap_init does not refuse. */
  lemma TinyHeapSpins(words: nat, bytes: nat)
    requires bytes > 0 && AlignedWords(bytes) <= words < 0x4000_0000
    ensures (forall n: nat :: Spins(words, Adjusted(bytes), 0, n)) <==> words < MIN_DATA
  {
    if words < MIN_DATA {
      forall n: nat ensures Spins(words, Adjusted(bytes), 0, n) { SpinsOn(words, Adjusted(bytes), 0, n); }
    } else {
      assert !Spins(words, Adjusted(bytes), 0, 0);
    }
  }

  /** Any run of allocator calls keeps the heap tiled, coalesced and accounted for. */
  lemma {:induction false} RunKeeps(h: Heap, cs: seq<Call>)
    requires Inv(h) && AllowedRun(h, cs)
    ensures Inv(Run(h, cs))
    ensures HintLowest(h.blocks, h.lfree) && (forall c :: c in cs ==> !c.CallRealloc?)
        ==> HintLowest(Run(h, cs).blocks, Run(h, cs).lfree)
    decreases |cs|
  {
    if cs != [] {
      CallKeeps(h, cs[0]);
      RunKeeps(After(h, cs[0]), cs[1..]);
    }
  }

  /** After any run from a fresh heap, used and free spans add up to the whole of it, and max_mem is the highest
      used_mem of the run. */
  lemma RunConserves(words: nat, cs: seq<Call>)
    requires words >= MIN_DATA && AllowedRun(Init(words), cs)
    ensures var h := Run(Init(words), cs);
      && Inv(h) && h.end == words + HEADER
      && h.used + FreeSpan(h.blocks, h.end) == words + HEADER && h.max == Peak(Init(words), cs, 0)
  {
    InitInv(words);
    RunKeeps(Init(words), cs);
    MaxIsPeak(Init(words), cs);
    RunEnd(Init(words), cs);
    var h := Run(Init(words), cs);
    SpansCover(h.blocks, h.end);
  }

  lemma {:induction false} RunEnd(h: Heap, cs: seq<Call>)
    requires AllowedRun(h, cs)
    ensures Run(h, cs).end == h.end
    decreases |cs|
  {
    if cs != [] {
      RunEnd(After(h, cs[0]), cs[1..]);
    }
  }

  /** The highest value used_mem reaches while a call is served. */
  function PeakOf(h: Heap, c: Call): int
    requires Allowed(h, c)
  {
    match c
    case CallMalloc(bytes) => Malloc(h, bytes).0.used
    case CallFree(_) => h.used
    case CallRealloc(q, size) => Max(h.used, if Moves(h, q, size) then Malloc(h, 4 * AlignedWords(size)).0.used else h.used)
  }

  predicate Moves(h: Heap, q: Option<int>, size: nat)
    requires q.Some? && 0 <= q.value < h.end ==> IsLive(h, q.value)
  {
    && AlignedWords(size) <= MemSize(h)
    && (q.None? ||
        (0 <= q.value < h.end
         && var had := Data(h.blocks, h.end, BlockOf(h, q.value));
            had != AlignedWords(size) && AlignedWords(size) + HEADER + MIN_DATA >= had))
  }

  function Peak(h: Heap, cs: seq<Call>, m: int): int
    requires AllowedRun(h, cs)
    decreases |cs|
  {
    if cs == [] then m else Peak(After(h, cs[0]), cs[1..], Max(m, PeakOf(h, cs[0])))
  }

  lemma CallPeak(h: Heap, c: Call)
    requires Inv(h) && Allowed(h, c)
    ensures After(h, c).max == Max(h.max, PeakOf(h, c))
  {
    hide Tiled, LiveOf, UsedSpan, Coalesced, HintOk, HintLowest, IsLive, Fit, Cut, Mark, FirstFree;
  }

  /** max_mem is the maximum used_mem has reached over the run. */
  lemma {:induction false} MaxIsPeak(h: Heap, cs: seq<Call>)
    requires Inv(h) && AllowedRun(h, cs)
    ensures Run(h, cs).max == Peak(h, cs, h.max)
    decreases |cs|
  {
    if cs != [] {
      CallKeeps(h, cs[0]);
      CallPeak(h, cs[0]);
      MaxIsPeak(After(h, cs[0]), cs[1..]);
    }
  }
}
