/** The small-memory heap (software/src/mem.c) as a value: the list of its blocks in address order,
    the lowest-free hint and the usage statistics. Every offset is counted in words of
    RT_ALIGN_SIZE = 4 bytes, the unit every offset of the program is a multiple of. */
module HeapSpec {
  import opened Base

  const HEADER: nat := 3      // SIZEOF_STRUCT_MEM
  const MIN_DATA: nat := 3    // MIN_SIZE_ALIGNED

  /** A block starts with its header at word `at` and reaches to the header of the next block. */
  datatype Block = Block(at: nat, used: bool)

  /** `end` is the offset of heap_end, the header that closes the heap and is in no list. */
  datatype Heap = Heap(blocks: seq<Block>, end: nat, lfree: nat, used: int, max: int)

  /** The caller's view of a live block: first payload word and number of payload words. */
  datatype Extent = Extent(at: int, len: int)

  function Next(bs: seq<Block>, end: int, i: nat): int
    requires i < |bs|
  {
    if i + 1 < |bs| then bs[i + 1].at else end
  }

  function Span(bs: seq<Block>, end: int, i: nat): int
    requires i < |bs|
  {
    Next(bs, end, i) - bs[i].at
  }

  function Data(bs: seq<Block>, end: int, i: nat): int
    requires i < |bs|
  {
    Span(bs, end, i) - HEADER
  }

  // ---- The invariant -------------------------------------------------------------------------

  /** Headers tile the heap from word 0 to heap_end, each with room for its own three words, and
      the last block keeps at least MIN_SIZE_ALIGNED of payload before heap_end. */
  ghost predicate Tiled(bs: seq<Block>, end: int) {
    && |bs| > 0
    && bs[0].at == 0
    && (forall i, j :: 0 <= i < j < |bs| ==> bs[i].at + HEADER <= bs[j].at)
    && bs[|bs| - 1].at + HEADER + MIN_DATA <= end
  }

  ghost predicate Coalesced(bs: seq<Block>) {
    forall i, j :: 0 <= i < |bs| && j == i + 1 && j < |bs| ==> bs[i].used || bs[j].used
  }

  /** The hint is heap_end or the header of some free block. */
  ghost predicate HintOk(bs: seq<Block>, end: int, lfree: int) {
    lfree == end || exists i :: 0 <= i < |bs| && bs[i].at == lfree && !bs[i].used
  }

  /** The hint is the lowest free block, or heap_end when no block is free. */
  ghost predicate HintLowest(bs: seq<Block>, lfree: int) {
    forall i :: 0 <= i < |bs| && !bs[i].used ==> lfree <= bs[i].at
  }

  function UsedSpan(bs: seq<Block>, end: int): int {
    if bs == [] then 0
    else (if bs[0].used then Span(bs, end, 0) else 0) + UsedSpan(bs[1..], end)
  }

  function FreeSpan(bs: seq<Block>, end: int): int {
    if bs == [] then 0
    else (if bs[0].used then 0 else Span(bs, end, 0)) + FreeSpan(bs[1..], end)
  }

  /** What every operation needs and keeps, except the absence of adjacent free blocks. */
  ghost predicate Sound(h: Heap) {
    && Tiled(h.blocks, h.end)
    && HintOk(h.blocks, h.end, h.lfree)
    && h.used == UsedSpan(h.blocks, h.end)
    && h.used <= h.max
  }

  ghost predicate Inv(h: Heap) {
    Sound(h) && Coalesced(h.blocks)
  }

  function ExtentOf(bs: seq<Block>, end: int, i: nat): Extent
    requires i < |bs|
  {
    Extent(bs[i].at + HEADER, Data(bs, end, i))
  }

  ghost function LiveOf(bs: seq<Block>, end: int): set<Extent> {
    set i | 0 <= i < |bs| && bs[i].used :: ExtentOf(bs, end, i)
  }

  ghost function Live(h: Heap): set<Extent> {
    LiveOf(h.blocks, h.end)
  }

  // ---- The operations ------------------------------------------------------------------------

  function Mark(bs: seq<Block>, k: nat, u: bool): seq<Block>
    requires k < |bs|
  {
    bs[k := Block(bs[k].at, u)]
  }

  /** Block k gives up everything from word `at` on to a new free block behind it. */
  function Cut(bs: seq<Block>, k: nat, at: nat): seq<Block>
    requires k < |bs|
  {
    bs[..k + 1] + [Block(at, false)] + bs[k + 1..]
  }

  /** Block k disappears into the block before it. */
  function Drop(bs: seq<Block>, k: nat): seq<Block>
    requires k < |bs|
  {
    bs[..k] + bs[k + 1..]
  }

  function Init(words: nat): Heap {
    Heap([Block(0, false)], words + HEADER, 0, 0, 0)
  }

  function MemSize(h: Heap): int {
    h.end - HEADER
  }

  /** The index of the block whose header is at `at`, or |bs|. */
  function IndexOf(bs: seq<Block>, at: int, i: nat): (r: nat)
    requires i <= |bs|
    ensures i <= r <= |bs|
    ensures r < |bs| ==> bs[r].at == at
    ensures forall j :: i <= j < r ==> bs[j].at != at
    decreases |bs| - i
  {
    if i == |bs| || bs[i].at == at then i else IndexOf(bs, at, i + 1)
  }

  /** The search loop of rt_malloc from block i on. */
  function FirstFit(h: Heap, i: nat, size: int): (r: Option<nat>)
    requires i <= |h.blocks|
    ensures r.Some? ==> i <= r.value < |h.blocks|
    decreases |h.blocks| - i
  {
    if i == |h.blocks| || h.blocks[i].at >= MemSize(h) - size then None
    else if !h.blocks[i].used && Data(h.blocks, h.end, i) >= size then Some(i)
    else FirstFit(h, i + 1, size)
  }

  function FirstFree(bs: seq<Block>, end: nat, i: nat): nat
    requires i <= |bs|
    decreases |bs| - i
  {
    if i == |bs| then end
    else if !bs[i].used then bs[i].at
    else FirstFree(bs, end, i + 1)
  }

  /** rt_malloc once it has settled on block k. */
  function Alloc(h: Heap, k: nat, size: nat): Heap
    requires k < |h.blocks|
  {
    var marked := Mark(h.blocks, k, true);
    var p := h.blocks[k].at;
    var bs := if Data(h.blocks, h.end, k) >= size + HEADER + MIN_DATA
              then Cut(marked, k, p + HEADER + size) else marked;
    var used := h.used + Span(bs, h.end, k);
    Heap(bs, h.end, if h.lfree == p then FirstFree(bs, h.end, k) else h.lfree,
         used, Max(h.max, used))
  }

  /** RT_ALIGN(bytes, RT_ALIGN_SIZE) in words; the addition wraps at 2^32. */
  function AlignedWords(bytes: nat): (w: nat)
    ensures 4 * w < 0x1_0000_0000
  {
    (bytes + 3) % 0x1_0000_0000 / 4
  }

  function Adjusted(bytes: nat): nat {
    Max(AlignedWords(bytes), MIN_DATA)
  }

  function Fit(h: Heap, bytes: nat): (r: Option<nat>)
    ensures r.Some? ==> r.value < |h.blocks|
  {
    if bytes == 0 || AlignedWords(bytes) > MemSize(h) then None
    else FirstFit(h, IndexOf(h.blocks, h.lfree, 0), Adjusted(bytes))
  }

  function Malloc(h: Heap, bytes: nat): (Heap, Option<nat>) {
    var k := Fit(h, bytes);
    if k.None? then (h, None)
    else (Alloc(h, k.value, Adjusted(bytes)), Some(h.blocks[k.value].at + HEADER))
  }

  function PlugForward(h: Heap, k: nat): Heap
    requires k < |h.blocks|
  {
    if k + 1 < |h.blocks| && !h.blocks[k + 1].used then
      h.(blocks := Drop(h.blocks, k + 1),
         lfree := if h.lfree == h.blocks[k + 1].at then h.blocks[k].at else h.lfree)
    else h
  }

  function PlugBackward(h: Heap, k: nat): Heap
    requires k < |h.blocks|
  {
    if k > 0 && !h.blocks[k - 1].used then
      h.(blocks := Drop(h.blocks, k),
         lfree := if h.lfree == h.blocks[k].at then h.blocks[k - 1].at else h.lfree)
    else h
  }

  function Plug(h: Heap, k: nat): Heap
    requires k < |h.blocks|
  {
    PlugBackward(PlugForward(h, k), k)
  }

  function Release(h: Heap, k: nat): Heap
    requires k < |h.blocks|
  {
    Heap(Mark(h.blocks, k, false), h.end, Min(h.lfree, h.blocks[k].at) as nat,
         h.used - Span(h.blocks, h.end, k), h.max)
  }

  function Free(h: Heap, k: nat): Heap
    requires k < |h.blocks|
  {
    Plug(Release(h, k), k)
  }

  function Trim(h: Heap, k: nat, words: nat): Heap
    requires k < |h.blocks|
  {
    h.(blocks := Cut(h.blocks, k, h.blocks[k].at + HEADER + words),
       used := h.used - (Data(h.blocks, h.end, k) - words))
  }

  /** rt_realloc's in-place path: block k keeps `words` payload words. */
  function Shrink(h: Heap, k: nat, words: nat): Heap
    requires k < |h.blocks|
  {
    Plug(Trim(h, k, words), k + 1)
  }

  // ---- The calls, on pointers ----------------------------------------------------------------

  /** The block whose payload starts at word p, or |blocks|. */
  function BlockOf(h: Heap, p: int): (k: nat)
    ensures k <= |h.blocks|
  {
    IndexOf(h.blocks, p - HEADER, 0)
  }

  /** p is the payload of a block in use, as rt_free and rt_realloc demand of a pointer that lies
      inside the heap. */
  predicate IsLive(h: Heap, p: int) {
    BlockOf(h, p) < |h.blocks| && h.blocks[BlockOf(h, p)].used
  }

  function FreePtr(h: Heap, p: int): Heap
    requires IsLive(h, p)
  {
    Free(h, BlockOf(h, p))
  }

  /** The path of rt_realloc that moves the block: allocate, copy, free. */
  function Move(h: Heap, p: int, words: nat): (Heap, Option<int>) {
    var (h1, r) := Malloc(h, 4 * words);
    if r.None? || !IsLive(h1, p) then (h1, r) else (FreePtr(h1, p), r)
  }

  /** rt_realloc; a pointer outside the heap is handed back as it is. */
  function Realloc(h: Heap, p: Option<int>, bytes: nat): (Heap, Option<int>)
    requires p.Some? && 0 <= p.value < h.end ==> IsLive(h, p.value)
  {
    var words := AlignedWords(bytes);
    if words > MemSize(h) then (h, None)
    else if p.None? then Malloc(h, 4 * words)
    else if p.value < 0 || p.value >= h.end then (h, p)
    else
      var k := BlockOf(h, p.value);
      var size := Data(h.blocks, h.end, k);
      if size == words then (h, p)
      else if words + HEADER + MIN_DATA < size then (Shrink(h, k, words), p)
      else Move(h, p.value, words)
  }
}
