/** rt_malloc, rt_free and rt_realloc of software/src/mem.c over the words of the heap itself. */
module SmallHeap {
  import opened Base
  import opened HeapSpec
  import opened HeapLemmas
  import opened HeapOps
  import opened HeapRuns
  import opened HeapHeaders

  /** Word w belongs to the header of some block or of heap_end. */
  ghost predicate HeaderWord(bs: seq<Block>, end: int, w: int) {
    end <= w || exists j :: 0 <= j < |bs| && bs[j].at <= w < bs[j].at + HEADER
  }

  ghost predicate OnlyHeaders(s: seq<word>, t: seq<word>, bs: seq<Block>, end: int) {
    |s| == |t| && forall w :: 0 <= w < |s| && s[w] != t[w] ==> HeaderWord(bs, end, w)
  }

  /** Only words outside every used block other than k changed. */
  ghost predicate Spares(s: seq<word>, t: seq<word>, bs: seq<Block>, end: int, k: nat) {
    |s| == |t| && forall w :: 0 <= w < |s| && s[w] != t[w] ==> Outside(bs, end, k, w)
  }

  lemma HeaderWordOutside(bs: seq<Block>, end: int, k: nat, w: int)
    requires Tiled(bs, end) && HeaderWord(bs, end, w)
    ensures Outside(bs, end, k, w)
  {
    if end <= w {
      EndOutside(bs, end, k, w);
    } else {
      var j :| 0 <= j < |bs| && bs[j].at <= w < bs[j].at + HEADER;
      HeaderOutside(bs, end, k, j, w);
    }
  }

  lemma DropHeaderWord(bs: seq<Block>, end: int, k: nat, w: int)
    requires k < |bs| && HeaderWord(Drop(bs, k), end, w)
    ensures HeaderWord(bs, end, w)
  {
    if w < end {
      var d := Drop(bs, k);
      var j :| 0 <= j < |d| && d[j].at <= w < d[j].at + HEADER;
      assert d[j] == bs[if j < k then j else j + 1];
    }
  }

  lemma SparedPayload(s: seq<word>, t: seq<word>, bs: seq<Block>, end: int, k: nat, i: nat)
    requires Tiled(bs, end) && |s| == end + HEADER && Spares(s, t, bs, end, k)
    requires i < |bs| && i != k && bs[i].used
    ensures SamePayload(s, t, ExtentOf(bs, end, i))
  {
    NextBounds(bs, end, i);
    forall w | bs[i].at + HEADER <= w < Next(bs, end, i) ensures s[w] == t[w] {}
  }

  /** rt_system_heap_init: memory without room for two headers is refused. */
  method HeapInit(words: nat) returns (h: SmallHeap?)
    requires words <= 0x4000_0000
    ensures h == null <==> words < 2 * HEADER
    ensures h != null ==> fresh(h) && fresh(h.ram) && h.View() == Init(words - 2 * HEADER)
    ensures h != null ==> (h.Valid() <==> words >= 2 * HEADER + MIN_DATA)
  {
    if words < 2 * HEADER {
      return null;
    }
    h := new SmallHeap(words);
  }

  class SmallHeap {
    var ram: array<word>       // the heap from heap_ptr on
    var memSize: nat           // mem_size_aligned
    var heapEnd: nat
    var lfree: nat
    var usedMem: int
    var maxMem: int
    ghost var blocks: seq<Block>

    ghost function View(): Heap
      reads this
    {
      Heap(blocks, heapEnd, lfree, usedMem, maxMem)
    }

    /** The words of the heap hold exactly the headers of `blocks`. */
    ghost predicate Rep()
      reads this, ram
    {
      && heapEnd == memSize + HEADER
      && ram.Length == heapEnd + HEADER <= 0x4000_0000
      && memSize >= MIN_DATA
      && Tiled(blocks, heapEnd)
      && Headers(ram[..], blocks, heapEnd)
    }

    ghost predicate Valid()
      reads this, ram
    {
      Rep() && Inv(View())
    }

    /** The headers of rt_system_heap_init in `words` aligned words of memory. */
    constructor (words: nat)
      requires 2 * HEADER <= words <= 0x4000_0000
      ensures fresh(ram) && Headers(ram[..], blocks, heapEnd) && memSize == words - 2 * HEADER
      ensures View() == Init(memSize) && (Valid() <==> memSize >= MIN_DATA)
    {
      var r := new word[words](_ => 0);
      var end := words - HEADER;
      r[0], r[1], r[2] := HEAP_MAGIC, end, 0;
      r[end], r[end + 1], r[end + 2] := HEAP_MAGIC + HALF, end, end;
      ram, memSize, heapEnd := r, end - HEADER, end;
      lfree, usedMem, maxMem := 0, 0, 0;
      blocks := [Block(0, false)];
      new;
      InitInv(memSize);
      assert HeaderOk(ram[..], blocks, heapEnd, 0);
    }

    /** The two writes by which plug_holes lets `mem` swallow the block `gone` behind it. */
    method Unlink(mem: nat, gone: nat)
      requires mem + HEADER <= gone && gone + 1 < ram.Length
      requires gone + HEADER <= ram[gone + 1] < ram.Length - 2
      requires ram.Length <= 0x4000_0000
      modifies ram
      ensures SameExcept(old(ram[..]), ram[..], {mem + 1, old(ram[gone + 1]) + 2})
      ensures ram[mem + 1] == old(ram[gone + 1]) && ram[old(ram[gone + 1]) + 2] == mem
    {
      ram[mem + 1] := ram[gone + 1];
      ram[ram[gone + 1] + 2] := mem;
    }

    /** First half of plug_holes: swallow a free block behind `mem`. */
    method PlugForwards(mem: nat, ghost k: nat)
      requires Rep() && k < |blocks| && blocks[k] == Block(mem, false)
      modifies this`lfree, this`blocks, ram
      ensures Rep() && ram == old(ram)
      ensures View() == PlugForward(old(View()), k)
      ensures OnlyHeaders(old(ram[..]), ram[..], old(blocks), heapEnd)
    {
      hide Tiled, Headers, HeaderOk, HeaderWord;
      ghost var s := ram[..];
      ReadHeader(s, blocks, heapEnd, k);
      var nmem := ram[mem + 1];
      if mem != nmem && UsedFlag(ram[nmem]) == 0 && nmem != heapEnd {
        ReadHeader(s, blocks, heapEnd, k + 1);
        if lfree == nmem {
          lfree := mem;
        }
        Unlink(mem, nmem);
        Merged(s, ram[..], blocks, heapEnd, k + 1);
        blocks := Drop(blocks, k + 1);
      }
    }

    /** Second half of plug_holes: let a free block in front swallow `mem`. */
    method PlugBackwards(mem: nat, ghost k: nat)
      requires Rep() && k < |blocks| && blocks[k] == Block(mem, false)
      modifies this`lfree, this`blocks, ram
      ensures Rep() && ram == old(ram)
      ensures View() == PlugBackward(old(View()), k)
      ensures OnlyHeaders(old(ram[..]), ram[..], old(blocks), heapEnd)
    {
      hide Tiled, Headers, HeaderOk, HeaderWord;
      ghost var s := ram[..];
      ReadHeader(s, blocks, heapEnd, k);
      var pmem := ram[mem + 2];
      if pmem != mem && UsedFlag(ram[pmem]) == 0 {
        if lfree == mem {
          lfree := pmem;
        }
        Unlink(pmem, mem);
        Merged(s, ram[..], blocks, heapEnd, k);
        blocks := Drop(blocks, k);
      }
    }

    method PlugHoles(mem: nat, ghost k: nat)
      requires Rep() && k < |blocks| && blocks[k] == Block(mem, false)
      modifies this`lfree, this`blocks, ram
      ensures Rep() && ram == old(ram)
      ensures View() == Plug(old(View()), k)
      ensures OnlyHeaders(old(ram[..]), ram[..], old(blocks), heapEnd)
    {
      ghost var bs, s := blocks, ram[..];
      PlugForwards(mem, k);
      ghost var bs1, s1 := blocks, ram[..];
      PlugBackwards(mem, k);
      forall w | 0 <= w < |s| && s[w] != ram[w] ensures HeaderWord(bs, heapEnd, w) {
        if s[w] == s1[w] && bs1 != bs {
          DropHeaderWord(bs, heapEnd, k + 1, w);
        }
      }
    }

    /** Moves the hint from block k on to the next free block. */
    method AdvanceHint(ghost k: nat)
      requires Rep() && k < |blocks| && lfree == blocks[k].at
      modifies this`lfree
      ensures lfree == FirstFree(blocks, heapEnd, k)
    {
      hide Tiled, Headers, HeaderOk;
      ghost var i := k;
      ReadHeader(ram[..], blocks, heapEnd, i);
      EndHeader(ram[..], blocks, heapEnd);
      while UsedFlag(ram[lfree]) != 0 && lfree != heapEnd
        invariant k <= i <= |blocks|
        invariant lfree == (if i < |blocks| then blocks[i].at else heapEnd)
        invariant lfree < ram.Length
        invariant i < |blocks| ==> UsedFlag(ram[lfree]) == (if blocks[i].used then 1 else 0)
        invariant i < |blocks| ==> lfree < heapEnd
        invariant FirstFree(blocks, heapEnd, i) == FirstFree(blocks, heapEnd, k)
        decreases |blocks| - i
      {
        ReadHeader(ram[..], blocks, heapEnd, i);
        lfree := ram[lfree + 1];
        i := i + 1;
        if i < |blocks| { ReadHeader(ram[..], blocks, heapEnd, i); }
      }
    }

    /** A new free header at ptr2, linked in between `mem` and `next`. */
    method SplitOff(mem: nat, ptr2: nat, next: nat)
      requires mem + HEADER <= ptr2 && ptr2 + HEADER <= next < ram.Length - 2
      requires memSize + HEADER < ram.Length <= 0x4000_0000
      modifies ram
      ensures SameExcept(old(ram[..]), ram[..], {mem + 1, ptr2, ptr2 + 1, ptr2 + 2, next + 2})
      ensures next == memSize + HEADER ==> ram[next + 2] == old(ram[next + 2])
      ensures ram[mem + 1] == ptr2 && UsedFlag(ram[ptr2]) == 0
      ensures ram[ptr2 + 1] == next && ram[ptr2 + 2] == mem
      ensures next != memSize + HEADER ==> ram[next + 2] == ptr2
    {
      ram[ptr2] := WithUsed(ram[ptr2], false);
      ram[ptr2 + 1] := next;
      ram[ptr2 + 2] := mem;
      ram[mem + 1] := ptr2;
      if next != memSize + HEADER {
        ram[next + 2] := ptr2;
      }
    }

    /** The header writes of rt_malloc on the block it takes. */
    method Claim(mem: nat, size: nat, next: nat, ghost k: nat)
      requires Rep() && k < |blocks| && blocks[k].at == mem && next == Next(blocks, heapEnd, k)
      requires size <= Data(blocks, heapEnd, k)
      modifies ram
      ensures WritesOf(old(ram[..]), ram[..], View(), k, size)
    {
      hide Tiled, Headers, HeaderOk, WritesOf, SameExcept;
      ghost var s, h := ram[..], View();
      ReadHeader(s, blocks, heapEnd, k);
      if next - (mem + HEADER) >= size + HEADER + MIN_DATA {
        SplitOff(mem, mem + HEADER + size, next);
      }
      ghost var u := ram[..];
      ram[mem] := WithMagic(WithUsed(ram[mem], true), HEAP_MAGIC);
      Claimed(s, u, ram[..], h, k, size);
    }

    /** The statistics of rt_malloc for the block it takes. */
    method Account(mem: nat, size: nat, next: nat)
      modifies this`usedMem, this`maxMem
      ensures usedMem == old(usedMem)
        + (if next - mem - HEADER >= size + HEADER + MIN_DATA then size + HEADER else next - mem)
      ensures maxMem == Max(old(maxMem), usedMem)
    {
      if next - (mem + HEADER) >= size + HEADER + MIN_DATA {
        usedMem := usedMem + size + HEADER;
      } else {
        usedMem := usedMem + (next - mem);
      }
      if maxMem < usedMem {
        maxMem := usedMem;
      }
    }

    /** rt_malloc from the moment its loop has settled on `mem`. */
    method Take(mem: nat, size: nat, ghost k: nat)
      requires Valid() && size >= MIN_DATA && Eligible(View(), k, size) && blocks[k].at == mem
      modifies this`lfree, this`blocks, this`usedMem, this`maxMem, ram
      ensures Valid() && ram == old(ram)
      ensures View() == Alloc(old(View()), k, size)
      ensures Spares(old(ram[..]), ram[..], old(blocks), heapEnd, k)
    {
      hide Tiled, Headers, HeaderOk, Spares, Coalesced, HintOk, UsedSpan, LiveOf, FirstFree, WritesOf, Alloc;
      ghost var s, h := ram[..], View();
      ReadHeader(s, blocks, heapEnd, k);
      var next := ram[mem + 1];
      Claim(mem, size, next, k);
      Account(mem, size, next);
      Taken(s, ram[..], h, k, size);
      AllocKeeps(h, k, size);
      AllocParts(h, k, size);
      blocks := Alloc(h, k, size).blocks;
      if mem == lfree {
        AdvanceHint(k);
      }
    }

    method Malloc(bytes: nat) returns (r: Option<nat>)
      requires Valid()
      modifies this`lfree, this`blocks, this`usedMem, this`maxMem, ram
      ensures Valid() && ram == old(ram)
      ensures (View(), r) == HeapSpec.Malloc(old(View()), bytes)
      ensures forall e :: e in Live(old(View())) ==> SamePayload(old(ram[..]), ram[..], e)
    {
      hide Tiled, Headers, HeaderOk, Coalesced, HintOk, UsedSpan, FirstFree, LiveOf, SamePayload, Spares, Alloc;
      ghost var s, h := ram[..], View();
      if bytes == 0 {
        SameRam(s, h);
        return None;
      }
      var size := AlignedWords(bytes);
      if size > memSize {
        SameRam(s, h);
        return None;
      }
      if size < MIN_DATA {
        size := MIN_DATA;
      }
      var ptr := lfree;
      ghost var i: nat := IndexOf(blocks, lfree, 0);
      HintIndex(h);
      while ptr < memSize - size
        invariant Valid() && View() == h && ram == old(ram) && ram[..] == s
        invariant i <= |blocks| && ptr == (if i < |blocks| then blocks[i].at else heapEnd)
        invariant FirstFit(h, i, size) == Fit(h, bytes)
        decreases |blocks| - i
      {
        ReadHeader(ram[..], blocks, heapEnd, i);
        if UsedFlag(ram[ptr]) == 0 && ram[ptr + 1] - (ptr + HEADER) >= size {
          FirstFitIsFirst(h, IndexOf(blocks, lfree, 0), size);
          Take(ptr, size, i);
          SparesLive(s, ram[..], h, i);
          return Some(ptr + HEADER);
        }
        ptr := ram[ptr + 1];
        i := i + 1;
      }
      SameRam(s, h);
      return None;
    }

    /** rt_free up to plug_holes. */
    method ReleaseBlock(mem: nat, ghost k: nat)
      requires Rep() && k < |blocks| && blocks[k] == Block(mem, true)
      modifies this`lfree, this`blocks, this`usedMem, ram
      ensures Rep() && ram == old(ram)
      ensures View() == Release(old(View()), k)
      ensures SameExcept(old(ram[..]), ram[..], {mem})
    {
      hide Tiled, Headers, HeaderOk;
      ghost var s := ram[..];
      ReadHeader(s, blocks, heapEnd, k);
      assert UsedFlag(ram[mem]) != 0;
      assert Magic(ram[mem]) == HEAP_MAGIC;
      ram[mem] := WithMagic(WithUsed(ram[mem], false), 0);
      if mem < lfree {
        lfree := mem;
      }
      usedMem := usedMem - (ram[mem + 1] - mem);
      MarkHeaders(s, ram[..], blocks, heapEnd, k, false);
      MarkTiled(blocks, heapEnd, k, false);
      blocks := Mark(blocks, k, false);
    }

    method Free(p: Option<int>)
      requires Valid()
      requires p.Some? && 0 <= p.value < heapEnd ==> IsLive(View(), p.value)
      modifies this`lfree, this`blocks, this`usedMem, ram
      ensures Valid() && ram == old(ram)
      ensures View() == if p.Some? && 0 <= p.value < heapEnd
                        then FreePtr(old(View()), p.value) else old(View())
      ensures forall e :: e in Live(old(View())) && p != Some(e.at)
                      ==> SamePayload(old(ram[..]), ram[..], e)
    {
      hide Tiled, Headers, HeaderOk, Inv, Live, Plug, Spares, OnlyHeaders, SameExcept, SamePayload;
      ghost var s, h := ram[..], View();
      if p.None? || p.value < 0 || p.value >= heapEnd {
        SameRam(s, h);
        return;
      }
      ghost var k := BlockOf(h, p.value);
      var mem: nat := p.value - HEADER;
      ReleaseBlock(mem, k);
      ghost var s1 := ram[..];
      PlugHoles(mem, k);
      FreeKeeps(h, k);
      Freed(s, s1, ram[..], h, k);
      SparesLive(s, ram[..], h, k);
    }

    /** rt_memcpy between two ranges that do not overlap. */
    method CopyWords(dst: nat, src: nat, n: nat)
      requires src + n <= ram.Length && dst + n <= ram.Length && (src + n <= dst || dst + n <= src)
      modifies ram
      ensures ram[dst..dst + n] == old(ram[src..src + n])
      ensures forall w :: 0 <= w < ram.Length && !(dst <= w < dst + n) ==> ram[w] == old(ram[w])
    {
      ghost var s := ram[..];
      for i := 0 to n
        invariant forall w :: dst <= w < dst + i ==> ram[w] == s[w - dst + src]
        invariant forall w :: 0 <= w < ram.Length && !(dst <= w < dst + i) ==> ram[w] == s[w]
      {
        ram[dst + i] := ram[src + i];
      }
    }

    /** rt_memcpy into a payload leaves the headers alone. */
    method CopyPayload(dst: nat, src: nat, n: nat, ghost j: nat)
      requires Rep() && j < |blocks| && blocks[j].at + HEADER == dst
      requires n <= Data(blocks, heapEnd, j)
      requires src + n <= heapEnd && (src + n <= dst || dst + n <= src)
      modifies ram
      ensures Rep() && ram[dst..dst + n] == old(ram[src..src + n])
      ensures forall w :: 0 <= w < ram.Length && !(dst <= w < dst + n) ==> ram[w] == old(ram[w])
    {
      hide Tiled, Headers, HeaderOk;
      ghost var s := ram[..];
      ReadHeader(s, blocks, heapEnd, j);
      CopyWords(dst, src, n);
      PayloadWrite(s, ram[..], blocks, heapEnd, j);
    }

    /** The copy and the rt_free with which a moving rt_realloc ends. */
    method Relocate(p: nat, size: nat, q: nat, ghost len: nat, words: nat)
      requires Valid() && Extent(p, size) in Live(View()) && Extent(q, len) in Live(View())
      requires p != q && words <= len
      modifies this`lfree, this`blocks, this`usedMem, ram
      ensures Valid() && ram == old(ram)
      ensures IsLive(old(View()), p) && View() == FreePtr(old(View()), p)
      ensures Carried(old(ram[..]), ram[..], p, q, Min(size, words))
      ensures forall g :: g in Live(old(View())) && g.at != p && g.at != q
                      ==> SamePayload(old(ram[..]), ram[..], g)
    {
      hide Tiled, Headers, HeaderOk, Inv, Live, IsLive, FreePtr, SamePayload, Carried;
      ghost var s, h, e, f := ram[..], View(), Extent(p, size), Extent(q, len);
      Apart(h, e, f);
      CopyPayload(q, p, Min(size, words) as nat, BlockOf(h, q));
      ghost var s1 := ram[..];
      LivePtr(h, e);
      Free(Some(p));
      MovedPayload(s, s1, ram[..], h, e, f, Min(size, words));
    }

    /** rt_realloc when the block has to move: allocate, copy, free. */
    method MoveBlock(p: nat, size: nat, words: nat) returns (r: Option<nat>)
      requires Valid() && 4 * words < 0x1_0000_0000
      requires Extent(p, size) in Live(View())
      modifies this`lfree, this`blocks, this`usedMem, this`maxMem, ram
      ensures Valid() && ram == old(ram)
      ensures (View(), r) == Move(old(View()), p, words)
      ensures forall e :: e in Live(old(View())) && (e.at != p || r.None?)
                      ==> SamePayload(old(ram[..]), ram[..], e)
      ensures r.Some? ==> Carried(old(ram[..]), ram[..], p, r.value, Min(size, words))
    {
      hide Tiled, Headers, HeaderOk, Inv, LiveOf, IsLive, FreePtr, SamePayload, HeapSpec.Malloc, Carried;
      ghost var s, h, e := ram[..], View(), Extent(p, size);
      r := Malloc(4 * words);
      ghost var h1, s1 := View(), ram[..];
      MallocRefines(h, 4 * words);
      if r.Some? {
        ghost var f: Extent :| f.at == r.value && f.len >= Adjusted(4 * words) && f !in Live(h)
          && Live(h1) == Live(h) + {f};
        StartsApart(h1, f);
        Relocate(p, size, r.value, f.len, words);
        AfterMove(s, s1, ram[..], Live(h), e, r.value, Min(size, words));
      }
    }

    method Realloc(p: Option<int>, bytes: nat) returns (r: Option<int>)
      requires Valid()
      requires p.Some? && 0 <= p.value < heapEnd ==> IsLive(View(), p.value)
      modifies this`lfree, this`blocks, this`usedMem, this`maxMem, ram
      ensures Valid() && ram == old(ram)
      ensures (View(), r) == HeapSpec.Realloc(old(View()), p, bytes)
      ensures forall e :: e in Live(old(View())) && (p != Some(e.at) || r.None?)
                      ==> SamePayload(old(ram[..]), ram[..], e)
      ensures forall e :: e in Live(old(View())) && p == Some(e.at) && r.Some? && 0 <= r.value
                      ==> Carried(old(ram[..]), ram[..], e.at, r.value, Min(e.len, AlignedWords(bytes)))
    {
      hide Tiled, Headers, HeaderOk, Inv, LiveOf, Move, Shrink, SamePayload, HeapSpec.Malloc;
      ghost var s, h := ram[..], View();
      SameRam(s, h);
      var words := AlignedWords(bytes);
      if words > memSize {
        return None;
      }
      if p.None? {
        r := Malloc(4 * words);
        return;
      }
      if p.value < 0 || p.value >= heapEnd {
        OutsideHeap(h, p.value);
        return p;
      }
      ghost var k := BlockOf(h, p.value);
      ReadHeader(s, blocks, heapEnd, k);
      PtrExtent(h, p.value);
      var ptr: nat := p.value - HEADER;
      var size := ram[ptr + 1] - ptr - HEADER;
      UniqueExtent(h, p.value);
      if size == words {
        return p;
      }
      if words + HEADER + MIN_DATA < size {
        TrimBlock(ptr, words, k);
        return p;
      }
      r := MoveBlock(p.value, size, words);
    }

    /** rt_realloc's in-place path up to plug_holes. */
    method CutBlock(ptr: nat, words: nat, ghost k: nat)
      requires Rep() && k < |blocks| && blocks[k] == Block(ptr, true)
      requires words + HEADER + MIN_DATA < Data(blocks, heapEnd, k)
      modifies this`blocks, this`usedMem, ram
      ensures Rep() && ram == old(ram) && View() == Trim(old(View()), k, words)
      ensures CutBy(old(ram[..]), ram[..], old(blocks), heapEnd, k, ptr + HEADER + words)
    {
      hide Tiled, Headers, HeaderOk;
      ghost var s := ram[..];
      ReadHeader(s, blocks, heapEnd, k);
      var ptr2, next := ptr + HEADER + words, ram[ptr + 1];
      usedMem := usedMem - (next - ptr - HEADER - words);
      ram[ptr2] := WithMagic(ram[ptr2], HEAP_MAGIC);
      SplitOff(ptr, ptr2, next);
      TrimmedHeaders(s, ram[..], blocks, heapEnd, k, ptr2);
      blocks := Cut(blocks, k, ptr2);
    }

    /** rt_realloc's in-place path. */
    method TrimBlock(ptr: nat, words: nat, ghost k: nat)
      requires Valid() && k < |blocks| && blocks[k] == Block(ptr, true)
      requires words + HEADER + MIN_DATA < Data(blocks, heapEnd, k)
      modifies this`lfree, this`blocks, this`usedMem, ram
      ensures Valid() && ram == old(ram)
      ensures View() == Shrink(old(View()), k, words)
      ensures forall e :: e in Live(old(View())) && e.at != ptr + HEADER
                      ==> SamePayload(old(ram[..]), ram[..], e)
      ensures Carried(old(ram[..]), ram[..], ptr + HEADER, ptr + HEADER, words)
    {
      hide Tiled, Headers, HeaderOk, Inv, Live, Plug, Spares, OnlyHeaders, SamePayload, Carried, CutBy;
      ghost var s, h := ram[..], View();
      CutBlock(ptr, words, k);
      ghost var s1 := ram[..];
      CutIndex(h.blocks, k, ptr + HEADER + words);
      PlugHoles(ptr + HEADER + words, k + 1);
      ShrinkKeeps(h, k, words);
      Trimmed(s, s1, ram[..], h, k, words);
      SparesLive(s, ram[..], h, k);
    }
  }

  /** The first n payload words at p have arrived at q. */
  ghost predicate Carried(s: seq<word>, t: seq<word>, p: int, q: int, n: int) {
    && |s| == |t| && 0 <= p && 0 <= q && p + n <= |s| && q + n <= |s|
    && (n > 0 ==> t[q..q + n] == s[p..p + n])
  }

  lemma UniqueExtent(h: Heap, p: int)
    requires Inv(h) && IsLive(h, p)
    ensures forall e :: e in Live(h) && e.at == p ==> e == ExtentOf(h.blocks, h.end, BlockOf(h, p))
    ensures var e := ExtentOf(h.blocks, h.end, BlockOf(h, p));
      e in Live(h) && HEADER <= e.at && 0 <= e.len && e.at + e.len <= h.end
  {
    PtrExtent(h, p);
    var e := ExtentOf(h.blocks, h.end, BlockOf(h, p));
    LiveDisjoint(h, e, e);
    forall f | f in Live(h) && f.at == p ensures f == e { LivePtr(h, f); }
  }

  lemma OutsideHeap(h: Heap, p: int)
    requires Inv(h) && (p < 0 || p >= h.end)
    ensures forall e :: e in Live(h) ==> e.at != p
  {
    forall e | e in Live(h) ensures e.at != p { LivePtr(h, e); }
  }

  /** The words written when block k is cut at ptr2. */
  ghost predicate CutBy(s: seq<word>, t: seq<word>, bs: seq<Block>, end: int, k: nat, at: nat)
    requires k < |bs|
  {
    && |s| == |t| && bs[k].at + HEADER <= at && at + HEADER <= Next(bs, end, k) < |s| - 2
    && SameExcept(s, t, {bs[k].at + 1, at, at + 1, at + 2, Next(bs, end, k) + 2})
    && (Next(bs, end, k) == end ==> t[end + 2] == s[end + 2])
    && t[bs[k].at + 1] == at
    && UsedFlag(t[at]) == 0 && t[at + 1] == Next(bs, end, k) && t[at + 2] == bs[k].at
    && (Next(bs, end, k) != end ==> t[Next(bs, end, k) + 2] == at)
  }

  lemma TrimmedHeaders(s: seq<word>, t: seq<word>, bs: seq<Block>, end: int, k: nat, at: nat)
    requires Tiled(bs, end) && Headers(s, bs, end) && k < |bs|
    requires at + HEADER + MIN_DATA <= Next(bs, end, k)
    requires CutBy(s, t, bs, end, k, at)
    ensures Tiled(Cut(bs, k, at), end) && Headers(t, Cut(bs, k, at), end)
    ensures Cut(bs, k, at)[k + 1] == Block(at, false)
  {
    hide Tiled, Headers, HeaderOk;
    ReadHeader(s, bs, end, k);
    TiledCut(bs, end, k, at);
    CutHeaders(s, t, bs, end, k, at);
    CutIndex(bs, k, at);
  }

  lemma Trimmed(s: seq<word>, s1: seq<word>, t: seq<word>, h: Heap, k: nat, words: nat)
    requires Inv(h) && k < |h.blocks| && |s| == h.end + HEADER
    requires CutBy(s, s1, h.blocks, h.end, k, h.blocks[k].at + HEADER + words)
    requires OnlyHeaders(s1, t, Cut(h.blocks, k, h.blocks[k].at + HEADER + words), h.end)
    ensures Spares(s, t, h.blocks, h.end, k)
    ensures Carried(s, t, h.blocks[k].at + HEADER, h.blocks[k].at + HEADER, words)
  {
    hide Outside;
    var bs, p, at := h.blocks, h.blocks[k].at, h.blocks[k].at + HEADER + words;
    var next := Next(bs, h.end, k);
    forall w | 0 <= w < |s| && s[w] != t[w]
      ensures Outside(bs, h.end, k, w) && !(p + HEADER <= w < at)
    {
      if s[w] != s1[w] {
        CutWord(bs, h.end, k, at, w);
      } else {
        CutHeaderWord(bs, h.end, k, at, w);
      }
    }
  }

  lemma CutWord(bs: seq<Block>, end: int, k: nat, at: nat, w: int)
    requires Tiled(bs, end) && k < |bs| && bs[k].at + HEADER <= at && at + HEADER <= Next(bs, end, k)
    requires w in {bs[k].at + 1, at, at + 1, at + 2, Next(bs, end, k) + 2}
    ensures Outside(bs, end, k, w) && !(bs[k].at + HEADER <= w < at)
  {
    if w < Next(bs, end, k) {
      SpanOutside(bs, end, k, w);
    } else if k + 1 < |bs| {
      HeaderOutside(bs, end, k, k + 1, w);
    } else {
      EndOutside(bs, end, k, w);
    }
  }

  lemma CutHeaderWord(bs: seq<Block>, end: int, k: nat, at: nat, w: int)
    requires Tiled(bs, end) && k < |bs| && bs[k].at + HEADER <= at && at + HEADER <= Next(bs, end, k)
    requires HeaderWord(Cut(bs, k, at), end, w)
    ensures Outside(bs, end, k, w) && !(bs[k].at + HEADER <= w < at)
  {
    NextBounds(bs, end, k);
    if end <= w {
      EndOutside(bs, end, k, w);
    } else {
      var c := Cut(bs, k, at);
      CutIndex(bs, k, at);
      var j :| 0 <= j < |c| && c[j].at <= w < c[j].at + HEADER;
      if j == k + 1 {
        SpanOutside(bs, end, k, w);
      } else {
        var i := if j <= k then j else j - 1;
        HeaderOutside(bs, end, k, i, w);
        assert i < k ==> bs[i].at + HEADER <= bs[k].at;
      }
    }
  }

  /** The words rt_free touches lie outside every other used block. */
  lemma Freed(s: seq<word>, s1: seq<word>, t: seq<word>, h: Heap, k: nat)
    requires Inv(h) && k < |h.blocks| && |s| == h.end + HEADER
    requires SameExcept(s, s1, {h.blocks[k].at})
    requires OnlyHeaders(s1, t, Mark(h.blocks, k, false), h.end)
    ensures Spares(s, t, h.blocks, h.end, k)
  {
    hide Outside;
    var bs := h.blocks;
    forall w | 0 <= w < |s| && s[w] != t[w] ensures Outside(bs, h.end, k, w) {
      if s[w] != s1[w] {
        HeaderOutside(bs, h.end, k, k, w);
      } else {
        if w < h.end {
          var m := Mark(bs, k, false);
          var j :| 0 <= j < |m| && m[j].at <= w < m[j].at + HEADER;
          assert bs[j].at == m[j].at;
        }
        HeaderWordOutside(bs, h.end, k, w);
      }
    }
  }

  /** Writing inside one payload leaves every header alone. */
  lemma PayloadWrite(s: seq<word>, t: seq<word>, bs: seq<Block>, end: int, j: nat)
    requires Tiled(bs, end) && Headers(s, bs, end) && j < |bs| && |t| == |s|
    requires forall w :: 0 <= w < |s| && !(bs[j].at + HEADER <= w < Next(bs, end, j)) ==> t[w] == s[w]
    ensures Headers(t, bs, end)
  {
    NextBounds(bs, end, j);
    forall i | 0 <= i < |bs| ensures HeaderOk(t, bs, end, i) {
      assert HeaderOk(s, bs, end, i);
      assert i < j ==> bs[i].at + HEADER <= bs[j].at;
      assert i > j ==> Next(bs, end, j) <= bs[i].at;
    }
  }

  lemma Apart(h: Heap, e: Extent, f: Extent)
    requires Inv(h) && e in Live(h) && f in Live(h) && e != f
    ensures e.at + e.len + HEADER <= f.at || f.at + f.len + HEADER <= e.at
    ensures 0 <= e.at && e.at + e.len <= h.end && e.at != f.at
    ensures 0 <= f.at && f.at + f.len <= h.end
    ensures BlockOf(h, f.at) < |h.blocks| && h.blocks[BlockOf(h, f.at)].at + HEADER == f.at
    ensures Data(h.blocks, h.end, BlockOf(h, f.at)) == f.len
  {
    LiveDisjoint(h, e, f);
    LivePtr(h, f);
  }

  lemma StartsApart(h: Heap, f: Extent)
    requires Inv(h) && f in Live(h)
    ensures forall g :: g in Live(h) && g != f ==> g.at != f.at
    ensures 0 <= f.len
  {
    LiveDisjoint(h, f, f);
    forall g | g in Live(h) && g != f ensures g.at != f.at {
      LiveDisjoint(h, g, f);
    }
  }

  /** A copy into extent f, then changes that spare every live extent but e. */
  lemma MovedPayload(s: seq<word>, s1: seq<word>, t: seq<word>, h: Heap, e: Extent, f: Extent, n: int)
    requires Inv(h) && e in Live(h) && f in Live(h) && f.at != e.at
    requires |s| == |s1| == h.end + HEADER && n <= e.len && n <= f.len
    requires n > 0 ==> 0 <= f.at && f.at + n <= |s| && 0 <= e.at && e.at + n <= |s|
                       && s1[f.at..f.at + n] == s[e.at..e.at + n]
    requires forall w :: 0 <= w < |s| && !(f.at <= w < f.at + n) ==> s1[w] == s[w]
    requires forall g :: g in Live(h) && Some(e.at) != Some(g.at) ==> SamePayload(s1, t, g)
    ensures forall g :: g in Live(h) && g.at != e.at && g.at != f.at ==> SamePayload(s, t, g)
    ensures Carried(s, t, e.at, f.at, n)
  {
    hide Inv, LiveOf;
    LiveDisjoint(h, e, f);
    LiveDisjoint(h, f, f);
    assert SamePayload(s1, t, f);
    if n > 0 { assert t[f.at..f.at + n] == s1[f.at..f.at + n]; }
    forall g | g in Live(h) && g.at != e.at && g.at != f.at ensures SamePayload(s, t, g) {
      LiveDisjoint(h, g, f);
      assert SamePayload(s1, t, g);
    }
  }

  lemma AfterMove(s: seq<word>, s1: seq<word>, t: seq<word>, live: set<Extent>, e: Extent, q: int, n: int)
    requires e in live && n <= e.len && Carried(s1, t, e.at, q, n)
    requires forall g :: g in live ==> SamePayload(s, s1, g) && g.at != q
    requires forall g :: g in live && g.at != e.at && g.at != q ==> SamePayload(s1, t, g)
    ensures forall g :: g in live && g.at != e.at ==> SamePayload(s, t, g)
    ensures Carried(s, t, e.at, q, n)
  {
    assert SamePayload(s, s1, e);
    if n > 0 { assert s1[e.at..e.at + n] == s[e.at..e.at + n]; }
    forall g | g in live && g.at != e.at ensures SamePayload(s, t, g) {
      assert SamePayload(s, s1, g) && SamePayload(s1, t, g);
    }
  }

  lemma EndHeader(s: seq<word>, bs: seq<Block>, end: int)
    requires Headers(s, bs, end)
    ensures UsedFlag(s[end]) == 1 && s[end + 1] == end
  {}

  /** Nothing written, nothing changed. */
  lemma SameRam(s: seq<word>, h: Heap)
    requires Inv(h) && |s| == h.end + HEADER
    ensures forall e :: e in Live(h) ==> SamePayload(s, s, e)
  {
    forall e | e in Live(h) ensures SamePayload(s, s, e) { LiveDisjoint(h, e, e); }
  }

  lemma SparesLive(s: seq<word>, t: seq<word>, h: Heap, k: nat)
    requires Inv(h) && |s| == h.end + HEADER && k < |h.blocks| && Spares(s, t, h.blocks, h.end, k)
    ensures forall e :: e in Live(h) && e.at != h.blocks[k].at + HEADER ==> SamePayload(s, t, e)
    ensures !h.blocks[k].used ==> forall e :: e in Live(h) ==> SamePayload(s, t, e)
  {
    forall e | e in Live(h) && (e.at != h.blocks[k].at + HEADER || !h.blocks[k].used)
      ensures SamePayload(s, t, e)
    {
      var i :| 0 <= i < |h.blocks| && h.blocks[i].used && e == ExtentOf(h.blocks, h.end, i);
      SparedPayload(s, t, h.blocks, h.end, k, i);
    }
  }

  /** t is s with the writes rt_malloc makes into block k. */
  ghost predicate WritesOf(s: seq<word>, t: seq<word>, h: Heap, k: nat, size: nat)
    requires k < |h.blocks|
  {
    var bs, at := h.blocks, h.blocks[k].at + HEADER + size;
    && |t| == |s| && bs[k].at + HEADER <= Next(bs, h.end, k) < |s| - 2
    && UsedFlag(t[bs[k].at]) == 1 && Magic(t[bs[k].at]) == HEAP_MAGIC
    && if Data(bs, h.end, k) >= size + HEADER + MIN_DATA then
         && SameExcept(s, t, CutWrites(bs, h.end, k, at) + {bs[k].at})
         && t[bs[k].at + 1] == at
         && UsedFlag(t[at]) == 0 && t[at + 1] == Next(bs, h.end, k) && t[at + 2] == bs[k].at
         && (k + 1 < |bs| ==> t[bs[k + 1].at + 2] == at)
       else SameExcept(s, t, {bs[k].at})
  }

  /** Split first, flag afterwards. */
  lemma Claimed(s: seq<word>, u: seq<word>, t: seq<word>, h: Heap, k: nat, size: nat)
    requires k < |h.blocks|
    requires var bs, p, at, next := h.blocks, h.blocks[k].at, h.blocks[k].at + HEADER + size, Next(h.blocks, h.end, k);
      && |u| == |s| && p + HEADER <= next < |s| - 2
      && (next == h.end <==> k + 1 == |bs|)
      && (if Data(bs, h.end, k) >= size + HEADER + MIN_DATA then
            && SameExcept(s, u, {p + 1, at, at + 1, at + 2, next + 2})
            && (next == h.end ==> u[next + 2] == s[next + 2])
            && (next != h.end ==> u[next + 2] == at)
            && u[p + 1] == at && UsedFlag(u[at]) == 0 && u[at + 1] == next && u[at + 2] == p
          else u == s)
      && |t| == |u| && t == u[p := t[p]] && UsedFlag(t[p]) == 1 && Magic(t[p]) == HEAP_MAGIC
    ensures WritesOf(s, t, h, k, size)
  {
    var p, next := h.blocks[k].at, Next(h.blocks, h.end, k);
    assert forall w :: 0 <= w < |s| && w != p ==> t[w] == u[w];
  }

  lemma AllocParts(h: Heap, k: nat, size: nat)
    requires k < |h.blocks|
    ensures var a := Alloc(h, k, size);
      && |a.blocks| > k && a.blocks[k].at == h.blocks[k].at && a.end == h.end && a.max == Max(h.max, a.used)
      && a.lfree == (if h.lfree == h.blocks[k].at then FirstFree(a.blocks, h.end, k) else h.lfree)
      && a.used == h.used
         + (if Data(h.blocks, h.end, k) >= size + HEADER + MIN_DATA then size + HEADER else Span(h.blocks, h.end, k))
  {
    CutIndex(Mark(h.blocks, k, true), k, h.blocks[k].at + HEADER + size);
  }

  lemma TakenHeaders(s: seq<word>, t: seq<word>, h: Heap, k: nat, size: nat)
    requires Inv(h) && k < |h.blocks| && Headers(s, h.blocks, h.end)
    requires WritesOf(s, t, h, k, size)
    ensures Headers(t, Alloc(h, k, size).blocks, h.end)
  {
    hide Tiled, Headers, HeaderOk, Coalesced, HintOk, UsedSpan, LiveOf, FirstFree;
    var bs, at, p := h.blocks, h.blocks[k].at + HEADER + size, h.blocks[k].at;
    ReadHeader(s, bs, h.end, k);
    var m := s[p := t[p]];
    MarkHeaders(s, m, bs, h.end, k, true);
    if Data(bs, h.end, k) >= size + HEADER + MIN_DATA {
      MarkTiled(bs, h.end, k, true);
      CutHeaders(m, t, Mark(bs, k, true), h.end, k, at);
    } else {
      assert t == m;
    }
  }

  lemma Taken(s: seq<word>, t: seq<word>, h: Heap, k: nat, size: nat)
    requires Inv(h) && k < |h.blocks| && Headers(s, h.blocks, h.end)
    requires WritesOf(s, t, h, k, size)
    ensures Headers(t, Alloc(h, k, size).blocks, h.end)
    ensures Spares(s, t, h.blocks, h.end, k)
  {
    hide Tiled, Headers, HeaderOk, Outside, Coalesced, HintOk, UsedSpan, LiveOf, Alloc;
    TakenHeaders(s, t, h, k, size);
    ReadHeader(s, h.blocks, h.end, k);
    forall w | 0 <= w < |s| && s[w] != t[w] ensures Outside(h.blocks, h.end, k, w) {
      if h.blocks[k].at <= w < Next(h.blocks, h.end, k) {
        SpanOutside(h.blocks, h.end, k, w);
      } else {
        HeaderOutside(h.blocks, h.end, k, k + 1, w);
      }
    }
  }

  lemma MarkTiled(bs: seq<Block>, end: int, k: nat, u: bool)
    requires Tiled(bs, end) && k < |bs|
    ensures Tiled(Mark(bs, k, u), end)
  {}

  /** What the code reads from block k's header and from its neighbours'. */
  lemma ReadHeader(s: seq<word>, bs: seq<Block>, end: int, k: nat)
    requires Tiled(bs, end) && Headers(s, bs, end) && k < |bs|
    ensures |s| == end + HEADER && bs[k].at + HEADER <= Next(bs, end, k) <= end
    ensures UsedFlag(s[bs[k].at]) == (if bs[k].used then 1 else 0)
    ensures bs[k].used ==> Magic(s[bs[k].at]) == HEAP_MAGIC
    ensures s[bs[k].at + 1] == Next(bs, end, k)
    ensures Next(bs, end, k) == end <==> k + 1 == |bs|
    ensures UsedFlag(s[Next(bs, end, k)]) == 0 <==> k + 1 < |bs| && !bs[k + 1].used
    ensures s[bs[k].at + 2] == (if k == 0 then 0 else bs[k - 1].at)
    ensures k == 0 ==> bs[k].at == 0
    ensures k > 0 ==> bs[k - 1].at + HEADER <= bs[k].at
                      && (UsedFlag(s[bs[k - 1].at]) == 0 <==> !bs[k - 1].used)
  {
    NextBounds(bs, end, k);
    assert HeaderOk(s, bs, end, k);
    if k + 1 < |bs| {
      assert HeaderOk(s, bs, end, k + 1);
      NextBounds(bs, end, k + 1);
    }
    if k > 0 {
      assert HeaderOk(s, bs, end, k - 1);
    }
  }

  /** The two writes that merge block k into block k - 1. */
  lemma Merged(s: seq<word>, t: seq<word>, bs: seq<Block>, end: int, k: nat)
    requires Tiled(bs, end) && Headers(s, bs, end) && 0 < k < |bs|
    requires SameExcept(s, t, DropWrites(bs, end, k))
    requires t[bs[k - 1].at + 1] == Next(bs, end, k)
    requires t[Next(bs, end, k) + 2] == bs[k - 1].at
    ensures Tiled(Drop(bs, k), end) && Headers(t, Drop(bs, k), end) && OnlyHeaders(s, t, bs, end)
  {
    hide Tiled, Headers, HeaderOk, HeaderWord;
    TiledDrop(bs, end, k);
    DropHeaders(s, t, bs, end, k);
    DropIsHeaders(s, t, bs, end, k);
  }

  lemma DropIsHeaders(s: seq<word>, t: seq<word>, bs: seq<Block>, end: int, k: nat)
    requires Tiled(bs, end) && 0 < k < |bs| && SameExcept(s, t, DropWrites(bs, end, k))
    ensures OnlyHeaders(s, t, bs, end)
  {
    forall w | 0 <= w < |s| && s[w] != t[w] ensures HeaderWord(bs, end, w) {
      if w == bs[k - 1].at + 1 {
      } else if k + 1 < |bs| {
        assert bs[k + 1].at <= w < bs[k + 1].at + HEADER;
      }
    }
  }
}
