/** What each call of the slab heap answers and leaves behind: where a block comes from, in which order
    chunks are handed out, and where zones and pages go. */
module SlabEffects {
  import opened Base
  import opened SlabSpec
  import opened SlabLemmas
  import opened SlabHeap
  import P = PageSpec
  import L = PageLemmas

  // ---- Sizes ---------------------------------------------------------------------------------

  /** A large block gets the smallest number of pages that holds it; above 2^32 - 4096 bytes the sum
      leaves 32 bits and the number is zero. */
  lemma PagesExactly(size: nat, n: nat)
    requires size < WORD
    ensures PagesFor(size) == n <==>
      if size <= WORD - PAGE then n * PAGE - PAGE < size <= n * PAGE else n == 0
  {
    var x := size + PAGE - 1;
    if size <= WORD - PAGE {
      assert x % WORD == x;
      assert x == x / PAGE * PAGE + x % PAGE;
    } else {
      assert x % WORD == x - WORD < PAGE;
    }
  }

  /** A request gets the smallest of the chunk sizes that holds it. */
  lemma BestFit(n: nat)
    requires 0 < n < MAX_SMALL
    ensures var (size, zi) := ZoneIndex(n);
      zi < NZONES && size == SizeOf(zi) && n <= SizeOf(zi) && forall i: nat :: i < zi ==> SizeOf(i) < n
  {
    var q := ZoneIndexStep(n);
    IndexFixesSize(n);
    ZoneIndexFits(n);
    var zi := ZoneIndex(n).1;
    if zi > 0 { StepBelow(n, q); }
    hide ZoneIndex;
    forall i: nat | i < zi ensures SizeOf(i) < n { SizesGrow(i, zi - 1); }
  }

  lemma StepBelow(n: nat, q: nat)
    requires 0 < n < MAX_SMALL
    requires var (k, d) := StepOf(n); n <= q * k < n + k && 0 < q + d < NZONES
    ensures SizeOf(q + StepOf(n).1 - 1) < n
  {}

  lemma SizesGrow(i: nat, j: nat)
    requires i <= j < NZONES
    ensures SizeOf(i) <= SizeOf(j)
  {}

  /** Requests of a quarter of a zone and more, at most 16384 bytes, get pages of their own. */
  lemma LimitIs(zsize: nat)
    requires ZoneSize(zsize)
    ensures Limit(zsize) == if zsize == 32768 then 8192 else 16384
  {}

  // ---- One chunk -----------------------------------------------------------------------------

  /** A chunk of never used memory as long as there is some, then the one given back last. */
  ghost predicate ChunkOut(z: Zone, z': Zone, a: nat) {
    && z'.zi == z.zi && z'.size == z.size && z'.nmax == z.nmax && z'.base == z.base && z'.nfree == z.nfree - 1
    && if z.uindex + 1 < z.nmax then
         z'.uindex == z.uindex + 1 && a == z.base + z'.uindex * z.size && z'.free == z.free
       else
         z'.uindex == z.uindex && z.free == [a] + z'.free
  }

  /** The chunk becomes the first of the free ones. */
  ghost predicate ChunkBack(z: Zone, z': Zone, a: nat) {
    && z'.zi == z.zi && z'.size == z.size && z'.nmax == z.nmax && z'.base == z.base && z'.nfree == z.nfree + 1
    && z'.uindex == z.uindex && z'.free == [a] + z.free
  }

  lemma TakeDoes(z: Zone)
    requires Books(z) && z.nfree > 0
    ensures z.uindex + 1 == z.nmax ==> z.free != []
    ensures var (z', a) := TakeChunk(z); ChunkOut(z, z', a)
  {
    TakeFresh(z);
  }

  /** Once all chunks have been in use the one given back last is handed out next, and the zone is as it was. */
  lemma LastInFirstOut(z: Zone, a: nat)
    requires Books(z) && z.uindex + 1 == z.nmax
    ensures TakeChunk(PutChunk(z, a)) == (z, a)
  {
    assert ([a] + z.free)[1..] == z.free;
  }

  /** A zone of `zsize` bytes on page `page` that has handed out its first chunk: the chunks begin behind the
      header, at a multiple of their size if that is a power of two and of 8 otherwise, the first such
      place; there are as many as fit. */
  ghost predicate Opened(z: Zone, zsize: nat, page: nat, zi: nat, size: nat) {
    && z.zi == zi && z.size == size && z.uindex == 0 && z.free == [] && z.nfree == z.nmax - 1
    && var off := z.base - page * PAGE; var unit := if PowerOfTwo(size) then size else 8;
       && HEADER <= off < HEADER + unit && off % unit == 0
       && z.nmax * size <= zsize - off < (z.nmax + 1) * size
  }

  lemma NewZoneDoes(zsize: nat, page: nat, zi: nat, size: nat)
    requires ZoneSize(zsize) && ChunkSize(zsize, size)
    ensures Opened(NewZone(zsize, page, zi, size), zsize, page, zi, size)
  {
    ZoneGeometry(zsize, size);
    OffsetIs(size);
    hide Offset, PowerOfTwo;
    MostThatFit(zsize - Offset(size), size);
  }

  lemma MostThatFit(room: nat, size: nat)
    requires size > 0
    ensures room / size * size <= room < (room / size + 1) * size
  {
    var q := room / size;
    assert room == q * size + room % size;
    assert (q + 1) * size == q * size + size;
  }

  lemma OffsetIs(size: nat)
    requires size > 0
    ensures var unit := if PowerOfTwo(size) then size else 8;
      HEADER <= Offset(size) < HEADER + unit && Offset(size) % unit == 0
  {
    RoundUpMultiple(HEADER, if PowerOfTwo(size) then size else 8);
    hide RoundUp, PowerOfTwo;
  }

  // ---- Pages ---------------------------------------------------------------------------------

  /** The first n free pages in a row from the lowest run that is long enough, and no others, are taken. */
  ghost predicate PagesOut(p: P.Pool, p': P.Pool, page: nat, n: nat) {
    && n > 0 && p'.out == p.out[page := n] && P.Canon(0, p'.runs)
    && (forall x: nat :: P.In(p'.runs, x) <==> P.In(p.runs, x) && !(page <= x < page + n))
    && (forall x: nat :: page <= x < page + n ==> P.In(p.runs, x))
    && (exists i :: 0 <= i < |p.runs| && L.Fits(p.runs[i], n) && p.runs[i].start == page
                    && forall j :: 0 <= j < i ==> !L.Fits(p.runs[j], n))
  }

  /** These pages, and no others, become free. */
  ghost predicate PagesBack(p: P.Pool, p': P.Pool, page: nat, n: nat) {
    && page in p.out && p.out[page] == n && p'.out == p.out - {page} && P.Canon(0, p'.runs)
    && forall x: nat :: P.In(p'.runs, x) <==> P.In(p.runs, x) || page <= x < page + n
  }

  ghost predicate NoPages(p: P.Pool, n: nat) {
    n == 0 || forall i :: 0 <= i < |p.runs| ==> !L.Fits(p.runs[i], n)
  }

  lemma TakePages(total: nat, p: P.Pool, n: nat)
    requires L.PoolInv(total, p)
    ensures var r := P.Alloc(p.runs, n).1;
      && (r.None? <==> NoPages(p, n))
      && (r.Some? ==> r.value + n <= total && PagesOut(p, P.Next(p, P.Take(n)), r.value, n))
  {
    if n > 0 {
      L.AllocFirstFit(0, p.runs, n);
      var (runs', r) := P.Alloc(p.runs, n);
      if r.Some? {
        forall x: nat
          ensures r.value <= x < r.value + n ==> P.In(p.runs, x) && !P.In(runs', x)
          ensures !(r.value <= x < r.value + n) ==> (P.In(runs', x) <==> P.In(p.runs, x))
        {
          L.AllocPages(0, p.runs, n, x);
        }
        assert P.In(p.runs, r.value + n - 1);
      }
    }
  }

  lemma GivePages(total: nat, p: P.Pool, page: nat)
    requires L.PoolInv(total, p) && page in p.out
    ensures PagesBack(p, P.Next(p, P.Give(page)), page, p.out[page])
  {
    L.GiveKeeps(total, p, page);
    var p' := P.Next(p, P.Give(page));
    forall x: nat ensures P.In(p'.runs, x) <==> P.In(p.runs, x) || page <= x < page + p.out[page] {
      L.FreePages(p.runs, page, p.out[page], x);
    }
    hide P.Canon, P.In;
  }

  lemma PoolOf(s: Slab)
    requires SlabInv(s)
    ensures L.PoolInv(|s.usage|, s.pool) && ZoneSize(s.zsize) && |s.arr| == NZONES
  {
    hide L.PoolInv, Owners, ZonesOk, Marks, NoDup;
  }

  // ---- rt_malloc -----------------------------------------------------------------------------

  /** A large block of n whole pages. */
  ghost predicate LargeBlock(s: Slab, s': Slab, a: nat, n: nat) {
    && a % PAGE == 0 && PagesOut(s.pool, s'.pool, a / PAGE, n) && a / PAGE < |s.usage|
    && s' == s.(pool := s'.pool, usage := s.usage[a / PAGE := Usage(Large, n)], large := s.large[a / PAGE := n])
  }

  /** From a limit on a block has pages of its own; RT_NULL and nothing changed means that there are not so
      many free ones in a row. */
  lemma LargeOutcome(s: Slab, size: nat)
    requires SlabInv(s) && Limit(s.zsize) <= size < WORD
    ensures var n := PagesFor(size); var (s', r) := Malloc(s, size);
      if NoPages(s.pool, n) then s' == s && r == None else r.Some? && LargeBlock(s, s', r.value, n)
  {
    PoolOf(s);
    hide SlabInv;
    TakePages(|s.usage|, s.pool, PagesFor(size));
    hide L.PoolInv, PagesFor, PagesOut, NoPages, P.Next, P.Alloc;
    LimitIs(s.zsize);
    var r := P.Alloc(s.pool.runs, PagesFor(size)).1;
    if r.Some? { PageNumber(r.value); }
  }

  lemma PageNumber(p: nat)
    ensures p * PAGE / PAGE == p && p * PAGE % PAGE == 0
  {}

  /** The first zone of the list of the index gives a chunk; it leaves the list with its last one. */
  ghost predicate FromZone(s: Slab, s': Slab, a: nat, zi: nat) {
    && zi < |s.arr| && s.arr[zi] != []
    && var page := s.arr[zi][0];
       && page in s.zones && page in s'.zones && ChunkOut(s.zones[page], s'.zones[page], a)
       && s' == s.(zones := s.zones[page := s'.zones[page]], arr := s'.arr)
       && if s.zones[page].nfree > 1 then s'.arr == s.arr
          else |s'.arr| == |s.arr| && s.arr[zi] == [page] + s'.arr[zi]
               && forall i :: 0 <= i < |s.arr| && i != zi ==> s'.arr[i] == s.arr[i]
  }

  /** A new zone on page `page` alone in the list of its index gives its first chunk. */
  ghost predicate ZoneOpened(s: Slab, s': Slab, a: nat, zi: nat, size: nat, page: nat) {
    && page in s'.zones && Opened(s'.zones[page], s.zsize, page, zi, size) && a == s'.zones[page].base
    && s' == s.(zones := s.zones[page := s'.zones[page]], arr := s'.arr, cache := s'.cache, usage := s'.usage,
                pool := s'.pool)
    && zi < |s.arr| == |s'.arr| && s'.arr[zi] == [page]
    && forall i :: 0 <= i < |s.arr| && i != zi ==> s'.arr[i] == s.arr[i]
  }

  ghost predicate FromCache(s: Slab, s': Slab, page: nat) {
    s.cache == [page] + s'.cache && s'.pool == s.pool && s'.usage == s.usage
  }

  ghost predicate FromPages(s: Slab, s': Slab, page: nat, n: nat) {
    && s.cache == s'.cache == [] && PagesOut(s.pool, s'.pool, page, n) && |s'.usage| == |s.usage|
    && forall i :: 0 <= i < |s.usage| ==>
         s'.usage[i] == if page <= i < page + n then Usage(Small, i - page) else s.usage[i]
  }

  /** A small block: a chunk of the first zone that has room; if there is none, of a new zone in the empty
      zone cached last; if there is none, of a new zone on fresh pages; if there are none, RT_NULL. */
  lemma SmallOutcome(s: Slab, size: nat)
    requires SlabInv(s) && 0 < size < Limit(s.zsize)
    ensures var (chunk, zi) := ZoneIndex(size); var (s', r) := Malloc(s, size);
      && zi < |s.arr|
      && if s.arr[zi] != [] then r.Some? && FromZone(s, s', r.value, zi)
         else if s.cache != [] then
           r.Some? && ZoneOpened(s, s', r.value, zi, chunk, s.cache[0]) && FromCache(s, s', s.cache[0])
         else if NoPages(s.pool, s.zsize / PAGE) then s' == s && r == None
         else r.Some? && exists page ::
           ZoneOpened(s, s', r.value, zi, chunk, page) && FromPages(s, s', page, s.zsize / PAGE)
  {
    PoolOf(s);
    hide SlabInv, L.PoolInv, ZoneOpened, FromCache, FromPages, FromZone, MallocZone, MallocNew, HasRoom, PagesOut, NoPages;
    MallocChunkSize(s.zsize, size);
    var (chunk, zi) := ZoneIndex(size);
    hide ZoneIndex;
    RoomyHead(s, zi);
    if s.arr[zi] != [] {
      FromZoneDoes(s, zi);
    } else {
      NewDoes(s, zi, chunk);
    }
  }

  lemma FromZoneDoes(s: Slab, zi: nat)
    requires SlabInv(s) && zi < NZONES == |s.arr| && s.arr[zi] != []
    ensures HasRoom(s, zi)
    ensures var (s', a) := MallocZone(s, zi); FromZone(s, s', a, zi)
  {
    RoomyHead(s, zi);
    hide SlabInv, ChunkOut, TakeChunk;
    TakeDoes(s.zones[s.arr[zi][0]]);
    TakeCount(s.zones[s.arr[zi][0]]);
    assert s.arr[zi] == [s.arr[zi][0]] + s.arr[zi][1..];
  }

  lemma TakeCount(z: Zone)
    requires Books(z) && z.nfree > 0 && (z.uindex + 1 == z.nmax ==> z.free != [])
    ensures TakeChunk(z).0.nfree == z.nfree - 1
  {}

  lemma NewDoes(s: Slab, zi: nat, size: nat)
    requires SlabInv(s) && zi < NZONES == |s.arr| && s.arr[zi] == [] && ChunkSize(s.zsize, size)
    ensures var (s', r) := MallocNew(s, zi, size);
      if s.cache != [] then
        r.Some? && ZoneOpened(s, s', r.value, zi, size, s.cache[0]) && FromCache(s, s', s.cache[0])
      else if NoPages(s.pool, s.zsize / PAGE) then s' == s && r == None
      else r.Some? && exists page ::
        ZoneOpened(s, s', r.value, zi, size, page) && FromPages(s, s', page, s.zsize / PAGE)
  {
    PoolOf(s);
    hide SlabInv, L.PoolInv, PagesOut, NoPages, Opened, P.Next, P.Alloc, ChunkSize, ZoneSize, NewZone, ZoneOpened;
    var n := s.zsize / PAGE;
    var s' := MallocNew(s, zi, size).0;
    if s.cache != [] {
      OpenDoes(s, s.(cache := s.cache[1..]), s.cache[0], zi, size);
    } else {
      TakePages(|s.usage|, s.pool, n);
      var r := P.Alloc(s.pool.runs, n).1;
      if r.Some? {
        var s1 := s.(pool := P.Next(s.pool, P.Take(n)), usage := Mark(s.usage, r.value, n, Small));
        OpenDoes(s, s1, r.value, zi, size);
        assert FromPages(s, s', r.value, n);
      }
    }
  }

  lemma OpenDoes(s: Slab, s1: Slab, page: nat, zi: nat, size: nat)
    requires ZoneSize(s.zsize) && ChunkSize(s.zsize, size) && zi < |s.arr| && s.arr[zi] == []
    requires s1 == s.(cache := s1.cache, pool := s1.pool, usage := s1.usage)
    ensures var (s', a) := OpenZone(s1, page, zi, size);
      ZoneOpened(s, s', a, zi, size, page) && s'.cache == s1.cache && s'.pool == s1.pool && s'.usage == s1.usage
  {
    NewZoneDoes(s.zsize, page, zi, size);
    hide Opened, NewZone, ZoneSize;
  }

  // ---- rt_free -------------------------------------------------------------------------------

  /** rt_free of a large block gives exactly its pages back. */
  lemma FreeLargeOutcome(s: Slab, p: nat)
    requires SlabInv(s) && p in s.large
    ensures Freeable(s, p * PAGE) && p < |s.usage|
    ensures var s' := Free(s, p * PAGE);
      && s' == s.(pool := s'.pool, usage := s.usage[p := Usage(Large, 0)], large := s.large - {p})
      && PagesBack(s.pool, s'.pool, p, s.large[p])
  {
    LargeFound(s, p);
    LargePages(s, p);
    PoolOf(s);
    hide SlabInv, L.PoolInv, PagesBack, P.Next, OwnerOf;
    GivePages(|s.usage|, s.pool, p);
  }

  lemma LargePages(s: Slab, p: nat)
    requires SlabInv(s) && p in s.large
    ensures p in s.pool.out && s.pool.out[p] == s.large[p] && p < |s.usage|
  {
    hide L.PoolInv, Lists, ZonesOk, NoDup, MarkedSmall;
  }

  /** The zone's chunk is back in its free list, and a zone that had no room is now the first of its list. */
  ghost predicate ChunkReturned(s: Slab, s1: Slab, p: nat, a: nat) {
    && p in s.zones && p in s1.zones && ChunkBack(s.zones[p], s1.zones[p], a)
    && s1 == s.(zones := s.zones[p := s1.zones[p]], arr := s1.arr)
    && var zi := s.zones[p].zi;
       && zi < |s.arr| == |s1.arr| && (forall i :: 0 <= i < |s.arr| && i != zi ==> s1.arr[i] == s.arr[i])
       && s1.arr[zi] == if s.zones[p].nfree == 0 then [p] + s.arr[zi] else s.arr[zi]
  }

  /** Zone p has left the list of its index. */
  ghost predicate ZoneGone(s: Slab, s': Slab, p: nat) {
    && p in s.zones
    && s' == s.(zones := s.zones - {p}, arr := s'.arr, cache := s'.cache, pool := s'.pool, usage := s'.usage)
    && var zi := s.zones[p].zi;
       && zi < |s.arr| == |s'.arr| && (forall i :: 0 <= i < |s.arr| && i != zi ==> s'.arr[i] == s.arr[i])
       && exists k: nat :: k < |s.arr[zi]| && s.arr[zi][k] == p && s'.arr[zi] == s.arr[zi][..k] + s.arr[zi][k + 1..]
  }

  /** An empty zone is kept back while there are fewer than two, and otherwise its pages become free. */
  ghost predicate Kept(s: Slab, s': Slab, p: nat) {
    if |s.cache| < RELEASE then s'.cache == [p] + s.cache && s'.pool == s.pool && s'.usage == s.usage
    else
      && s'.cache == s.cache && PagesBack(s.pool, s'.pool, p, s.zsize / PAGE) && |s'.usage| == |s.usage|
      && forall i :: 0 <= i < |s.usage| ==>
           s'.usage[i] == if p <= i < p + s.zsize / PAGE then Usage(Unused, 0) else s.usage[i]
  }

  /** rt_free of a small block: the chunk is handed out next once there is no unused memory. Its zone goes if
      and only if all its chunks are free and it is not the only one with room for this size; then its pages
      are kept back or become free. */
  lemma FreeSmallOutcome(s: Slab, p: nat, a: nat)
    requires SlabInv(s) && p in s.zones && a in LiveIn(s.zones[p])
    ensures Freeable(s, a) && s.zones[p].zi < |s.arr|
    ensures var s' := Free(s, a); var zi := s.zones[p].zi;
      exists s1 :: ChunkReturned(s, s1, p, a)
        && if s.zones[p].nfree + 1 == s.zones[p].nmax && |s1.arr[zi]| > 1 then ZoneGone(s1, s', p) && Kept(s1, s', p)
           else s' == s1
  {
    SmallFound(s, p, a);
    ZoneAt(s, p);
    var s1 := Returned(s, p, a);
    ReturnedKeeps(s, p, a);
    ReturnedDoes(s, p, a);
    ReturnedThen(s, p, a);
    FreeIs(s, p, a);
    if s.zones[p].nfree + 1 == s.zones[p].nmax && |s1.arr[s.zones[p].zi]| > 1 { RetireDoes(s1, p); }
    hide SlabInv, LiveIn, Returned, Retire, FreeSmall, ChunkReturned, ZoneGone, Kept, Freeable;
    assert ChunkReturned(s, s1, p, a);
  }

  lemma FreeIs(s: Slab, p: nat, a: nat)
    requires Freeable(s, a) && OwnerOf(s, a) == p && s.usage[a / PAGE].kind == Small
    requires p in s.zones && s.zones[p].zi < |s.arr|
    ensures var s1 := Returned(s, p, a);
      && s.zones[p].zi < |s1.arr| && p in s1.zones && s1.zones[p].zi == s.zones[p].zi
      && Free(s, a) == if s.zones[p].nfree + 1 == s.zones[p].nmax && |s1.arr[s.zones[p].zi]| > 1 then Retire(s1, p) else s1
  {
    hide Retire;
  }

  lemma ReturnedDoes(s: Slab, p: nat, a: nat)
    requires p in s.zones && s.zones[p].zi < |s.arr|
    ensures ChunkReturned(s, Returned(s, p, a), p, a)
  {}

  lemma RetireDoes(s: Slab, p: nat)
    requires SlabInv(s) && p in s.zones && s.zones[p].zi < |s.arr| && p in s.arr[s.zones[p].zi]
    ensures ZoneGone(s, Retire(s, p), p) && Kept(s, Retire(s, p), p)
  {
    PoolOf(s);
    LeavesArray(s, p);
    var zi := s.zones[p].zi;
    var s1 := s.(zones := s.zones - {p}, arr := s.arr[zi := Without(s.arr[zi], p)]);
    ListOnce(s, zi);
    OneOut(s.arr[zi], p);
    hide SlabInv, Leaving, Without, NoDup, L.PoolInv, P.Next, PagesBack;
    LeavingPages(s1, p);
    if |s.cache| >= RELEASE { GivePages(|s.usage|, s.pool, p); }
  }

  lemma ListOnce(s: Slab, zi: nat)
    requires SlabInv(s) && zi < |s.arr|
    ensures NoDup(s.arr[zi])
  {
    hide L.PoolInv, Owners, ZonesOk, Marks, NoDup;
  }

  lemma OneOut(l: seq<nat>, p: nat)
    requires NoDup(l) && p in l
    ensures exists k: nat :: k < |l| && l[k] == p && Without(l, p) == l[..k] + l[k + 1..]
  {
    var k: nat :| k < |l| && l[k] == p;
    WithoutAt(l, k);
    hide NoDup, Without;
  }

  lemma LeavingPages(s: Slab, p: nat)
    requires Leaving(s, p)
    ensures |s.cache| <= RELEASE && p in s.pool.out && s.pool.out[p] == s.zsize / PAGE && p + s.zsize / PAGE <= |s.usage|
  {
    CacheBound(s, p);
    BackToPages(s, p);
    hide L.PoolInv, Owners, ZonesOk, Lists, Marks;
  }

  /** Last in, first out: what rt_free takes back from a zone without unused memory is what rt_malloc hands out
      next, and the heap is as it was. */
  lemma FreeThenMalloc(s: Slab, p: nat, a: nat, size: nat)
    requires SlabInv(s) && p in s.zones && a in LiveIn(s.zones[p])
    requires 0 < size < Limit(s.zsize) && ZoneIndex(size).1 == s.zones[p].zi < |s.arr|
    requires s.zones[p].uindex + 1 == s.zones[p].nmax && s.zones[p].nfree + 1 < s.zones[p].nmax
    requires s.zones[p].nfree > 0 ==> s.arr[s.zones[p].zi] != [] && s.arr[s.zones[p].zi][0] == p
    ensures Freeable(s, a) && Malloc(Free(s, a), size) == (s, Some(a))
  {
    hide SlabInv, LiveIn, ZoneIndex, Freeable, OwnerOf, Limit, HasRoom, MallocZone, Malloc, Free;
    var s1 := Returned(s, p, a);
    ReturnedZone(s, p, a);
    FreeThenTake(s, p, a);
    FromFirstZone(s1, size);
  }

  lemma ReturnedZone(s: Slab, p: nat, a: nat)
    requires SlabInv(s) && p in s.zones && a in LiveIn(s.zones[p]) && s.zones[p].nfree + 1 < s.zones[p].nmax
    ensures Freeable(s, a) && s.zones[p].zi < |s.arr| && s.zones[p].uindex >= 0 && s.zones[p].nfree >= 0
    ensures Free(s, a) == Returned(s, p, a)
  {
    SmallFound(s, p, a);
    ZoneAt(s, p);
    hide SlabInv, LiveIn, Freeable, Returned, Retire, OwnerOf, Free;
    FreeIs(s, p, a);
    CountIsNat(s.zones[p]);
  }

  lemma FreeThenTake(s: Slab, p: nat, a: nat)
    requires p in s.zones && s.zones[p].zi < |s.arr| && s.zones[p].uindex >= 0
    requires s.zones[p].uindex + 1 == s.zones[p].nmax && 0 <= s.zones[p].nfree
    requires s.zones[p].nfree > 0 ==> s.arr[s.zones[p].zi] != [] && s.arr[s.zones[p].zi][0] == p
    ensures var s1, zi := Returned(s, p, a), s.zones[p].zi; HasRoom(s1, zi) && MallocZone(s1, zi) == (s, a)
  {
    var z, l := s.zones[p], s.arr[s.zones[p].zi];
    assert ([a] + z.free)[1..] == z.free;
    assert ([p] + l)[1..] == l;
    assert s.zones[p := PutChunk(z, a)][p := z] == s.zones;
    assert s.arr[z.zi := [p] + l][z.zi := l] == s.arr;
  }

  lemma FromFirstZone(s: Slab, size: nat)
    requires 0 < size < Limit(s.zsize) && HasRoom(s, ZoneIndex(size).1)
    ensures var (s', a) := MallocZone(s, ZoneIndex(size).1); Malloc(s, size) == (s', Some(a))
  {
    hide HasRoom, MallocZone, ZoneIndex, Limit;
  }

  lemma CountIsNat(z: Zone)
    requires Books(z)
    ensures z.nfree >= 0
  {}

  // ---- rt_system_heap_init -------------------------------------------------------------------

  /** After initialisation the first k pages hold memusage, all others are free, and there is no zone. */
  lemma CreateOutcome(zsize: nat, total: nat, k: nat, usage: seq<Usage>)
    requires 0 < k <= total
    ensures var s := Create(zsize, total, k, usage);
      && s.pool.out == map[0 := k] && (forall x: nat :: P.In(s.pool.runs, x) <==> k <= x < total)
      && s.zones == map[] && s.large == map[] && s.cache == [] && |s.arr| == NZONES
      && forall zi :: 0 <= zi < NZONES ==> s.arr[zi] == []
  {
    var p := P.Pool([P.Run(0, total)], map[]);
    L.WholeHeap(total);
    assert p.runs[1..] == [];
    if k < total { assert P.Alloc(p.runs, k).0 == [P.Run(k, total - k)]; }
  }
}
