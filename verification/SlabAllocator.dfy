/** The slab heap with its zone lists, zone headers and free chunks, updated in place
    (software/src/slab.c:340-389, 462-879). */
module SlabAllocator {
  import opened Base
  import opened SlabSpec
  import opened SlabLemmas
  import opened SlabHeap
  import P = PageSpec
  import L = PageLemmas
  import Pages = PageList
  import Z = ZoneLinks
  import H = ZoneHeaders
  import C = Chains

  /** The zone size of a heap of `limit` bytes: up to 64 MB, up to 128 MB and above. */
  function ZoneSizeFor(limit: nat): nat {
    if limit / 1024 <= 65536 then 32768 else if limit / 1024 <= 131072 then 65536 else 131072
  }

  /** The loop of rt_system_heap_init that chooses the zone size for a heap of `limit` bytes. */
  method ChooseZoneSize(limit: nat) returns (zsize: nat)
    ensures ZoneSize(zsize) && zsize == ZoneSizeFor(limit)
  {
    zsize := 32768;
    while zsize < 131072 && zsize * 2 < limit / 1024
      invariant ZoneSize(zsize)
      invariant zsize > 32768 ==> zsize < limit / 1024
      decreases 131072 - zsize
    {
      zsize := zsize * 2;
    }
  }

  // ---- Which links are free to be written ----------------------------------------------------

  /** A zone that is about to be listed is in no list yet. */
  lemma NotListed(s: Slab, arr: seq<seq<nat>>, zi: nat, page: nat)
    requires SlabInv(s) && zi < |arr| && s.arr == arr[zi := [page] + arr[zi]]
    ensures Z.Absent(arr, s.cache, page)
  {
    hide L.PoolInv, Marks, ZonesOk;
    assert page in s.arr[zi] && Roomy(s.zones, zi, page);
    assert NoDup([page] + arr[zi]);
    forall i | 0 <= i < |arr| ensures page !in arr[i] {
      if i == zi {
        HeadOnce(page, arr[zi]);
      } else {
        assert page in s.arr[i] ==> Roomy(s.zones, i, page);
      }
    }
  }

  lemma HeadOnce(page: nat, l: seq<nat>)
    requires NoDup([page] + l)
    ensures page !in l
  {
    forall k | 0 <= k < |l| ensures l[k] != page {
      assert ([page] + l)[k + 1] == l[k] && ([page] + l)[0] == page;
    }
  }

  /** No byte of a live block is the start of a free chunk. */
  lemma LiveNotFree(s: Slab, p: nat, a: nat, l: nat, x: nat)
    requires SlabInv(s) && LiveAt(s, p, a, l) && a <= x < a + l
    ensures H.NotFree(s.zones, x) && x < |s.usage| * PAGE
  {
    hide SlabInv, LiveAt;
    InHeap(s, p, a, l);
    forall q | q in s.zones ensures x !in s.zones[q].free {
      if x in s.zones[q].free {
        ZoneExtent(s, q, x);
        FreeApart(s, p, a, l, q, x);
      }
    }
  }

  lemma InHeap(s: Slab, p: nat, a: nat, l: nat)
    requires SlabInv(s) && LiveAt(s, p, a, l)
    ensures a + l <= |s.usage| * PAGE
  {
    Extent(s, p, a, l);
    PoolRanges(|s.usage|, s.pool);
    hide L.PoolInv, LiveAt, Lists, Marks, ZonesOk, Owners;
  }

  class Allocator {
    const pages: Pages.PageList
    const zsize: nat
    const usage: array<Usage>
    const lists: Z.ZoneLinks      // zone_array and zone_free
    const heads: H.ZoneHeaders
    ghost var out: map<nat, nat>
    ghost var large: map<nat, nat>

    ghost function View(): Slab
      reads this, pages, usage, lists, heads
    {
      Slab(zsize, P.Pool(pages.runs, out), heads.zones, lists.arr, lists.cache, usage[..], large)
    }

    ghost function Parts(): set<object> {
      {this, pages, pages.next, pages.len, usage, lists, lists.next, lists.heads, heads, heads.chunk}
    }

    /** The parts are apart in memory and cover the same pages. */
    ghost predicate Sizes() {
      && usage.Length == pages.next.Length == lists.next.Length && heads.chunk.Length == usage.Length * PAGE
      && pages.next !in {lists.next, lists.heads, heads.chunk} && pages.len !in {lists.next, lists.heads, heads.chunk}
      && heads.chunk !in {lists.next, lists.heads}
    }

    ghost predicate Valid()
      reads Parts()
    {
      Sizes() && pages.Valid() && lists.Valid() && heads.Valid() && SlabInv(View())
    }

    /** rt_system_heap_init: all pages free, then the first ones for memusage, whose entries are
        whatever the memory held. */
    constructor (total: nat, table: array<Usage>)
      requires 0 < total < WORD / PAGE && table.Length == total
      ensures Valid() && fresh(Parts() - {table}) && usage == table
      ensures View() == Create(ZoneSizeFor(total * PAGE), total, (total * 4 + PAGE - 1) / PAGE, table[..])
    {
      hide SlabInv, P.Alloc, ZoneSizeFor,
           Z.Linked, Z.Separate, H.Heads, Pages.Seg, Pages.Inside, P.Canon;
      var size := ChooseZoneSize(total * PAGE);
      zsize, usage := size, table;
      pages := new Pages.PageList(total);
      lists := new Z.ZoneLinks(total, NZONES);
      heads := new H.ZoneHeaders(total * PAGE);
      out, large := map[], map[];
      new;
      CreateInv(size, total, (total * 4 + PAGE - 1) / PAGE, table[..]);
      Reserve((total * 4 + PAGE - 1) / PAGE);
      assert View() == Create(size, total, (total * 4 + PAGE - 1) / PAGE, table[..]);
      assert Sizes();
    }

    /** The first k pages are taken out for memusage. */
    method Reserve(k: nat)
      requires Sizes() && pages.Valid()
      modifies this`out, pages, pages.next, pages.len
      ensures pages.Valid()
      ensures P.Pool(pages.runs, out) == P.Next(P.Pool(old(pages.runs), old(out)), P.Take(k))
    {
      hide P.Alloc, Pages.Seg, Pages.Inside, P.Canon;
      var first := pages.PageAlloc(k);
      if first != Pages.NULL {
        out := out[first := k];
      }
    }

    /** The loops that mark the pages of a zone. */
    method MarkPages(page: nat, n: nat, kind: Kind)
      requires page + n <= usage.Length
      modifies usage
      ensures usage[..] == Mark(old(usage[..]), page, n, kind)
    {
      ghost var u := usage[..];
      for off := 0 to n
        invariant usage[..] == Mark(u, page, off, kind)
      {
        usage[page + off] := Usage(kind, if kind == Small then off else 0);
      }
    }

    /** rt_malloc for large blocks */
    method MallocPages(size: nat) returns (r: Option<nat>)
      requires Valid() && 0 < size < WORD
      modifies this, pages, pages.next, pages.len, usage
      ensures Valid() && View() == MallocLarge(old(View()), size).0 && r == MallocLarge(old(View()), size).1
    {
      hide SlabInv, Gained, P.Alloc, L.PoolInv, Ranges, PagesFor,
           Z.Linked, Z.Separate, H.Heads, Pages.Seg, Pages.Inside, P.Canon;
      MallocLargeKeeps(View(), size);
      FreshOwner(View(), PagesFor(size));
      var n := PagesFor(size);
      var page := pages.PageAlloc(n);
      if page == Pages.NULL {
        return None;
      }
      usage[page] := Usage(Large, n);
      out := out[page := n];
      large := large[page := n];
      return Some(page * PAGE);
    }

    lemma FreshOwner(s: Slab, n: nat)
      requires SlabInv(s)
      ensures P.Alloc(s.pool.runs, n).1.Some? ==> P.Alloc(s.pool.runs, n).1.value < |s.usage|
      ensures P.Next(s.pool, P.Take(n)).out
              == match P.Alloc(s.pool.runs, n).1 case None => s.pool.out case Some(r) => s.pool.out[r := n]
    {
      hide L.PoolInv, Lists, Marks, ZonesOk, Owners, P.Alloc;
      if P.Alloc(s.pool.runs, n).1.Some? { FreshPages(|s.usage|, s.pool, n); }
    }

    /** rt_malloc from the first zone that has room */
    method FromZone(zi: nat) returns (a: nat)
      requires Valid() && zi < NZONES && HasRoom(View(), zi)
      modifies heads, lists, lists.next, lists.heads
      ensures Valid() && View() == MallocZone(old(View()), zi).0 && a == MallocZone(old(View()), zi).1
    {
      hide SlabInv, Gained, TakeChunk,
           Z.Linked, Z.Separate, H.Heads, Pages.Seg, Pages.Inside, P.Canon;
      MallocZoneKeeps(View(), zi);
      var page := lists.First(zi);
      a := heads.Take(page);
      HeadNow(page);
      if heads.headers[page].nfree == 0 {
        lists.Pop(zi);
      }
    }

    lemma HeadNow(page: nat)
      requires heads.Valid() && page in heads.zones
      ensures page in heads.headers
      ensures var h, z := heads.headers[page], heads.zones[page];
        h.nfree == z.nfree && h.nmax == z.nmax && h.zi == z.zi
    {
      heads.HeadAt(page);
    }

    /** The header of a new zone, and its place in zone_array */
    method Open(page: nat, zi: nat, size: nat) returns (a: nat)
      requires size > 0 && zi < |lists.arr| && page < lists.next.Length && Sizes() && lists.Valid() && heads.Valid()
      requires Z.Absent(lists.arr, lists.cache, page)
      modifies heads, lists, lists.next, lists.heads
      ensures lists.Valid() && heads.Valid()
      ensures View() == OpenZone(old(View()), page, zi, size).0 && a == OpenZone(old(View()), page, zi, size).1
    {
      hide Z.Absent, NewZone,
           Z.Linked, Z.Separate, H.Heads, Pages.Seg, Pages.Inside, P.Canon;
      a := heads.Open(zsize, page, zi, size);
      lists.Push(zi, page);
    }

    /** rt_malloc when no zone of the index has room */
    method FromNew(zi: nat, size: nat) returns (r: Option<nat>)
      requires Valid() && zi < NZONES == |lists.arr| && ChunkSize(zsize, size) && size == SizeOf(zi)
      modifies Parts()
      ensures Valid() && View() == MallocNew(old(View()), zi, size).0 && r == MallocNew(old(View()), zi, size).1
    {
      hide SlabInv, Gained, Opening, P.Alloc, Mark, NewZone,
           Z.Linked, Z.Separate, H.Heads, Pages.Seg, Pages.Inside, P.Canon;
      MallocNewKeeps(View(), zi, size);
      if P.Alloc(pages.runs, zsize / PAGE).1.Some? { PagesOpening(View()); }
      FreshOwner(View(), zsize / PAGE);
      var a;
      var page := lists.Cached();
      if page != C.NULL {
        lists.Uncache();
        a := Open(page, zi, size);
        return Some(a);
      }
      page := pages.PageAlloc(zsize / PAGE);
      if page == Pages.NULL {
        return None;
      }
      out := out[page := zsize / PAGE];
      MarkPages(page, zsize / PAGE, Small);
      NotListed(MallocNew(old(View()), zi, size).0, lists.arr, zi, page);
      a := Open(page, zi, size);
      return Some(a);
    }

    /** rt_malloc */
    method Malloc(size: nat) returns (r: Option<nat>)
      requires Valid() && size < WORD
      modifies Parts()
      ensures Valid() && View() == SlabSpec.Malloc(old(View()), size).0 && r == SlabSpec.Malloc(old(View()), size).1
    {
      if size == 0 {
        return None;
      }
      if size >= Limit(zsize) {
        r := MallocPages(size);
        return;
      }
      SizeOfZones(View());
      MallocChunkSize(zsize, size);
      IndexFixesSize(size);
      var (chunk, zi) := ZoneIndex(size);
      RoomyHead(View(), zi);
      hide SlabInv, ZoneIndex, SizeOf, HasRoom, MallocZone, MallocNew, ChunkSize, ZoneOk, Roomy,
           Z.Linked, Z.Separate, H.Heads, Pages.Seg, Pages.Inside, P.Canon;
      var page := lists.First(zi);
      if page != C.NULL {
        var a := FromZone(zi);
        return Some(a);
      }
      assert chunk > 0 by { ChunkPositive(zsize, chunk); }
      r := FromNew(zi, chunk);
    }

    lemma ChunkPositive(z: nat, size: nat)
      requires ChunkSize(z, size)
      ensures size > 0
    {}

    /** The tail of rt_free: an empty zone that is not the only one with room is retired. */
    method RetireZone(page: nat)
      requires Valid() && page in heads.zones && heads.zones[page].zi < |lists.arr| == NZONES
      requires LiveIn(heads.zones[page]) == {} && page in lists.arr[heads.zones[page].zi] && page < usage.Length
      modifies Parts()
      ensures Valid() && View() == Retire(old(View()), page)
    {
      hide SlabInv, LiveIn, Without, Mark, P.Free, Leaving, ReleaseZone, Z.Absent,
           Z.Linked, Z.Separate, H.Heads, Pages.Seg, Pages.Inside, P.Canon;
      RetireKeeps(View(), page);
      LeavesArray(View(), page);
      HeadNow(page);
      var zi := heads.headers[page].zi;
      ghost var s1 := View().(zones := heads.zones - {page}, arr := lists.arr[zi := Without(lists.arr[zi], page)]);
      CacheBound(s1, page);
      BackToPages(s1, page);
      lists.TakeOut(zi, page);
      heads.Close(page);
      assert View() == s1;
      lists.Keep(page);
      if lists.kept > RELEASE {
        var first := lists.Cached();
        lists.Uncache();
        Release(first);
      }
    }

    /** The pages of a zone that is not kept go back to the page allocator. */
    method Release(page: nat)
      requires Sizes() && pages.Valid() && Leaving(View(), page)
      modifies this`out, pages, pages.next, pages.len, usage
      ensures pages.Valid() && Fits(old(View()), page, zsize / PAGE) && page in old(out)
      ensures View() == ReleaseZone(old(View()), page)
    {
      hide SlabInv, Mark, P.Free, Leaving, L.Apart, L.PoolInv,
           Z.Linked, Z.Separate, H.Heads, Pages.Seg, Pages.Inside, P.Canon;
      BackToPages(View(), page);
      GiveParts(View(), page);
      MarkPages(page, zsize / PAGE, Unused);
      pages.PageFree(page, zsize / PAGE);
      out := out - {page};
    }

    lemma GiveParts(s: Slab, page: nat)
      requires Leaving(s, page)
      ensures page in s.pool.out && s.pool.out[page] == s.zsize / PAGE > 0
      ensures page + s.zsize / PAGE <= |s.usage| && L.Apart(s.pool.runs, page, s.zsize / PAGE)
    {
      hide Owners, Marks, Lists, ZonesOk, L.PoolInv;
      PoolRanges(|s.usage|, s.pool);
      L.GiveKeeps(|s.usage|, s.pool, page);
    }

    /** rt_free of a chunk, up to the test whether its zone is empty */
    method PutBackChunk(page: nat, a: nat)
      requires Valid() && page in heads.zones && a in LiveIn(heads.zones[page])
      modifies heads, heads.chunk, lists, lists.next, lists.heads
      ensures Valid() && page in old(heads.zones) && old(heads.zones[page].zi) < |old(lists.arr)| && page < usage.Length
      ensures View() == Returned(old(View()), page, a)
    {
      hide SlabInv, LiveIn, PutChunk, Lost, Z.Absent, H.NotFree,
           Z.Linked, Z.Separate, H.Heads, Pages.Seg, Pages.Inside, P.Canon;
      ReturnedKeeps(View(), page, a);
      SameShape(heads.zones[page], a);
      ghost var s := View();
      Writable(s, page, a);
      heads.Put(page, a);
      HeadNow(page);
      var h := heads.headers[page];
      if h.nfree == 1 {
        NotListed(Returned(s, page, a), lists.arr, h.zi, page);
        lists.Push(h.zi, page);
      }
    }

    lemma Writable(s: Slab, page: nat, a: nat)
      requires SlabInv(s) && page in s.zones && a in LiveIn(s.zones[page])
      ensures H.NotFree(s.zones, a) && a < |s.usage| * PAGE && page < |s.usage|
    {
      var l := s.zones[page].size;
      assert LiveAt(s, page, a, l);
      ZoneAt(s, page);
      hide SlabInv, LiveAt, LiveIn, H.NotFree;
      LivePositive(s, page, a, l);
      LiveNotFree(s, page, a, l, a);
    }

    /** rt_free of a chunk */
    method FreeChunk(page: nat, a: nat)
      requires Valid() && page in heads.zones && a in LiveIn(heads.zones[page])
      modifies Parts()
      ensures Valid() && page in old(heads.zones) && old(heads.zones[page].zi) < |old(lists.arr)|
      ensures View() == FreeSmall(old(View()), page, a)
    {
      hide SlabInv, LiveIn, Retire, PutChunk, Lost,
           Z.Linked, Z.Separate, H.Heads, Pages.Seg, Pages.Inside, P.Canon;
      ReturnedKeeps(View(), page, a);
      SameShape(heads.zones[page], a);
      PutBackChunk(page, a);
      InItsList(View(), page);
      HeadNow(page);
      var h := heads.headers[page];
      if h.nfree == h.nmax {
        var more := lists.Others(h.zi, page);
        if more {
          RetireZone(page);
        }
      }
    }

    lemma InItsList(s: Slab, page: nat)
      requires SlabInv(s) && page in s.zones && s.zones[page].nfree > 0
      ensures s.zones[page].zi < |s.arr| && page in s.arr[s.zones[page].zi]
    {
      hide L.PoolInv, Owners, Marks, ZonesOk;
    }

    /** rt_free of a large block */
    method FreePages(page: nat)
      requires Valid() && page in large
      modifies this`out, this`large, pages, pages.next, pages.len, usage
      ensures Valid() && page in old(out) && page < usage.Length
      ensures View() == FreeLarge(old(View()), page)
    {
      hide SlabInv, P.Free, L.Apart, L.PoolInv, Lost,
           Z.Linked, Z.Separate, H.Heads, Pages.Seg, Pages.Inside, P.Canon;
      FreeLargeKeeps(View(), page);
      LargeParts(View(), page);
      var n := usage[page].size;
      usage[page] := Usage(usage[page].kind, 0);
      large := large - {page};
      pages.PageFree(page, n);
      out := out - {page};
    }

    lemma LargeParts(s: Slab, page: nat)
      requires SlabInv(s) && page in s.large
      ensures page < |s.usage| && page in s.pool.out && s.usage[page] == Usage(Large, s.pool.out[page])
      ensures s.pool.out[page] > 0 && page + s.pool.out[page] <= |s.usage|
      ensures L.Apart(s.pool.runs, page, s.pool.out[page])
    {
      hide Lists, ZonesOk, L.PoolInv;
      PoolRanges(|s.usage|, s.pool);
      L.GiveKeeps(|s.usage|, s.pool, page);
    }

    /** rt_free of an address a caller holds */
    method Free(ghost p: nat, a: nat, ghost l: nat)
      requires Valid() && LiveAt(View(), p, a, l)
      modifies Parts()
      ensures Valid() && Freeable(old(View()), a) && View() == SlabSpec.Free(old(View()), a)
      ensures Lost(old(View()), View(), p, a)
    {
      hide SlabInv, LiveIn, FreeSmall, FreeLarge, Lost,
           Z.Linked, Z.Separate, H.Heads, Pages.Seg, Pages.Inside, P.Canon;
      OwnerFound(View(), p, a, l);
      FreeKeeps(View(), p, a, l);
      if usage[a / PAGE].kind == Large {
        FreePages(a / PAGE);
      } else {
        FreeChunk(a / PAGE - usage[a / PAGE].size, a);
      }
    }

    /** A caller writes any word anywhere in a block it holds: the heap stays as it is. */
    method Write(ghost p: nat, ghost a: nat, ghost l: nat, x: nat, v: int)
      requires Valid() && LiveAt(View(), p, a, l) && a <= x < a + l
      modifies heads.chunk
      ensures Valid() && View() == old(View())
    {
      hide SlabInv, LiveAt, H.NotFree;
      LiveNotFree(View(), p, a, l, x);
      heads.Write(x, v);
    }
  }
}
