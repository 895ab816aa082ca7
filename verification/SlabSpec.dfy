/** The zones of the slab heap on values (software/src/slab.c:395-636, 746-879). Addresses count
    bytes from the start of the heap. */
module SlabSpec {
  import opened Base
  import P = PageSpec

  const PAGE: nat := 4096          // RT_MM_PAGE_SIZE
  const HEADER: nat := 36          // sizeof(slab_zone)
  const NZONES: nat := 72
  const RELEASE: nat := 2          // ZONE_RELEASE_THRESH
  const MAX_SMALL: nat := 16384    // ZALLOC_ZONE_LIMIT
  const WORD: int := 0x1_0000_0000

  // ---- Sizes ---------------------------------------------------------------------------------

  /** (n + k - 1) & ~(k - 1) for a power of two k */
  function RoundUp(n: nat, k: nat): (r: nat)
    requires k > 0
    ensures n <= r < n + k
  {
    n + k - 1 - (n + k - 1) % k
  }

  /** zoneindex: the chunk size for a request of n bytes and the index of its zones. */
  function ZoneIndex(n: nat): (nat, nat) {
    if n < 128 then var b := RoundUp(n, 8); (b, if b == 0 then 0 else b / 8 - 1)
    else if n < 256 then var b := RoundUp(n, 16); (b, b / 16 + 7)
    else if n < 512 then var b := RoundUp(n, 32); (b, b / 32 + 15)
    else if n < 1024 then var b := RoundUp(n, 64); (b, b / 64 + 23)
    else if n < 2048 then var b := RoundUp(n, 128); (b, b / 128 + 31)
    else if n < 4096 then var b := RoundUp(n, 256); (b, b / 256 + 39)
    else if n < 8192 then var b := RoundUp(n, 512); (b, b / 512 + 47)
    else if n < 16384 then var b := RoundUp(n, 1024); (b, b / 1024 + 55)
    else (n, 0)
  }

  predicate PowerOfTwo(n: nat) {
    n == 1 || (n > 0 && n % 2 == 0 && PowerOfTwo(n / 2))
  }

  /** Where the chunks of a zone begin, so that power-of-two sizes are aligned to their size. */
  function Offset(size: nat): nat
    requires size > 0
  {
    if PowerOfTwo(size) then RoundUp(HEADER, size) else RoundUp(HEADER, 8)
  }

  // ---- One zone ------------------------------------------------------------------------------

  /** z_freechunk is the list of the addresses given back. */
  datatype Zone = Zone(zi: nat, size: nat, nmax: int, nfree: int, base: nat, uindex: int, free: seq<nat>)

  function NewZone(zsize: nat, page: nat, zi: nat, size: nat): Zone
    requires size > 0
  {
    var nmax := (zsize - Offset(size)) / size;
    Zone(zi, size, nmax, nmax - 1, page * PAGE + Offset(size), 0, [])
  }

  /** A chunk from never used space, or the one given back last. */
  function TakeChunk(z: Zone): (Zone, nat)
    requires z.uindex >= 0 && (z.uindex + 1 == z.nmax ==> z.free != [])
  {
    if z.uindex + 1 != z.nmax then
      (z.(nfree := z.nfree - 1, uindex := z.uindex + 1), z.base + (z.uindex + 1) * z.size)
    else
      (z.(nfree := z.nfree - 1, free := z.free[1..]), z.free[0])
  }

  function PutChunk(z: Zone, a: nat): Zone {
    z.(nfree := z.nfree + 1, free := [a] + z.free)
  }

  // ---- The heap ------------------------------------------------------------------------------

  datatype Kind = Unused | Small | Large
  datatype Usage = Usage(kind: Kind, size: nat)

  /** `zones` and `large` are keyed by their first page; `arr` are the lists of zones with room,
      `cache` the empty zones kept back, `pool` the free pages and who has the others. */
  datatype Slab = Slab(zsize: nat, pool: P.Pool, zones: map<nat, Zone>, arr: seq<seq<nat>>, cache: seq<nat>,
                       usage: seq<Usage>, large: map<nat, nat>)

  function Limit(zsize: nat): nat {
    if zsize / 4 > MAX_SMALL then MAX_SMALL else zsize / 4
  }

  /** The loop that marks the pages of a zone. */
  function Mark(usage: seq<Usage>, page: nat, n: nat, kind: Kind): (r: seq<Usage>)
    requires page + n <= |usage|
    ensures |r| == |usage|
    ensures forall i :: 0 <= i < |usage| ==>
      r[i] == if page <= i < page + n then Usage(kind, if kind == Small then i - page else 0) else usage[i]
  {
    if n == 0 then usage
    else
      var m := n - 1;
      Mark(usage, page, m, kind)[page + m := Usage(kind, if kind == Small then m else 0)]
  }

  /** RT_ALIGN(size, RT_MM_PAGE_SIZE) in pages; for sizes above 2^32 - 4096 the sum wraps to 0. */
  function PagesFor(size: nat): nat
  {
    ((size + PAGE - 1) % WORD) / PAGE
  }

  predicate Fits(s: Slab, page: nat, n: nat) {
    page + n <= |s.usage|
  }

  function MallocLarge(s: Slab, size: nat): (Slab, Option<nat>) {
    var n := PagesFor(size);
    var r := P.Alloc(s.pool.runs, n).1;
    if r.None? || r.value >= |s.usage| then (s, None)
    else
      (s.(pool := P.Next(s.pool, P.Take(n)), usage := s.usage[r.value := Usage(Large, n)],
          large := s.large[r.value := n]), Some(r.value * PAGE))
  }

  predicate HasRoom(s: Slab, zi: nat) {
    zi < |s.arr| && s.arr[zi] != [] && s.arr[zi][0] in s.zones
    && var z := s.zones[s.arr[zi][0]]; z.uindex >= 0 && (z.uindex + 1 == z.nmax ==> z.free != [])
  }

  /** From the first zone of the index; a zone that has nothing left leaves the list. */
  function MallocZone(s: Slab, zi: nat): (Slab, nat)
    requires HasRoom(s, zi)
  {
    var page := s.arr[zi][0];
    var (z', a) := TakeChunk(s.zones[page]);
    (s.(zones := s.zones[page := z'], arr := if z'.nfree == 0 then s.arr[zi := s.arr[zi][1..]] else s.arr), a)
  }

  /** A zone for index zi on pages the heap already has. */
  function OpenZone(s: Slab, page: nat, zi: nat, size: nat): (Slab, nat)
    requires size > 0 && zi < |s.arr|
  {
    var z := NewZone(s.zsize, page, zi, size);
    (s.(zones := s.zones[page := z], arr := s.arr[zi := [page] + s.arr[zi]]), z.base)
  }

  function MallocNew(s: Slab, zi: nat, size: nat): (Slab, Option<nat>)
    requires size > 0 && zi < |s.arr|
  {
    if s.cache != [] then
      var (s', a) := OpenZone(s.(cache := s.cache[1..]), s.cache[0], zi, size);
      (s', Some(a))
    else
      var n := s.zsize / PAGE;
      var r := P.Alloc(s.pool.runs, n).1;
      if r.None? || !Fits(s, r.value, n) then (s, None)
      else
        var s1 := s.(pool := P.Next(s.pool, P.Take(n)), usage := Mark(s.usage, r.value, n, Small));
        var (s', a) := OpenZone(s1, r.value, zi, size);
        (s', Some(a))
  }

  /** rt_malloc */
  function Malloc(s: Slab, size: nat): (Slab, Option<nat>)
  {
    if size == 0 then (s, None)
    else if size >= Limit(s.zsize) then MallocLarge(s, size)
    else
      var (chunk, zi) := ZoneIndex(size);
      if HasRoom(s, zi) then
        var (s', a) := MallocZone(s, zi);
        (s', Some(a))
      else if zi < |s.arr| && chunk > 0 then MallocNew(s, zi, chunk)
      else (s, None)
  }

  /** The pages of a zone nobody keeps go back. */
  function ReleaseZone(s: Slab, page: nat): Slab
    requires page in s.pool.out && Fits(s, page, s.zsize / PAGE)
  {
    s.(usage := Mark(s.usage, page, s.zsize / PAGE, Unused), pool := P.Next(s.pool, P.Give(page)))
  }

  /** A zone that became empty while another one has room moves to the cache; the cache gives one
      back when it holds more than ZONE_RELEASE_THRESH. */
  function Retire(s: Slab, page: nat): Slab
    requires page in s.zones && s.zones[page].zi < |s.arr|
  {
    var zi := s.zones[page].zi;
    var s1 := s.(zones := s.zones - {page}, arr := s.arr[zi := Without(s.arr[zi], page)], cache := [page] + s.cache);
    if |s1.cache| > RELEASE && page in s.pool.out && Fits(s, page, s.zsize / PAGE) then
      ReleaseZone(s1.(cache := s.cache), page)
    else s1
  }

  function FreeSmall(s: Slab, page: nat, a: nat): Slab
    requires page in s.zones && s.zones[page].zi < |s.arr|
  {
    var z := PutChunk(s.zones[page], a);
    var s1 := s.(zones := s.zones[page := z],
                 arr := if z.nfree == 1 then s.arr[z.zi := [page] + s.arr[z.zi]] else s.arr);
    if z.nfree == z.nmax && |s1.arr[z.zi]| > 1 then Retire(s1, page) else s1
  }

  function FreeLarge(s: Slab, page: nat): Slab
    requires page in s.pool.out && page < |s.usage|
  {
    s.(usage := s.usage[page := Usage(Large, 0)], large := s.large - {page}, pool := P.Next(s.pool, P.Give(page)))
  }

  /** The page that owns address a, by the page descriptors. */
  function OwnerOf(s: Slab, a: nat): int
    requires a / PAGE < |s.usage|
  {
    if s.usage[a / PAGE].kind == Large then a / PAGE else a / PAGE - s.usage[a / PAGE].size
  }

  /** What rt_free needs to find in the page descriptors. */
  predicate Freeable(s: Slab, a: nat) {
    && a / PAGE < |s.usage|
    && (s.usage[a / PAGE].kind == Large ==> a / PAGE in s.pool.out)
    && (s.usage[a / PAGE].kind != Large ==>
          OwnerOf(s, a) >= 0 && OwnerOf(s, a) in s.zones && s.zones[OwnerOf(s, a)].zi < |s.arr|)
  }

  /** rt_free */
  function Free(s: Slab, a: nat): Slab
    requires Freeable(s, a)
  {
    if s.usage[a / PAGE].kind == Large then FreeLarge(s, a / PAGE) else FreeSmall(s, OwnerOf(s, a), a)
  }
}
