/** No chunk is handed out twice, live blocks never overlap, and zones keep their books. */
module SlabLemmas {
  import opened Base
  import opened SlabSpec

  // ---- Sizes ---------------------------------------------------------------------------------

  lemma Rounded(n: nat, k: nat) returns (q: nat)
    requires k > 0
    ensures RoundUp(n, k) == q * k && n <= q * k < n + k
  {
    var x := n + k - 1;
    q := x / k;
    assert x == (x / k) * k + x % k;
  }

  /** The chunk size of an index. */
  function SizeOf(zi: nat): nat {
    if zi < 16 then 8 * zi + 8
    else if zi < 24 then 16 * (zi - 7)
    else if zi < 32 then 32 * (zi - 15)
    else if zi < 40 then 64 * (zi - 23)
    else if zi < 48 then 128 * (zi - 31)
    else if zi < 56 then 256 * (zi - 39)
    else if zi < 64 then 512 * (zi - 47)
    else 1024 * (zi - 55)
  }

  /** The step between the chunk sizes around a request of n bytes, and the first index behind. */
  function StepOf(n: nat): (nat, int) {
    if n < 128 then (8, -1) else if n < 256 then (16, 7) else if n < 512 then (32, 15)
    else if n < 1024 then (64, 23) else if n < 2048 then (128, 31) else if n < 4096 then (256, 39)
    else if n < 8192 then (512, 47) else (1024, 55)
  }

  lemma ZoneIndexStep(n: nat) returns (q: nat)
    requires 0 < n < MAX_SMALL
    ensures var (k, d) := StepOf(n);
      ZoneIndex(n).0 == q * k && ZoneIndex(n).1 == q + d && n <= q * k < n + k
  {
    q := Rounded(n, StepOf(n).0);
    hide RoundUp;
  }

  /** The index fixes the chunk size, so all chunks of the zones of one index have the same size. */
  lemma IndexFixesSize(n: nat)
    requires 0 < n < MAX_SMALL
    ensures ZoneIndex(n).0 == SizeOf(ZoneIndex(n).1)
  {
    var q := ZoneIndexStep(n);
    hide ZoneIndex;
  }

  /** A request gets a chunk that is large enough, a multiple of 8 bytes, and wastes at most 7 bytes
      or an eighth of the request. */
  lemma ZoneIndexFits(n: nat)
    requires 0 < n < MAX_SMALL
    ensures var (size, zi) := ZoneIndex(n);
      && n <= size <= MAX_SMALL && size % 8 == 0 && zi < NZONES
      && (size - n < 8 || 8 * (size - n) < n)
  {
    var q := ZoneIndexStep(n);
    hide ZoneIndex;
    IndexInRange(n, q);
    EightDivides(q, StepOf(n).0);
  }

  lemma IndexInRange(n: nat, q: nat)
    requires 0 < n < MAX_SMALL
    requires var (k, d) := StepOf(n); n <= q * k < n + k
    ensures var (k, d) := StepOf(n); q * k <= MAX_SMALL && 0 <= q + d < NZONES
  {}

  lemma EightDivides(q: nat, k: nat)
    requires k % 8 == 0
    ensures q * k % 8 == 0
  {
    assert k == 8 * (k / 8);
    assert q * k == 8 * (q * (k / 8));
  }

  /** Rounding a chunk size again changes nothing, which rt_realloc relies on, except for the largest
      chunk size: 16384 is outside of what zoneindex expects. */
  lemma RoundingAgain(n: nat)
    requires 0 < n < MAX_SMALL
    ensures ZoneIndex(ZoneIndex(n).0) == ZoneIndex(n) <==> ZoneIndex(n).0 < MAX_SMALL
  {
    assert ZoneIndex(MAX_SMALL) == (MAX_SMALL, 0);
    hide ZoneIndex, SizeOf;
    var size := ZoneIndex(n).0;
    ZoneIndexFits(n);
    IndexFixesSize(n);
    if size < MAX_SMALL {
      StepDivides(n);
      ExactMultiple(size);
      IndexFixesSize(size);
      ZoneIndexFits(size);
      SizesDiffer(ZoneIndex(n).1, ZoneIndex(size).1);
    } else {
      assert ZoneIndex(n).1 != 0 by { var q := ZoneIndexStep(n); }
    }
  }

  lemma StepDivides(n: nat)
    requires 0 < n < MAX_SMALL && ZoneIndex(n).0 < MAX_SMALL
    ensures ZoneIndex(n).0 % StepOf(ZoneIndex(n).0).0 == 0
  {
    var q := ZoneIndexStep(n);
    hide ZoneIndex;
  }

  lemma ExactMultiple(size: nat)
    requires 0 < size < MAX_SMALL && size % StepOf(size).0 == 0
    ensures ZoneIndex(size).0 == size
  {
    var q := ZoneIndexStep(size);
    hide ZoneIndex;
    SameMultiple(q, StepOf(size).0, size);
  }

  lemma SameMultiple(q: nat, k: nat, size: nat)
    requires k > 0 && size % k == 0 && size <= q * k < size + k
    ensures q * k == size
  {
    var p := size / k;
    assert size == p * k + size % k;
    if q > p { MulOrder(p + 1, q, k); }
    if q < p { MulOrder(q + 1, p, k); }
  }

  lemma SizesDiffer(a: nat, b: nat)
    requires a < NZONES && b < NZONES && SizeOf(a) == SizeOf(b)
    ensures a == b
  {}

  /** The sizes rt_system_heap_init can choose for a zone. */
  predicate ZoneSize(zsize: nat) {
    zsize == 32768 || zsize == 65536 || zsize == 131072
  }

  /** What rt_malloc hands to the zones. */
  predicate ChunkSize(zsize: nat, size: nat) {
    8 <= size <= Limit(zsize) && size % 8 == 0
  }

  lemma MallocChunkSize(zsize: nat, n: nat)
    requires ZoneSize(zsize) && 0 < n < Limit(zsize)
    ensures ChunkSize(zsize, ZoneIndex(n).0) && n <= ZoneIndex(n).0 && ZoneIndex(n).1 < NZONES
  {
    ZoneIndexFits(n);
    var q := ZoneIndexStep(n);
    hide ZoneIndex;
  }

  /** Up to 32 bytes the header decides where the chunks begin, above it the chunk size. */
  lemma OffsetBound(size: nat)
    requires size >= 8
    ensures HEADER <= Offset(size) && (Offset(size) <= 64 || Offset(size) <= size)
  {
    if PowerOfTwo(size) {
      if size >= HEADER {
        assert RoundUp(HEADER, size) == size by { RoundUpOnce(HEADER, size); }
      } else {
        SmallPowers(size);
      }
    }
  }

  lemma RoundUpOnce(n: nat, k: nat)
    requires 0 < n <= k
    ensures RoundUp(n, k) == k
  {
    var x := n + k - 1;
    assert x == k + (n - 1) && x % k == n - 1 by { ModOnce(n - 1, k); }
  }

  lemma ModOnce(r: nat, k: nat)
    requires r < k
    ensures (k + r) % k == r
  {
    ModUnique(k + r, 1, k, r);
  }

  lemma SmallPowers(size: nat)
    requires 8 <= size < HEADER && PowerOfTwo(size)
    ensures size == 8 || size == 16 || size == 32
  {
    assert PowerOfTwo(size / 2) && PowerOfTwo(size / 2 / 2);
    var q := size / 8;
    assert size / 2 / 2 / 2 == q && PowerOfTwo(q);
    assert q == 1 || q == 2 || q == 4;
  }

  /** Every zone has room for at least three chunks, and they end inside it. */
  lemma ZoneGeometry(zsize: nat, size: nat)
    requires ZoneSize(zsize) && ChunkSize(zsize, size)
    ensures var nmax := (zsize - Offset(size)) / size; nmax >= 3 && Offset(size) + nmax * size <= zsize
  {
    OffsetBound(size);
    hide Offset;
    ThreeFit(zsize - Offset(size), size);
  }

  // ---- Alignment -----------------------------------------------------------------------------

  /** The test rt_malloc makes on the 32-bit chunk size. */
  predicate PowerTest(size: bv32) {
    (size | (size - 1)) + 1 == size << 1
  }

  predicate ListedWord(x: bv32) {
    x == 8 || x == 16 || x == 32 || x == 64 || x == 128 || x == 256 || x == 512 || x == 1024 || x == 2048
    || x == 4096 || x == 8192 || x == 16384
  }

  predicate ListedSize(x: int) {
    x == 8 || x == 16 || x == 32 || x == 64 || x == 128 || x == 256 || x == 512 || x == 1024 || x == 2048
    || x == 4096 || x == 8192 || x == 16384
  }

  lemma TestListed(x: bv32)
    requires 8 <= x <= 16384
    ensures PowerTest(x) <==> ListedWord(x)
  {}

  lemma SameListed(x: bv32)
    ensures ListedWord(x) <==> ListedSize(x as int)
  {}

  lemma WordRange(x: bv32)
    ensures 8 <= x <= 16384 <==> 8 <= x as int <= 16384
  {}

  /** A power of two is 1 or twice the next smaller one. */
  lemma {:induction false} PowersListed(n: nat, top: nat, k: nat)
    requires 0 < n < 2 * top && top == PowerAt(k)
    ensures PowerOfTwo(n) <==> exists j: nat :: j <= k && n == PowerAt(j)
    decreases k
  {
    if n == 1 {
      assert PowerAt(0) == 1;
    } else if n % 2 == 0 {
      assert k > 0;
      PowersListed(n / 2, PowerAt(k - 1), k - 1);
      if PowerOfTwo(n) {
        var j: nat :| j <= k - 1 && n / 2 == PowerAt(j);
        assert PowerAt(j + 1) == n;
      }
      if j: nat :| j <= k && n == PowerAt(j) {
        assert j > 0 && PowerAt(j) == 2 * PowerAt(j - 1);
        assert n / 2 == PowerAt(j - 1);
        assert PowerOfTwo(n / 2);
      }
    } else {
      forall j: nat | j <= k ensures n != PowerAt(j) { assert j > 0 ==> PowerAt(j) == 2 * PowerAt(j - 1); }
    }
  }

  function PowerAt(j: nat): nat {
    if j == 0 then 1 else 2 * PowerAt(j - 1)
  }

  lemma Powers()
    ensures PowerAt(0) == 1 && PowerAt(1) == 2 && PowerAt(2) == 4 && PowerAt(3) == 8 && PowerAt(4) == 16
    ensures PowerAt(5) == 32 && PowerAt(6) == 64 && PowerAt(7) == 128 && PowerAt(8) == 256 && PowerAt(9) == 512
    ensures PowerAt(10) == 1024 && PowerAt(11) == 2048 && PowerAt(12) == 4096 && PowerAt(13) == 8192
    ensures PowerAt(14) == 16384
  {}

  lemma PowerIsListed(n: nat)
    requires 8 <= n <= 16384
    ensures PowerOfTwo(n) <==> ListedSize(n)
  {
    Powers();
    PowersListed(n, PowerAt(14), 14);
    hide PowerOfTwo, PowerAt;
    if j: nat :| j <= 14 && n == PowerAt(j) {
      assert j == 0 || j == 1 || j == 2 || j == 3 || j == 4 || j == 5 || j == 6 || j == 7 || j == 8 || j == 9
        || j == 10 || j == 11 || j == 12 || j == 13 || j == 14;
    }
  }

  /** The bit test finds exactly the powers of two among the chunk sizes. */
  lemma PowerTestIs(size: bv32)
    requires 8 <= size <= 16384
    ensures PowerTest(size) <==> PowerOfTwo(size as int)
  {
    hide PowerTest, PowerOfTwo, ListedWord, ListedSize;
    TestListed(size);
    SameListed(size);
    WordRange(size);
    PowerIsListed(size as int);
  }

  lemma {:induction false} PowersDivide(s: nat, t: nat)
    requires PowerOfTwo(s) && PowerOfTwo(t) && s <= t
    ensures t % s == 0
    decreases s
  {
    if s > 1 {
      PowersDivide(s / 2, t / 2);
      var q := (t / 2) / (s / 2);
      assert t / 2 == q * (s / 2);
      assert t == q * s;
      TimesMod(q, s);
    }
  }

  lemma ModUnique(x: nat, q: nat, s: nat, r: nat)
    requires r < s && x == q * s + r
    ensures x % s == r
  {
    var p := x / s;
    assert x == p * s + x % s;
    if p > q { MulOrder(q + 1, p, s); }
    if p < q { MulOrder(p + 1, q, s); }
  }

  lemma TimesMod(q: nat, s: nat)
    requires s > 0
    ensures q * s % s == 0
  {
    ModUnique(q * s, q, s, 0);
  }

  lemma PlusTimes(x: nat, q: nat, s: nat)
    requires s > 0
    ensures (x + q * s) % s == x % s
  {
    Distribute(x / s, q, s);
    assert x == x / s * s + x % s;
    ModUnique(x + q * s, x / s + q, s, x % s);
  }

  lemma Distribute(q: nat, i: nat, s: nat)
    ensures q * s + i * s == (q + i) * s
  {}

  lemma RoundUpMultiple(n: nat, k: nat)
    requires k > 0
    ensures RoundUp(n, k) % k == 0
  {
    var x := n + k - 1;
    assert x == x / k * k + x % k;
    TimesMod(x / k, k);
  }

  lemma WholeTimes(x: nat, s: nat)
    requires s > 0 && x % s == 0
    ensures x == x / s * s
  {}

  /** The chunks of a zone are whole numbers of chunks behind its first page. */
  lemma ChunkAt(zsize: nat, page: nat, z: Zone, a: nat) returns (n: nat)
    requires ZoneSize(zsize) && ZoneOk(zsize, page, z) && PowerOfTwo(z.size) && a in LiveIn(z)
    ensures a == page * PAGE + n * z.size
  {
    var i := SlotNumber(z.base, z.size, z.uindex + 1, a);
    hide Slots, RoundUp;
    assert z.base == page * PAGE + RoundUp(HEADER, z.size);
    hide PowerOfTwo, ZoneOk, LiveIn;
    RoundUpMultiple(HEADER, z.size);
    var off := RoundUp(HEADER, z.size);
    WholeTimes(off, z.size);
    Distribute(off / z.size, i, z.size);
    n := off / z.size + i;
  }

  /** Which chunk an address is. */
  lemma {:induction false} SlotNumber(base: nat, size: nat, k: nat, a: nat) returns (i: nat)
    requires a in Slots(base, size, k)
    ensures i < k && a == base + i * size
    decreases k
  {
    if a == base + (k - 1) * size {
      i := k - 1;
    } else {
      i := SlotNumber(base, size, k - 1, a);
    }
  }

  /** The promise of the offset: a chunk of a power-of-two size is aligned to its size if and only if
      the first page of its zone is, which it always is for sizes up to a page. Larger sizes, 8192 and
      16384, may come out unaligned. Addresses count from the start of the heap, a page boundary. */
  lemma ChunkAligned(zsize: nat, page: nat, z: Zone, a: nat)
    requires ZoneSize(zsize) && ZoneOk(zsize, page, z) && PowerOfTwo(z.size) && a in LiveIn(z)
    ensures a % z.size == 0 <==> (page * PAGE) % z.size == 0
    ensures z.size <= PAGE ==> a % z.size == 0
  {
    var n := ChunkAt(zsize, page, z, a);
    assert z.size > 0;
    hide PowerOfTwo, ZoneOk, LiveIn;
    PlusTimes(page * PAGE, n, z.size);
    if z.size <= PAGE { PageAligned(page, z.size); }
  }

  lemma PageAligned(page: nat, size: nat)
    requires PowerOfTwo(size) && size <= PAGE
    ensures (page * PAGE) % size == 0
  {
    PagePower();
    PowersDivide(size, PAGE);
    hide PowerOfTwo;
    WholeTimes(PAGE, size);
    var q := PAGE / size;
    Regroup(page, q, size);
    TimesMod(page * q, size);
  }

  lemma Regroup(p: nat, q: nat, s: nat)
    ensures p * (q * s) == p * q * s
  {}

  lemma PagePower()
    ensures PowerOfTwo(PAGE)
  {
    Powers();
    hide PowerAt;
    PowersListed(PAGE, PowerAt(12), 12);
  }

  /** The exception is met: a zone of 8192-byte chunks on page 1 starts its chunks at 12288. */
  lemma ChunkUnaligned()
    ensures var z := NewZone(65536, 1, 63, 8192);
      ZoneSize(65536) && z.base == 12288 && PowerOfTwo(8192) && z.base % 8192 != 0
  {
    Powers();
    hide PowerAt;
    PowersListed(8192, PowerAt(13), 13);
    RoundUpOnce(HEADER, 8192);
    hide RoundUp, PowerOfTwo;
  }

  lemma ThreeFit(room: nat, size: nat)
    requires size > 0 && room >= 3 * size
    ensures room / size >= 3 && room / size * size <= room
  {
    assert room == room / size * size + room % size;
  }

  // ---- Chunks --------------------------------------------------------------------------------

  /** The addresses of the first k chunks. */
  ghost function Slots(base: nat, size: nat, k: nat): (r: set<nat>)
  {
    if k == 0 then {} else Slots(base, size, k - 1) + {base + (k - 1) * size}
  }

  lemma {:induction false} SlotsBound(base: nat, size: nat, k: nat, a: nat)
    requires a in Slots(base, size, k)
    ensures base <= a && a + size <= base + k * size
    decreases k
  {
    if a != base + (k - 1) * size {
      SlotsBound(base, size, k - 1, a);
    }
    assert (k - 1) * size + size == k * size;
    assert (k - 1) * size >= 0;
  }

  lemma {:induction false} SlotsApart(base: nat, size: nat, k: nat, a: nat, b: nat)
    requires a in Slots(base, size, k) && b in Slots(base, size, k) && a != b
    ensures a + size <= b || b + size <= a
    decreases k
  {
    var last := base + (k - 1) * size;
    if a != last && b != last {
      SlotsApart(base, size, k - 1, a, b);
    } else if a != last {
      SlotsBound(base, size, k - 1, a);
    } else {
      SlotsBound(base, size, k - 1, b);
    }
  }

  lemma {:induction false} SlotsCount(base: nat, size: nat, k: nat)
    requires size > 0
    ensures |Slots(base, size, k)| == k
    decreases k
  {
    if k > 0 {
      SlotsCount(base, size, k - 1);
      if base + (k - 1) * size in Slots(base, size, k - 1) {
        SlotsBound(base, size, k - 1, base + (k - 1) * size);
      }
    }
  }

  // ---- Zones ---------------------------------------------------------------------------------

  ghost function Elements(l: seq<nat>): set<nat> {
    set x | x in l
  }

  ghost function Used(z: Zone): set<nat>
  {
    if z.uindex < 0 then {} else Slots(z.base, z.size, z.uindex + 1)
  }

  /** The chunks in the hands of callers. */
  ghost function LiveIn(z: Zone): set<nat> {
    Used(z) - Elements(z.free)
  }

  ghost predicate Books(z: Zone) {
    && z.size >= 8 && 0 <= z.uindex < z.nmax
    && NoDup(z.free) && (forall a :: a in z.free ==> a in Used(z))
    && z.nfree == z.nmax - 1 - z.uindex + |z.free|
  }

  ghost predicate ZoneOk(zsize: nat, page: nat, z: Zone) {
    && Books(z) && ChunkSize(zsize, z.size) && z.zi < NZONES && z.size == SizeOf(z.zi)
    && z.base == page * PAGE + Offset(z.size) && z.nmax == (zsize - Offset(z.size)) / z.size
  }

  lemma {:induction false} ElementsCount(l: seq<nat>)
    requires NoDup(l)
    ensures |Elements(l)| == |l|
    decreases |l|
  {
    if l == [] {
      assert Elements(l) == {};
    } else {
      var t := l[..|l| - 1];
      ElementsCount(t);
      assert Elements(l) == Elements(t) + {l[|l| - 1]};
      assert l[|l| - 1] !in Elements(t);
    }
  }

  /** Live chunks and free chunks make up the zone. */
  lemma ZoneConserved(z: Zone)
    requires Books(z)
    ensures |LiveIn(z)| + z.nfree == z.nmax && 0 <= z.nfree <= z.nmax
  {
    SlotsCount(z.base, z.size, z.uindex + 1);
    ElementsCount(z.free);
    assert Elements(z.free) <= Used(z);
    SubsetCount(Used(z), Elements(z.free));
    hide Slots, Elements, NoDup;
  }

  lemma SubsetCount(s: set<nat>, t: set<nat>)
    requires t <= s
    ensures |s - t| == |s| - |t|
  {
    assert s == (s - t) + t;
  }

  /** The chunk taken was not live before, and nothing else changes hands. */
  lemma TakeFresh(z: Zone)
    requires Books(z) && z.nfree > 0
    ensures z.uindex + 1 == z.nmax ==> z.free != []
    ensures var (z', a) := TakeChunk(z);
      && Books(z') && a !in LiveIn(z) && LiveIn(z') == LiveIn(z) + {a} && z'.nfree == z.nfree - 1
  {
    var (z', a) := TakeChunk(z);
    if z.uindex + 1 != z.nmax {
      assert Used(z') == Used(z) + {a};
      if a in Used(z) { SlotsBound(z.base, z.size, z.uindex + 1, a); }
      hide Slots, NoDup;
    } else {
      var t := z.free[1..];
      assert Elements(z.free) == Elements(t) + {a} && a !in t && a in z.free;
      hide Slots;
    }
  }

  lemma FreeMore(l: seq<nat>, a: nat)
    requires NoDup(l) && a !in l
    ensures NoDup([a] + l) && Elements([a] + l) == Elements(l) + {a}
  {}

  lemma UsedSame(z: Zone, a: nat)
    ensures Used(PutChunk(z, a)) == Used(z)
  {}

  lemma NotFree(z: Zone, a: nat)
    requires a in LiveIn(z)
    ensures a !in z.free && a in Used(z) && |LiveIn(z)| > 0
  {
    assert |LiveIn(z)| > 0;
  }

  /** Giving back a live chunk. */
  lemma PutBack(z: Zone, a: nat)
    requires Books(z) && a in LiveIn(z)
    ensures var z' := PutChunk(z, a);
      Books(z') && LiveIn(z') == LiveIn(z) - {a} && z'.nfree == z.nfree + 1 && 0 <= z.nfree < z.nmax
  {
    var z' := PutChunk(z, a);
    UsedSame(z, a);
    hide Slots, Used, Elements, NoDup;
    ZoneConserved(z);
    NotFree(z, a);
    FreeMore(z.free, a);
  }

  lemma NewZoneOk(zsize: nat, page: nat, zi: nat, size: nat)
    requires ZoneSize(zsize) && ChunkSize(zsize, size) && zi < NZONES && size == SizeOf(zi)
    ensures var z := NewZone(zsize, page, zi, size);
      && ZoneOk(zsize, page, z) && LiveIn(z) == {z.base} && 0 < z.nfree < z.nmax
  {
    ZoneGeometry(zsize, size);
    var z := NewZone(zsize, page, zi, size);
    assert Slots(z.base, size, 1) == Slots(z.base, size, 0) + {z.base + 0 * size};
    hide Offset, SizeOf;
  }

  /** All chunks of a zone lie in its pages, behind the header. */
  lemma ChunkInside(zsize: nat, page: nat, z: Zone, a: nat)
    requires ZoneSize(zsize) && ZoneOk(zsize, page, z) && a in Used(z)
    ensures page * PAGE + HEADER <= a && a + z.size <= page * PAGE + zsize
  {
    ZoneGeometry(zsize, z.size);
    OffsetBound(z.size);
    SlotsBound(z.base, z.size, z.uindex + 1, a);
    assert (z.uindex + 1) * z.size <= z.nmax * z.size by { MulOrder(z.uindex + 1, z.nmax, z.size); }
    hide Offset, SizeOf, Slots, NoDup;
  }

  lemma MulOrder(a: int, b: int, k: nat)
    requires a <= b
    ensures a * k <= b * k
  {}
}

/** The whole slab heap. */
module SlabHeap {
  import opened Base
  import opened SlabSpec
  import opened SlabLemmas
  import P = PageSpec
  import L = PageLemmas
  import Pages = PageList

  // ---- The invariant -------------------------------------------------------------------------

  /** The owned ranges of pages do not overlap and lie in the heap. */
  ghost predicate Ranges(out: map<nat, nat>, total: nat) {
    && (forall p :: p in out ==> out[p] > 0 && p + out[p] <= total)
    && (forall p, q :: p in out && q in out && p != q ==> p + out[p] <= q || q + out[q] <= p)
  }

  /** Zones, cached zones and large blocks own their pages, each in its own right. */
  ghost predicate Owners(n: nat, out: map<nat, nat>, zones: set<nat>, cache: seq<nat>, large: map<nat, nat>) {
    && NoDup(cache) && |cache| <= RELEASE
    && (forall p :: p in zones ==> p in out && out[p] == n && p !in cache && p !in large)
    && (forall p :: p in cache ==> p in out && out[p] == n && p !in large)
    && (forall p :: p in large ==> p in out && out[p] == large[p])
  }

  ghost predicate Roomy(zones: map<nat, Zone>, zi: nat, p: nat) {
    p in zones && zones[p].zi == zi && zones[p].nfree > 0
  }

  /** A zone is once in the list of its index if it has room, and in no list otherwise. */
  ghost predicate Lists(zones: map<nat, Zone>, arr: seq<seq<nat>>) {
    && |arr| == NZONES && (forall zi :: 0 <= zi < |arr| ==> NoDup(arr[zi]))
    && (forall zi, p :: 0 <= zi < |arr| && p in arr[zi] ==> Roomy(zones, zi, p))
    && (forall p :: p in zones && zones[p].nfree > 0 ==> zones[p].zi < |arr| && p in arr[zones[p].zi])
  }

  ghost predicate MarkedSmall(usage: seq<Usage>, p: nat, n: nat) {
    p + n <= |usage| && forall i :: p <= i < p + n ==> usage[i] == Usage(Small, i - p)
  }

  /** The page descriptors lead from every page of a zone to its first page. */
  ghost predicate Marks(usage: seq<Usage>, n: nat, smalls: set<nat>, large: map<nat, nat>) {
    && (forall p :: p in smalls ==> MarkedSmall(usage, p, n))
    && (forall p :: p in large ==> p < |usage| && usage[p] == Usage(Large, large[p]))
  }

  ghost predicate ZonesOk(zsize: nat, zones: map<nat, Zone>) {
    forall p :: p in zones ==> ZoneOk(zsize, p, zones[p])
  }

  ghost predicate SlabInv(s: Slab) {
    && ZoneSize(s.zsize) && L.PoolInv(|s.usage|, s.pool)
    && Owners(s.zsize / PAGE, s.pool.out, s.zones.Keys, s.cache, s.large)
    && ZonesOk(s.zsize, s.zones) && Lists(s.zones, s.arr)
    && Marks(s.usage, s.zsize / PAGE, s.zones.Keys + Elements(s.cache), s.large)
  }

  /** Address a is in the hands of a caller, as the start of l bytes owned by page p. */
  ghost predicate LiveAt(s: Slab, p: nat, a: nat, l: nat) {
    || (p in s.large && a == p * PAGE && l == s.large[p] * PAGE)
    || (p in s.zones && a in LiveIn(s.zones[p]) && l == s.zones[p].size)
  }

  // ---- Pages ---------------------------------------------------------------------------------

  lemma PoolRanges(total: nat, pool: P.Pool)
    requires L.PoolInv(total, pool)
    ensures Ranges(pool.out, total)
  {
    forall p | p in pool.out ensures pool.out[p] > 0 && p + pool.out[p] <= total {
      assert L.Holds(pool.out, p, p + pool.out[p] - 1);
    }
    forall p, q | p in pool.out && q in pool.out && p != q
      ensures p + pool.out[p] <= q || q + pool.out[q] <= p
    {
      assert L.Holds(pool.out, p, p) && L.Holds(pool.out, q, q);
      assert p <= q < p + pool.out[p] ==> L.Holds(pool.out, p, q);
      assert q <= p < q + pool.out[q] ==> L.Holds(pool.out, q, p);
    }
  }

  /** What rt_page_alloc returns was nobody's. */
  lemma FreshPages(total: nat, pool: P.Pool, n: nat)
    requires L.PoolInv(total, pool) && P.Alloc(pool.runs, n).1.Some?
    ensures var r := P.Alloc(pool.runs, n).1.value; var pool' := P.Next(pool, P.Take(n));
      && n > 0 && r !in pool.out && pool'.out == pool.out[r := n] && L.PoolInv(total, pool')
      && Ranges(pool'.out, total) && r + n <= total
  {
    var r := P.Alloc(pool.runs, n).1.value;
    assert n > 0;
    L.AllocPages(0, pool.runs, n, r);
    assert P.In(pool.runs, r) && !L.Holds(pool.out, r, r);
    assert r !in pool.out;
    L.TakeKeeps(total, pool, n);
    hide L.PoolInv, P.Alloc;
    PoolRanges(total, P.Next(pool, P.Take(n)));
    assert r in P.Next(pool, P.Take(n)).out;
  }

  // ---- Live blocks are apart -----------------------------------------------------------------

  /** A live block lies in the pages of its owner. */
  lemma Extent(s: Slab, p: nat, a: nat, l: nat)
    requires SlabInv(s) && LiveAt(s, p, a, l)
    ensures p in s.pool.out && p * PAGE <= a && a + l <= (p + s.pool.out[p]) * PAGE
  {
    hide Lists, Marks, L.PoolInv, ZoneOk, LiveIn;
    if p in s.zones && a in LiveIn(s.zones[p]) && l == s.zones[p].size {
      LiveUsed(s.zones[p], a);
      ChunkInside(s.zsize, p, s.zones[p], a);
    }
  }

  lemma LiveUsed(z: Zone, a: nat)
    requires a in LiveIn(z)
    ensures a in Used(z) && a !in z.free
  {}

  /** Two live blocks never overlap. */
  lemma LiveApart(s: Slab, p: nat, a: nat, l: nat, q: nat, b: nat, m: nat)
    requires SlabInv(s) && LiveAt(s, p, a, l) && LiveAt(s, q, b, m) && a != b
    ensures a + l <= b || b + m <= a
  {
    hide Lists, Marks, L.PoolInv, ZoneOk, LiveIn;
    Extent(s, p, a, l);
    Extent(s, q, b, m);
    if p != q {
      PoolRanges(|s.usage|, s.pool);
    } else if p in s.zones {
      LiveUsed(s.zones[p], a);
      LiveUsed(s.zones[p], b);
      SameZone(s.zones[p], a, b);
    }
  }

  lemma SameZone(z: Zone, a: nat, b: nat)
    requires a in Used(z) && b in Used(z) && a != b
    ensures a + z.size <= b || b + z.size <= a
  {
    SlotsApart(z.base, z.size, z.uindex + 1, a, b);
    hide Slots;
  }

  /** A live block touches no free chunk, in which c_next stands. */
  lemma FreeApart(s: Slab, p: nat, a: nat, l: nat, q: nat, f: nat)
    requires SlabInv(s) && LiveAt(s, p, a, l) && q in s.zones && f in s.zones[q].free
    ensures a + l <= f || f + s.zones[q].size <= a
  {
    ZoneExtent(s, q, f);
    Extent(s, p, a, l);
    hide Lists, Marks, L.PoolInv, ZoneOk, Used;
    if p != q {
      PoolRanges(|s.usage|, s.pool);
    } else {
      SameZone(s.zones[p], a, f);
    }
  }

  lemma ZoneExtent(s: Slab, q: nat, f: nat)
    requires SlabInv(s) && q in s.zones && f in s.zones[q].free
    ensures f in Used(s.zones[q]) && q in s.pool.out
    ensures q * PAGE + HEADER <= f && f + s.zones[q].size <= (q + s.pool.out[q]) * PAGE && s.zones[q].size >= 8
  {
    hide Lists, Marks, L.PoolInv, Used, NoDup, Offset, SizeOf;
    assert ZoneOk(s.zsize, q, s.zones[q]);
    ChunkInside(s.zsize, q, s.zones[q], f);
  }

  /** A live block touches neither the header of a zone, cached ones included, nor the page head of
      a free run. */
  lemma HeadersApart(s: Slab, p: nat, a: nat, l: nat)
    requires SlabInv(s) && LiveAt(s, p, a, l)
    ensures forall q :: q in s.zones || q in s.cache ==> a + l <= q * PAGE || q * PAGE + HEADER <= a
    ensures forall i :: 0 <= i < |s.pool.runs| ==>
      a + l <= s.pool.runs[i].start * PAGE || (s.pool.runs[i].start + 1) * PAGE <= a
  {
    hide Lists, Marks, ZoneOk, LiveIn, L.PoolInv, NoDup;
    Extent(s, p, a, l);
    PoolRanges(|s.usage|, s.pool);
    RunsFree(|s.usage|, s.pool, p);
    forall q | q in s.zones || q in s.cache ensures a + l <= q * PAGE || q * PAGE + HEADER <= a {
      if p == q {
        LiveUsed(s.zones[p], a);
        ChunkInside(s.zsize, p, s.zones[p], a);
      }
    }
  }

  lemma RunsFree(total: nat, pool: P.Pool, p: nat)
    requires L.PoolInv(total, pool) && p in pool.out
    ensures forall i :: 0 <= i < |pool.runs| ==> pool.runs[i].start < p || p + pool.out[p] <= pool.runs[i].start
  {
    forall i | 0 <= i < |pool.runs| ensures pool.runs[i].start < p || p + pool.out[p] <= pool.runs[i].start {
      var x := pool.runs[i].start;
      L.RunStart(0, pool.runs, i);
      assert P.In(pool.runs, x) && !L.Holds(pool.out, p, x);
    }
  }

  // ---- One memory ----------------------------------------------------------------------------

  /** What stands in the pages of the heap: the page head of a free run, the header of a zone or of a
      cached zone, a free chunk with its c_next, a block of a caller. */
  datatype Cell = RunHead(i: nat) | ZoneHead(q: nat) | FreeChunk(q: nat, f: nat) | Block(p: nat, a: nat, l: nat)

  ghost predicate Stands(s: Slab, c: Cell) {
    match c
    case RunHead(i) => i < |s.pool.runs|
    case ZoneHead(q) => q in s.zones || q in s.cache
    case FreeChunk(q, f) => q in s.zones && f in s.zones[q].free
    case Block(p, a, l) => LiveAt(s, p, a, l)
  }

  ghost function From(s: Slab, c: Cell): nat
    requires Stands(s, c)
  {
    match c
    case RunHead(i) => s.pool.runs[i].start * PAGE
    case ZoneHead(q) => q * PAGE
    case FreeChunk(_, f) => f
    case Block(_, a, _) => a
  }

  ghost function To(s: Slab, c: Cell): nat
    requires Stands(s, c)
  {
    match c
    case RunHead(i) => (s.pool.runs[i].start + 1) * PAGE
    case ZoneHead(q) => q * PAGE + HEADER
    case FreeChunk(q, f) => f + s.zones[q].size
    case Block(_, a, l) => a + l
  }

  /** The first of the pages a cell lies in, for all but run heads. */
  function Home(c: Cell): nat
    requires !c.RunHead?
  {
    match c
    case ZoneHead(q) => q
    case FreeChunk(q, _) => q
    case Block(p, _, _) => p
  }

  lemma AtHome(s: Slab, c: Cell)
    requires SlabInv(s) && Stands(s, c) && !c.RunHead?
    ensures var p := Home(c);
      p in s.pool.out && p * PAGE <= From(s, c) && To(s, c) <= (p + s.pool.out[p]) * PAGE
    ensures !c.ZoneHead? && Home(c) in s.zones ==> Home(c) * PAGE + HEADER <= From(s, c)
    ensures !c.ZoneHead? && Home(c) !in s.zones ==> Home(c) in s.large && c.Block?
  {
    match c
    case ZoneHead(q) => HeaderFits(s, q);
    case FreeChunk(q, f) => ZoneExtent(s, q, f);
    case Block(p, a, l) =>
      Extent(s, p, a, l);
      HeadersApart(s, p, a, l);
      LivePositive(s, p, a, l);
      hide L.PoolInv, Owners, Lists, Marks, ZonesOk, LiveIn;
  }

  lemma HeaderFits(s: Slab, q: nat)
    requires SlabInv(s) && (q in s.zones || q in s.cache)
    ensures q in s.pool.out && s.pool.out[q] >= 1
  {
    PoolRanges(|s.usage|, s.pool);
    hide L.PoolInv, Lists, Marks, ZonesOk, NoDup;
  }

  /** Cells of the same zone. */
  lemma HomeApart(s: Slab, c: Cell, d: Cell)
    requires SlabInv(s) && Stands(s, c) && Stands(s, d) && !c.RunHead? && !d.RunHead? && c != d && Home(c) == Home(d)
    ensures To(s, c) <= From(s, d) || To(s, d) <= From(s, c)
  {
    AtHome(s, c);
    AtHome(s, d);
    NotLarge(s, c);
    NotLarge(s, d);
    hide SlabInv, LiveIn, LiveAt;
    match (c, d) {
      case (FreeChunk(q, f), Block(p, a, l)) => FreeApart(s, p, a, l, q, f);
      case (Block(p, a, l), FreeChunk(q, f)) => FreeApart(s, p, a, l, q, f);
      case (Block(p, a, l), Block(q, b, m)) =>
        OneLength(s, p, a, l, m);
        LiveApart(s, p, a, l, q, b, m);
      case (FreeChunk(q, f), FreeChunk(_, g)) => ChunksApart(s, q, f, g);
      case _ =>
    }
  }

  lemma NotLarge(s: Slab, c: Cell)
    requires SlabInv(s) && Stands(s, c)
    ensures c.ZoneHead? ==> Home(c) !in s.large
  {
    hide L.PoolInv, Lists, Marks, ZonesOk, NoDup, LiveAt;
  }

  lemma OneLength(s: Slab, p: nat, a: nat, l: nat, m: nat)
    requires SlabInv(s) && LiveAt(s, p, a, l)
    ensures LiveAt(s, p, a, m) ==> m == l
  {
    hide L.PoolInv, Lists, Marks, ZonesOk, LiveIn;
  }

  lemma ChunksApart(s: Slab, q: nat, f: nat, g: nat)
    requires SlabInv(s) && q in s.zones && f in s.zones[q].free && g in s.zones[q].free && f != g
    ensures f + s.zones[q].size <= g || g + s.zones[q].size <= f
  {
    ZoneExtent(s, q, f);
    ZoneExtent(s, q, g);
    hide SlabInv;
    SameZone(s.zones[q], f, g);
  }

  lemma RunsApart(lo: nat, runs: seq<P.Run>, i: nat, j: nat)
    requires P.Canon(lo, runs) && i < j < |runs|
    ensures runs[i].start < runs[j].start
  {
    Pages.CanonHeads(lo, runs);
  }

  lemma CanonRuns(s: Slab)
    requires SlabInv(s)
    ensures P.Canon(0, s.pool.runs)
  {
    hide Owners, Lists, Marks, ZonesOk, P.Canon;
  }

  /** Everything that stands in the pages of the heap stands apart: page heads, zone headers, free
      chunks and blocks of callers are cells of one memory, and writing one leaves all others alone. */
  lemma CellsApart(s: Slab, c: Cell, d: Cell)
    requires SlabInv(s) && Stands(s, c) && Stands(s, d) && c != d
    ensures To(s, c) <= From(s, d) || To(s, d) <= From(s, c)
  {
    if c.RunHead? && d.RunHead? {
      CanonRuns(s);
      hide SlabInv;
      if c.i < d.i { RunsApart(0, s.pool.runs, c.i, d.i); } else { RunsApart(0, s.pool.runs, d.i, c.i); }
    } else if c.RunHead? {
      RunCell(s, d, c.i);
    } else if d.RunHead? {
      RunCell(s, c, d.i);
    } else if Home(c) == Home(d) {
      HomeApart(s, c, d);
    } else {
      AtHome(s, c);
      AtHome(s, d);
      PoolRanges(|s.usage|, s.pool);
      hide L.PoolInv, Owners, Lists, Marks, ZonesOk, Stands, From, To;
    }
  }

  lemma RunCell(s: Slab, c: Cell, i: nat)
    requires SlabInv(s) && Stands(s, c) && !c.RunHead? && i < |s.pool.runs|
    ensures To(s, c) <= s.pool.runs[i].start * PAGE || (s.pool.runs[i].start + 1) * PAGE <= From(s, c)
  {
    AtHome(s, c);
    RunsFree(|s.usage|, s.pool, Home(c));
    hide L.PoolInv, Owners, Lists, Marks, ZonesOk, Stands, From, To;
  }

  // ---- Lists ---------------------------------------------------------------------------------

  lemma Pushed(l: seq<nat>, x: nat)
    requires NoDup(l) && x !in l
    ensures NoDup([x] + l) && forall y :: y in [x] + l <==> y == x || y in l
  {}

  lemma ListsChange(zones: map<nat, Zone>, arr: seq<seq<nat>>, zones': map<nat, Zone>, zi: nat, l: seq<nat>, page: nat)
    requires Lists(zones, arr) && zi < NZONES && NoDup(l)
    requires forall p :: p != page ==> (p in zones' <==> p in zones) && (p in zones ==> zones'[p] == zones[p])
    requires page in zones ==> zones[page].zi == zi
    requires page in zones' ==> zones'[page].zi == zi
    requires forall p :: p != page ==> (p in l <==> p in arr[zi])
    requires page in l <==> page in zones' && zones'[page].nfree > 0
    ensures Lists(zones', arr[zi := l])
  {
    hide NoDup;
    var arr' := arr[zi := l];
    forall i, p | 0 <= i < |arr'| && p in arr'[i] ensures Roomy(zones', i, p) {
      assert p in arr[i] ==> Roomy(zones, i, p);
    }
  }

  // ---- Page descriptors ----------------------------------------------------------------------

  /** Writing descriptors inside a range that no other owner overlaps. */
  lemma MarksElsewhere(usage: seq<Usage>, usage': seq<Usage>, n: nat, smalls: set<nat>, large: map<nat, nat>,
                       out: map<nat, nat>, total: nat, page: nat)
    requires Marks(usage, n, smalls, large) && |usage'| == |usage| && Ranges(out, total) && page in out
    requires forall p :: p in smalls ==> p in out && out[p] == n && p != page
    requires forall p :: p in large ==> p in out && p != page
    requires forall i :: 0 <= i < |usage| && !(page <= i < page + out[page]) ==> usage'[i] == usage[i]
    ensures Marks(usage', n, smalls, large)
  {
    forall p | p in smalls ensures MarkedSmall(usage', p, n) {
      assert MarkedSmall(usage, p, n);
      assert p + n <= page || page + out[page] <= p;
    }
    forall p | p in large ensures p < |usage'| && usage'[p] == Usage(Large, large[p]) {
      assert p + out[p] <= page || page + out[page] <= p;
    }
  }

  lemma MarksFewer(usage: seq<Usage>, n: nat, smalls: set<nat>, large: map<nat, nat>, smalls': set<nat>,
                   large': map<nat, nat>)
    requires Marks(usage, n, smalls, large) && smalls' <= smalls
    requires forall p :: p in large' ==> p in large && large'[p] == large[p]
    ensures Marks(usage, n, smalls', large')
  {
    hide MarkedSmall;
  }

  // ---- What changes hands --------------------------------------------------------------------

  /** Exactly the block at a became live, and nobody held that address. */
  ghost predicate Gained(s: Slab, s': Slab, p: nat, a: nat, l: nat) {
    && (forall q, b, m :: LiveAt(s', q, b, m) <==> LiveAt(s, q, b, m) || (q == p && b == a && m == l))
    && (forall q, m :: !LiveAt(s, q, a, m))
  }

  /** Exactly the block at a, owned by p, stopped being live. */
  ghost predicate Lost(s: Slab, s': Slab, p: nat, a: nat) {
    forall q, b, m :: LiveAt(s', q, b, m) <==> LiveAt(s, q, b, m) && !(q == p && b == a)
  }

  lemma OneOwner(s: Slab, p: nat, q: nat, a: nat, l: nat, m: nat)
    requires SlabInv(s) && LiveAt(s, p, a, l) && LiveAt(s, q, a, m) && l > 0 && m > 0
    ensures p == q
  {
    Extent(s, p, a, l);
    Extent(s, q, a, m);
    PoolRanges(|s.usage|, s.pool);
    hide LiveAt, L.PoolInv, Lists, Marks, ZonesOk, Owners;
  }

  lemma LivePositive(s: Slab, p: nat, a: nat, l: nat)
    requires SlabInv(s) && LiveAt(s, p, a, l)
    ensures l > 0
  {
    PoolRanges(|s.usage|, s.pool);
    hide L.PoolInv, Lists, Marks, LiveIn;
    if p in s.zones && l == s.zones[p].size { assert ZoneOk(s.zsize, p, s.zones[p]); }
  }

  /** A block of a state with more live blocks is nobody else's in the state before. */
  lemma NobodyElse(s: Slab, s': Slab, p: nat, a: nat, l: nat)
    requires SlabInv(s') && LiveAt(s', p, a, l) && forall m :: !LiveAt(s, p, a, m)
    requires forall q, b, m :: LiveAt(s, q, b, m) ==> LiveAt(s', q, b, m)
    ensures forall q, m :: !LiveAt(s, q, a, m)
  {
    hide LiveAt, SlabInv;
    LivePositive(s', p, a, l);
    forall q, m | LiveAt(s, q, a, m) ensures false {
      LivePositive(s', q, a, m);
      OneOwner(s', p, q, a, l, m);
    }
  }

  // ---- From a zone that has room -------------------------------------------------------------

  lemma RoomyHead(s: Slab, zi: nat)
    requires SlabInv(s) && zi < NZONES
    ensures |s.arr| == NZONES
    ensures s.arr[zi] != [] ==>
      var p := s.arr[zi][0]; Roomy(s.zones, zi, p) && ZoneOk(s.zsize, p, s.zones[p]) && HasRoom(s, zi)
    ensures s.arr[zi] == [] ==> !HasRoom(s, zi)
  {
    hide L.PoolInv, Owners, Marks, LiveIn;
    if s.arr[zi] != [] {
      var p := s.arr[zi][0];
      assert p in s.arr[zi] && Roomy(s.zones, zi, p);
      assert ZoneOk(s.zsize, p, s.zones[p]);
      hide Lists;
      TakeFresh(s.zones[p]);
    }
  }

  lemma ZoneStep(s: Slab, page: nat, z': Zone)
    requires SlabInv(s) && page in s.zones && ZoneOk(s.zsize, page, z')
    ensures ZonesOk(s.zsize, s.zones[page := z']) && s.zones[page := z'].Keys == s.zones.Keys
  {
    hide ZoneOk, L.PoolInv, Owners, Marks, Lists;
  }

  lemma ListsTake(zones: map<nat, Zone>, arr: seq<seq<nat>>, zi: nat, page: nat, z': Zone)
    requires Lists(zones, arr) && zi < NZONES && |arr| == NZONES && arr[zi] != [] && page == arr[zi][0]
    requires Roomy(zones, zi, page) && z'.zi == zi && z'.nfree == zones[page].nfree - 1
    ensures Lists(zones[page := z'], if z'.nfree == 0 then arr[zi := arr[zi][1..]] else arr)
  {
    assert NoDup(arr[zi]);
    NoDupTail(arr[zi]);
    assert page in arr[zi];
    hide NoDup, Lists;
    ListsChange(zones, arr, zones[page := z'], zi, if z'.nfree == 0 then arr[zi][1..] else arr[zi], page);
    assert arr[zi := arr[zi]] == arr;
  }

  lemma MallocZoneKeeps(s: Slab, zi: nat)
    requires SlabInv(s) && zi < NZONES && HasRoom(s, zi)
    ensures SlabInv(MallocZone(s, zi).0)
    ensures var (s', a) := MallocZone(s, zi);
      && Gained(s, s', s.arr[zi][0], a, SizeOf(zi))
  {
    hide LiveIn, TakeChunk, Owners, Marks, L.PoolInv, SizeOf, Lists, ZonesOk, Roomy, ZoneOk;
    RoomyHead(s, zi);
    var page := s.arr[zi][0];
    TakeZone(s, zi, page);
    var (z', a) := TakeChunk(s.zones[page]);
    var s' := MallocZone(s, zi).0;
    ZoneStep(s, page, z');
    ListsTake(s.zones, s.arr, zi, page, z');
    ZoneNotLarge(s, page);
    assert SlabInv(s');
    hide SlabInv;
    TakeGains(s, s', page, z', a);
    hide LiveAt;
    NobodyElse(s, s', page, a, z'.size);
  }

  lemma TakeZone(s: Slab, zi: nat, page: nat)
    requires Roomy(s.zones, zi, page) && ZoneOk(s.zsize, page, s.zones[page])
    ensures var z := s.zones[page];
      && z.uindex >= 0 && (z.uindex + 1 == z.nmax ==> z.free != [])
      && var (z', a) := TakeChunk(z);
      && ZoneOk(s.zsize, page, z') && z'.zi == zi && z'.nfree == z.nfree - 1 && z'.size == z.size == SizeOf(zi)
      && a !in LiveIn(z) && LiveIn(z') == LiveIn(z) + {a}
  {
    TakeFresh(s.zones[page]);
    hide Books, LiveIn, SizeOf, Offset, ChunkSize;
  }

  lemma TakeGains(s: Slab, s': Slab, page: nat, z': Zone, a: nat)
    requires page in s.zones && page !in s.large && s'.zones == s.zones[page := z'] && s'.large == s.large
    requires z'.size == s.zones[page].size && a !in LiveIn(s.zones[page])
    requires LiveIn(z') == LiveIn(s.zones[page]) + {a}
    ensures forall q, b, m :: LiveAt(s', q, b, m) <==> LiveAt(s, q, b, m) || (q == page && b == a && m == z'.size)
    ensures forall m :: !LiveAt(s, page, a, m)
  {
    hide LiveIn;
  }

  // ---- A new zone ----------------------------------------------------------------------------

  /** Everything OpenZone needs: pages owned for a zone and marked, but no zone in them yet. */
  ghost predicate Opening(s: Slab, page: nat) {
    && ZoneSize(s.zsize) && L.PoolInv(|s.usage|, s.pool)
    && Owners(s.zsize / PAGE, s.pool.out, s.zones.Keys + {page}, s.cache, s.large)
    && ZonesOk(s.zsize, s.zones) && Lists(s.zones, s.arr) && page !in s.zones
    && Marks(s.usage, s.zsize / PAGE, s.zones.Keys + {page} + Elements(s.cache), s.large)
  }

  lemma OpenZoneKeeps(s: Slab, page: nat, zi: nat, size: nat)
    requires Opening(s, page) && zi < NZONES && |s.arr| == NZONES
    requires ChunkSize(s.zsize, size) && size == SizeOf(zi)
    ensures var (s', a) := OpenZone(s, page, zi, size); SlabInv(s') && Gained(s, s', page, a, size)
  {
    NewZoneOk(s.zsize, page, zi, size);
    var (s', a) := OpenZone(s, page, zi, size);
    var z := NewZone(s.zsize, page, zi, size);
    assert s'.zones.Keys == s.zones.Keys + {page};
    assert page !in s.large;
    hide ZoneOk, LiveIn, Owners, Marks, L.PoolInv, SizeOf, NewZone;
    assert ZonesOk(s'.zsize, s'.zones);
    hide ZonesOk;
    ListsOpen(s.zones, s.arr, zi, page, z);
    assert SlabInv(s');
    hide Lists, SlabInv;
    OpenGains(s, s', page, z, a);
    hide LiveAt;
    NobodyElse(s, s', page, a, size);
  }

  lemma ListsOpen(zones: map<nat, Zone>, arr: seq<seq<nat>>, zi: nat, page: nat, z: Zone)
    requires Lists(zones, arr) && zi < NZONES && |arr| == NZONES && page !in zones && z.zi == zi && z.nfree > 0
    ensures Lists(zones[page := z], arr[zi := [page] + arr[zi]])
  {
    assert NoDup(arr[zi]);
    assert page in arr[zi] ==> Roomy(zones, zi, page);
    Pushed(arr[zi], page);
    hide NoDup, Lists;
    ListsChange(zones, arr, zones[page := z], zi, [page] + arr[zi], page);
  }

  lemma OpenGains(s: Slab, s': Slab, page: nat, z: Zone, a: nat)
    requires page !in s.zones && page !in s.large && s'.zones == s.zones[page := z] && s'.large == s.large
    requires LiveIn(z) == {a}
    ensures forall q, b, m :: LiveAt(s', q, b, m) <==> LiveAt(s, q, b, m) || (q == page && b == a && m == z.size)
    ensures forall m :: !LiveAt(s, page, a, m)
  {
    hide LiveIn;
  }

  /** A cached zone is as good as new pages. */
  lemma CacheOpening(s: Slab)
    requires SlabInv(s) && s.cache != []
    ensures Opening(s.(cache := s.cache[1..]), s.cache[0])
  {
    var page, rest := s.cache[0], s.cache[1..];
    NoDupTail(s.cache);
    assert page in s.cache;
    assert s.zones.Keys + {page} + Elements(rest) == s.zones.Keys + Elements(s.cache);
    hide L.PoolInv, ZonesOk, Lists, Marks, NoDup;
  }

  lemma PagesOpening(s: Slab)
    requires SlabInv(s) && P.Alloc(s.pool.runs, s.zsize / PAGE).1.Some?
    ensures var n := s.zsize / PAGE; var r := P.Alloc(s.pool.runs, n).1.value;
      && Fits(s, r, n)
      && Opening(s.(pool := P.Next(s.pool, P.Take(n)), usage := Mark(s.usage, r, n, Small)), r)
  {
    var n := s.zsize / PAGE;
    var r := P.Alloc(s.pool.runs, n).1.value;
    FreshPages(|s.usage|, s.pool, n);
    var out' := P.Next(s.pool, P.Take(n)).out;
    var usage' := Mark(s.usage, r, n, Small);
    OwnersMore(n, s.pool.out, out', s.zones.Keys, s.cache, s.large, r);
    hide L.PoolInv, ZonesOk, Lists, P.Alloc, P.Next, Mark;
    MarksElsewhere(s.usage, usage', n, s.zones.Keys + Elements(s.cache), s.large, out', |s.usage|, r);
    assert MarkedSmall(usage', r, n);
    MarksMore(usage', n, s.zones.Keys, s.cache, s.large, r);
  }

  lemma MarksMore(usage: seq<Usage>, n: nat, zones: set<nat>, cache: seq<nat>, large: map<nat, nat>, r: nat)
    requires Marks(usage, n, zones + Elements(cache), large) && MarkedSmall(usage, r, n)
    ensures Marks(usage, n, zones + {r} + Elements(cache), large)
  {
    hide MarkedSmall, Elements;
  }

  lemma OwnersMore(n: nat, out: map<nat, nat>, out': map<nat, nat>, zones: set<nat>, cache: seq<nat>,
                   large: map<nat, nat>, r: nat)
    requires Owners(n, out, zones, cache, large) && r !in out && out' == out[r := n]
    ensures Owners(n, out', zones + {r}, cache, large)
    ensures forall p :: p in zones + Elements(cache) ==> p in out' && out'[p] == n && p != r
    ensures forall p :: p in large ==> p in out' && p != r
  {
    hide NoDup;
  }

  lemma MallocNewKeeps(s: Slab, zi: nat, size: nat)
    requires SlabInv(s) && zi < NZONES && |s.arr| == NZONES && ChunkSize(s.zsize, size) && size == SizeOf(zi)
    ensures var (s', r) := MallocNew(s, zi, size);
      && SlabInv(s') && (r.None? ==> s' == s)
      && (r.None? <==> s.cache == [] && P.Alloc(s.pool.runs, s.zsize / PAGE).1.None?)
      && (r.Some? ==> exists p :: Gained(s, s', p, r.value, size))
  {
    hide SlabInv, Opening, SizeOf, OpenZone, Gained;
    if s.cache != [] {
      CacheOpening(s);
      var s1 := s.(cache := s.cache[1..]);
      OpenZoneKeeps(s1, s.cache[0], zi, size);
      GainedSame(s, s1, MallocNew(s, zi, size).0, s.cache[0], OpenZone(s1, s.cache[0], zi, size).1, size);
    } else if P.Alloc(s.pool.runs, s.zsize / PAGE).1.Some? {
      PagesOpening(s);
      var n := s.zsize / PAGE;
      var r := P.Alloc(s.pool.runs, n).1.value;
      var s1 := s.(pool := P.Next(s.pool, P.Take(n)), usage := Mark(s.usage, r, n, Small));
      OpenZoneKeeps(s1, r, zi, size);
      GainedSame(s, s1, MallocNew(s, zi, size).0, r, OpenZone(s1, r, zi, size).1, size);
    }
  }

  /** What is live depends on the zones and the large blocks only. */
  lemma GainedSame(s: Slab, s1: Slab, s': Slab, p: nat, a: nat, l: nat)
    requires Gained(s1, s', p, a, l) && s1.zones == s.zones && s1.large == s.large
    ensures Gained(s, s', p, a, l)
  {
    assert forall q, b, m :: LiveAt(s1, q, b, m) <==> LiveAt(s, q, b, m);
    hide LiveAt;
  }

  // ---- Large blocks --------------------------------------------------------------------------

  lemma MallocLargeKeeps(s: Slab, size: nat)
    requires SlabInv(s) && size > 0
    ensures var (s', r) := MallocLarge(s, size);
      && SlabInv(s') && (r.None? ==> s' == s)
      && (r.None? <==> P.Alloc(s.pool.runs, PagesFor(size)).1.None?)
      && (r.Some? ==> r.value % PAGE == 0 && Gained(s, s', r.value / PAGE, r.value, PagesFor(size) * PAGE))
  {
    var n := PagesFor(size);
    hide PagesFor;
    if P.Alloc(s.pool.runs, n).1.Some? {
      FreshPages(|s.usage|, s.pool, n);
      var r := P.Alloc(s.pool.runs, n).1.value;
      var s' := MallocLarge(s, size).0;
      assert r < |s.usage| && s'.usage == s.usage[r := Usage(Large, n)];
      OwnersLarge(s.zsize / PAGE, s.pool.out, s'.pool.out, s.zones.Keys, s.cache, s.large, r, n);
      hide L.PoolInv, ZonesOk, Lists, P.Alloc, P.Next;
      MarksElsewhere(s.usage, s'.usage, s.zsize / PAGE, s.zones.Keys + Elements(s.cache), s.large,
                     s'.pool.out, |s.usage|, r);
      MarksLarge(s'.usage, s.zsize / PAGE, s.zones.Keys + Elements(s.cache), s.large, r, n);
      assert SlabInv(s');
      hide Owners, Marks, SlabInv;
      LargeGains(s, s', r, n);
      assert r * PAGE / PAGE == r && r * PAGE % PAGE == 0;
      NobodyElse(s, s', r, r * PAGE, n * PAGE);
    }
  }

  lemma OwnersLarge(k: nat, out: map<nat, nat>, out': map<nat, nat>, zones: set<nat>, cache: seq<nat>,
                    large: map<nat, nat>, r: nat, n: nat)
    requires Owners(k, out, zones, cache, large) && r !in out && out' == out[r := n]
    ensures Owners(k, out', zones, cache, large[r := n]) && r !in large && r !in zones
    ensures forall p :: p in zones + Elements(cache) ==> p in out' && out'[p] == k && p != r
    ensures forall p :: p in large ==> p in out' && p != r
  {
    hide NoDup;
  }

  lemma MarksLarge(usage: seq<Usage>, k: nat, smalls: set<nat>, large: map<nat, nat>, r: nat, n: nat)
    requires Marks(usage, k, smalls, large) && r < |usage| && usage[r] == Usage(Large, n)
    ensures Marks(usage, k, smalls, large[r := n])
  {
    hide MarkedSmall;
  }

  lemma LargeGains(s: Slab, s': Slab, r: nat, n: nat)
    requires r !in s.large && r !in s.zones && s'.zones == s.zones && s'.large == s.large[r := n]
    ensures forall q, b, m :: LiveAt(s', q, b, m) <==> LiveAt(s, q, b, m) || (q == r && b == r * PAGE && m == n * PAGE)
    ensures forall m :: !LiveAt(s, r, r * PAGE, m)
  {
    hide LiveIn;
  }

  // ---- rt_malloc -----------------------------------------------------------------------------

  /** No chunk of the index, no empty zone and no run of pages for one; or no run of pages for a
      large block. */
  ghost predicate Exhausted(s: Slab, size: nat) {
    if size >= Limit(s.zsize) then P.Alloc(s.pool.runs, PagesFor(size)).1.None?
    else
      && ZoneIndex(size).1 < |s.arr| && s.arr[ZoneIndex(size).1] == [] && s.cache == []
      && P.Alloc(s.pool.runs, s.zsize / PAGE).1.None?
  }

  /** rt_malloc keeps the heap in order; what it returns was nobody's, is at least as long as asked
      for, and nothing else changes hands; it returns null exactly when nothing fits. */
  lemma MallocKeeps(s: Slab, size: nat)
    requires SlabInv(s) && size < WORD
    ensures var (s', r) := Malloc(s, size);
      && SlabInv(s') && (r.None? ==> s' == s)
      && (r.None? <==> size == 0 || Exhausted(s, size))
      && (r.Some? ==> exists p, l :: Gained(s, s', p, r.value, l) && size <= l)
  {
    hide SlabInv, Gained, MallocLarge, MallocNew, MallocZone, HasRoom, SizeOf, ZoneIndex, PagesFor, ZoneSize;
    if size >= Limit(s.zsize) {
      if size > 0 {
        MallocLargeKeeps(s, size);
        if P.Alloc(s.pool.runs, PagesFor(size)).1.Some? {
          PagesEnough(s, size);
          var (s', r) := Malloc(s, size);
          assert Gained(s, s', r.value / PAGE, r.value, PagesFor(size) * PAGE);
        }
      }
    } else if size > 0 {
      var (chunk, zi) := ZoneIndex(size);
      assert ZoneSize(s.zsize) by { SizeOfZones(s); }
      MallocChunkSize(s.zsize, size);
      IndexFixesSize(size);
      RoomyHead(s, zi);
      if HasRoom(s, zi) {
        MallocZoneKeeps(s, zi);
      } else {
        MallocNewKeeps(s, zi, chunk);
      }
    }
  }

  lemma SizeOfZones(s: Slab)
    requires SlabInv(s)
    ensures ZoneSize(s.zsize)
  {
    hide Owners, Lists, Marks, ZonesOk, L.PoolInv;
  }

  lemma PagesEnough(s: Slab, size: nat)
    requires P.Alloc(s.pool.runs, PagesFor(size)).1.Some? && 0 < size < WORD
    ensures PagesFor(size) * PAGE >= size
  {
    assert PagesFor(size) > 0;
  }

  // ---- rt_free -------------------------------------------------------------------------------

  /** The page descriptors lead from a live address to its owner. */
  lemma OwnerFound(s: Slab, p: nat, a: nat, l: nat)
    requires SlabInv(s) && LiveAt(s, p, a, l)
    ensures Freeable(s, a) && OwnerOf(s, a) == p
    ensures s.usage[a / PAGE].kind == Large <==> p in s.large
    ensures p in s.large ==> p !in s.zones && a / PAGE == p && p in s.pool.out
    ensures p !in s.large ==> p in s.zones && a in LiveIn(s.zones[p]) && l == s.zones[p].size
  {
    hide SlabInv, LiveIn, Freeable, OwnerOf;
    if p in s.large {
      LargeFound(s, p);
    } else {
      SmallFound(s, p, a);
    }
  }

  lemma LargeFound(s: Slab, p: nat)
    requires SlabInv(s) && p in s.large
    ensures Freeable(s, p * PAGE) && OwnerOf(s, p * PAGE) == p && p * PAGE / PAGE == p
    ensures s.usage[p].kind == Large && p !in s.zones && p in s.pool.out
  {
    hide L.PoolInv, Lists, ZonesOk;
    assert s.usage[p] == Usage(Large, s.large[p]);
    assert p * PAGE / PAGE == p;
  }

  lemma SmallFound(s: Slab, p: nat, a: nat)
    requires SlabInv(s) && p in s.zones && a in LiveIn(s.zones[p])
    ensures Freeable(s, a) && OwnerOf(s, a) == p && s.usage[a / PAGE].kind == Small
  {
    ZoneAt(s, p);
    hide SlabInv, LiveIn, ZoneOk;
    LiveUsed(s.zones[p], a);
    ChunkInside(s.zsize, p, s.zones[p], a);
    hide ZoneSize;
    PageInside(p, a, s.zsize);
  }

  lemma ZoneAt(s: Slab, p: nat)
    requires SlabInv(s) && p in s.zones
    ensures ZoneSize(s.zsize) && s.zsize % PAGE == 0 && |s.arr| == NZONES && s.zones[p].zi < NZONES
    ensures ZoneOk(s.zsize, p, s.zones[p]) && MarkedSmall(s.usage, p, s.zsize / PAGE)
  {
    hide L.PoolInv, Owners, Lists, Marks, MarkedSmall, ZonesOk, ZoneOk;
    ListsLength(s.zones, s.arr);
    OneZoneOk(s.zsize, s.zones, p);
    OneMark(s.usage, s.zsize / PAGE, s.zones.Keys + Elements(s.cache), s.large, p);
  }

  lemma OneZoneOk(zsize: nat, zones: map<nat, Zone>, p: nat)
    requires ZonesOk(zsize, zones) && p in zones
    ensures ZoneOk(zsize, p, zones[p]) && zones[p].zi < NZONES
  {
    hide Books, SizeOf, Offset;
  }

  lemma OneMark(usage: seq<Usage>, n: nat, smalls: set<nat>, large: map<nat, nat>, p: nat)
    requires Marks(usage, n, smalls, large) && p in smalls
    ensures MarkedSmall(usage, p, n)
  {
    hide MarkedSmall;
  }

  lemma ListsLength(zones: map<nat, Zone>, arr: seq<seq<nat>>)
    requires Lists(zones, arr)
    ensures |arr| == NZONES
  {}

  lemma PageInside(p: nat, a: nat, zsize: nat)
    requires p * PAGE <= a < p * PAGE + zsize && zsize % PAGE == 0
    ensures p <= a / PAGE < p + zsize / PAGE
  {}

  lemma FreeLargeKeeps(s: Slab, p: nat)
    requires SlabInv(s) && p in s.large
    ensures p in s.pool.out && p < |s.usage|
    ensures SlabInv(FreeLarge(s, p)) && Lost(s, FreeLarge(s, p), p, p * PAGE)
  {
    hide L.PoolInv, ZonesOk, Lists, P.Free, Owners, Marks, Ranges, LiveIn;
    LargeIsOut(s.zsize / PAGE, s.pool.out, s.zones.Keys, s.cache, s.large, p);
    PoolRanges(|s.usage|, s.pool);
    RangeInside(s.pool.out, |s.usage|, p);
    L.GiveKeeps(|s.usage|, s.pool, p);
    var s', n := FreeLarge(s, p), s.zsize / PAGE;
    OwnersLess(n, s.pool.out, s'.pool.out, s.zones.Keys, s.cache, s.large, p);
    assert forall q :: q in s.large - {p} ==> q in s.large && (s.large - {p})[q] == s.large[q];
    MarksFewer(s.usage, n, s.zones.Keys + Elements(s.cache), s.large, s.zones.Keys + Elements(s.cache), s.large - {p});
    MarksElsewhere(s.usage, s'.usage, n, s.zones.Keys + Elements(s.cache), s.large - {p}, s.pool.out, |s.usage|, p);
    assert SlabInv(s');
    hide SlabInv;
  }

  lemma LargeIsOut(n: nat, out: map<nat, nat>, zones: set<nat>, cache: seq<nat>, large: map<nat, nat>, p: nat)
    requires Owners(n, out, zones, cache, large) && p in large
    ensures p in out && out[p] == large[p]
  {
    hide NoDup;
  }

  lemma RangeInside(out: map<nat, nat>, total: nat, p: nat)
    requires Ranges(out, total) && p in out
    ensures out[p] > 0 && p + out[p] <= total
  {}

  lemma OwnersLess(k: nat, out: map<nat, nat>, out': map<nat, nat>, zones: set<nat>, cache: seq<nat>,
                   large: map<nat, nat>, p: nat)
    requires Owners(k, out, zones, cache, large) && p in large && out' == out - {p}
    ensures Owners(k, out', zones, cache, large - {p}) && p in out && p !in zones
    ensures forall q :: q in zones + Elements(cache) ==> q in out && out[q] == k && q != p
    ensures forall q :: q in large - {p} ==> q in out && q != p
  {
    hide NoDup;
  }

  lemma PutZone(s: Slab, p: nat, a: nat)
    requires SlabInv(s) && p in s.zones && a in LiveIn(s.zones[p])
    ensures var z' := PutChunk(s.zones[p], a);
      && z'.zi < NZONES == |s.arr| && ZonesOk(s.zsize, s.zones[p := z']) && p !in s.large
      && LiveIn(z') == LiveIn(s.zones[p]) - {a} && 0 < z'.nfree <= z'.nmax && z'.nfree == s.zones[p].nfree + 1
      && |LiveIn(z')| + z'.nfree == z'.nmax
      && s.zones[p := z'].Keys == s.zones.Keys
      && Lists(s.zones[p := z'], if z'.nfree == 1 then s.arr[z'.zi := [p] + s.arr[z'.zi]] else s.arr)
  {
    hide Books, LiveIn, L.PoolInv, Marks, Owners, Lists, ZonesOk, SizeOf;
    var z, z' := s.zones[p], PutChunk(s.zones[p], a);
    ZoneAt(s, p);
    PutBack(z, a);
    ZoneConserved(z');
    ZoneNotLarge(s, p);
    assert ZoneOk(s.zsize, p, z');
    hide ZoneOk;
    ZoneStep(s, p, z');
    ListsPut(s.zones, s.arr, p, z');
  }

  lemma ZoneNotLarge(s: Slab, p: nat)
    requires SlabInv(s) && p in s.zones
    ensures p !in s.large && p !in s.cache
  {
    hide L.PoolInv, Marks, Lists, ZonesOk;
  }

  lemma ListsPut(zones: map<nat, Zone>, arr: seq<seq<nat>>, p: nat, z': Zone)
    requires Lists(zones, arr) && p in zones && z'.zi == zones[p].zi < NZONES && |arr| == NZONES
    requires z'.nfree == zones[p].nfree + 1 && zones[p].nfree >= 0
    ensures Lists(zones[p := z'], if z'.nfree == 1 then arr[z'.zi := [p] + arr[z'.zi]] else arr)
  {
    var zi := z'.zi;
    assert NoDup(arr[zi]);
    assert p in arr[zi] <==> zones[p].nfree > 0 by {
      assert p in arr[zi] ==> Roomy(zones, zi, p);
    }
    if z'.nfree == 1 { Pushed(arr[zi], p); }
    hide NoDup, Lists;
    ListsChange(zones, arr, zones[p := z'], zi, if z'.nfree == 1 then [p] + arr[zi] else arr[zi], p);
    assert arr[zi := arr[zi]] == arr;
  }

  /** The state between giving the chunk back and perhaps retiring the zone. */
  function Returned(s: Slab, p: nat, a: nat): Slab
    requires p in s.zones && s.zones[p].zi < |s.arr|
  {
    var z := PutChunk(s.zones[p], a);
    s.(zones := s.zones[p := z], arr := if z.nfree == 1 then s.arr[z.zi := [p] + s.arr[z.zi]] else s.arr)
  }

  lemma ReturnedKeeps(s: Slab, p: nat, a: nat)
    requires SlabInv(s) && p in s.zones && a in LiveIn(s.zones[p])
    ensures s.zones[p].zi < |s.arr|
    ensures var s' := Returned(s, p, a);
      && SlabInv(s') && Lost(s, s', p, a) && p in s'.zones && s'.zones[p].zi < |s'.arr| == NZONES
      && |LiveIn(s'.zones[p])| + s'.zones[p].nfree == s'.zones[p].nmax && s'.zones[p].nfree > 0
  {
    hide PutChunk, LiveIn, Owners, Marks, L.PoolInv, Lists, ZonesOk;
    PutZone(s, p, a);
    SameShape(s.zones[p], a);
    var s' := Returned(s, p, a);
    assert SlabInv(s');
    hide SlabInv;
    PutLoses(s, s', p, PutChunk(s.zones[p], a), a);
  }

  lemma PutLoses(s: Slab, s': Slab, p: nat, z': Zone, a: nat)
    requires p in s.zones && p !in s.large && s'.zones == s.zones[p := z'] && s'.large == s.large
    requires z'.size == s.zones[p].size && LiveIn(z') == LiveIn(s.zones[p]) - {a}
    ensures Lost(s, s', p, a)
  {
    hide LiveIn;
  }

  lemma SameShape(z: Zone, a: nat)
    ensures PutChunk(z, a).size == z.size && PutChunk(z, a).zi == z.zi
  {}

  // ---- Retiring a zone -----------------------------------------------------------------------

  lemma ListsGone(zones: map<nat, Zone>, arr: seq<seq<nat>>, p: nat)
    requires Lists(zones, arr) && p in zones && zones[p].zi < NZONES && |arr| == NZONES
    ensures Lists(zones - {p}, arr[zones[p].zi := Without(arr[zones[p].zi], p)])
  {
    var zi := zones[p].zi;
    assert NoDup(arr[zi]);
    hide NoDup, Lists, Without;
    ListsChange(zones, arr, zones - {p}, zi, Without(arr[zi], p), p);
  }

  /** The zone has left zone_array and is nobody's for the moment. */
  ghost predicate Leaving(s: Slab, p: nat) {
    && ZoneSize(s.zsize) && L.PoolInv(|s.usage|, s.pool) && p !in s.zones && p !in s.large && p !in s.cache
    && Owners(s.zsize / PAGE, s.pool.out, s.zones.Keys, s.cache, s.large)
    && p in s.pool.out && s.pool.out[p] == s.zsize / PAGE
    && ZonesOk(s.zsize, s.zones) && Lists(s.zones, s.arr)
    && Marks(s.usage, s.zsize / PAGE, s.zones.Keys + {p} + Elements(s.cache), s.large)
  }

  lemma LeavesArray(s: Slab, p: nat)
    requires SlabInv(s) && p in s.zones && s.zones[p].zi < |s.arr| == NZONES
    ensures Leaving(s.(zones := s.zones - {p}, arr := s.arr[s.zones[p].zi := Without(s.arr[s.zones[p].zi], p)]), p)
  {
    hide Owners, Marks, L.PoolInv, Lists, ZonesOk, Without;
    ListsGone(s.zones, s.arr, p);
    ZoneNotLarge(s, p);
    assert (s.zones - {p}).Keys + {p} == s.zones.Keys;
    assert (s.zones - {p}).Keys <= s.zones.Keys;
    ZonesFewer(s.zsize, s.zones, p);
    OwnersFewer(s.zsize / PAGE, s.pool.out, s.zones.Keys, (s.zones - {p}).Keys, s.cache, s.large, p);
  }

  lemma ZonesFewer(zsize: nat, zones: map<nat, Zone>, p: nat)
    requires ZonesOk(zsize, zones)
    ensures ZonesOk(zsize, zones - {p})
  {
    hide ZoneOk;
  }

  lemma OwnersFewer(n: nat, out: map<nat, nat>, zones: set<nat>, zones': set<nat>, cache: seq<nat>,
                    large: map<nat, nat>, p: nat)
    requires Owners(n, out, zones, cache, large) && zones' <= zones && p in zones
    ensures Owners(n, out, zones', cache, large) && p in out && out[p] == n
  {
    hide NoDup;
  }

  lemma IntoCache(s: Slab, p: nat)
    requires Leaving(s, p) && |s.cache| < RELEASE
    ensures SlabInv(s.(cache := [p] + s.cache))
  {
    Pushed(s.cache, p);
    assert s.zones.Keys + Elements([p] + s.cache) == s.zones.Keys + {p} + Elements(s.cache);
    hide NoDup, L.PoolInv, ZonesOk, Lists, Marks;
  }

  lemma BackToPages(s: Slab, p: nat)
    requires Leaving(s, p)
    ensures Fits(s, p, s.zsize / PAGE) && SlabInv(ReleaseZone(s, p))
  {
    var n, s' := s.zsize / PAGE, ReleaseZone(s, p);
    PoolRanges(|s.usage|, s.pool);
    L.GiveKeeps(|s.usage|, s.pool, p);
    OwnersWithout(n, s.pool.out, s'.pool.out, s.zones.Keys, s.cache, s.large, p);
    hide L.PoolInv, ZonesOk, Lists, P.Free, Mark;
    assert s.zones.Keys + Elements(s.cache) <= s.zones.Keys + {p} + Elements(s.cache);
    MarksFewer(s.usage, n, s.zones.Keys + {p} + Elements(s.cache), s.large, s.zones.Keys + Elements(s.cache), s.large);
    MarksElsewhere(s.usage, s'.usage, n, s.zones.Keys + Elements(s.cache), s.large, s.pool.out, |s.usage|, p);
  }

  lemma OwnersWithout(n: nat, out: map<nat, nat>, out': map<nat, nat>, zones: set<nat>, cache: seq<nat>,
                      large: map<nat, nat>, p: nat)
    requires Owners(n, out, zones, cache, large) && p !in zones && p !in cache && p !in large && out' == out - {p}
    ensures Owners(n, out', zones, cache, large)
    ensures forall q :: q in zones + Elements(cache) ==> q in out && out[q] == n && q != p
    ensures forall q :: q in large ==> q in out && q != p
  {
    hide NoDup;
  }

  /** A zone without live chunks may be retired: nothing changes hands. */
  lemma RetireKeeps(s: Slab, p: nat)
    requires SlabInv(s) && p in s.zones && s.zones[p].zi < |s.arr| == NZONES && LiveIn(s.zones[p]) == {}
    ensures var s' := Retire(s, p);
      SlabInv(s') && forall q, b, m :: LiveAt(s', q, b, m) <==> LiveAt(s, q, b, m)
  {
    LeavesArray(s, p);
    var s1 := s.(zones := s.zones - {p}, arr := s.arr[s.zones[p].zi := Without(s.arr[s.zones[p].zi], p)]);
    hide SlabInv, Leaving, Without, LiveIn, ReleaseZone, Fits;
    CacheBound(s1, p);
    if |s.cache| < RELEASE {
      IntoCache(s1, p);
      assert Retire(s, p) == s1.(cache := [p] + s.cache);
    } else {
      BackToPages(s1, p);
      assert Fits(s, p, s.zsize / PAGE) by { SameFits(s, s1, p); }
      assert Retire(s, p) == ReleaseZone(s1, p);
      ReleaseSame(s1, p);
    }
  }

  lemma SameFits(s: Slab, s1: Slab, p: nat)
    requires Fits(s1, p, s1.zsize / PAGE) && s1.usage == s.usage && s1.zsize == s.zsize
    ensures Fits(s, p, s.zsize / PAGE)
  {}

  lemma CacheBound(s: Slab, p: nat)
    requires Leaving(s, p)
    ensures |s.cache| <= RELEASE && p in s.pool.out
  {
    hide NoDup, L.PoolInv, ZonesOk, Lists, Marks;
  }

  lemma ReleaseSame(s: Slab, p: nat)
    requires p in s.pool.out && Fits(s, p, s.zsize / PAGE)
    ensures ReleaseZone(s, p).zones == s.zones && ReleaseZone(s, p).large == s.large
  {}

  lemma ReturnedThen(s: Slab, p: nat, a: nat)
    requires p in s.zones && s.zones[p].zi < |s.arr|
    ensures var s1 := Returned(s, p, a);
      p in s1.zones && s1.zones[p].zi < |s1.arr|
      && (FreeSmall(s, p, a) == s1
          || (FreeSmall(s, p, a) == Retire(s1, p) && s1.zones[p].nfree == s1.zones[p].nmax))
  {
    hide Retire;
  }

  lemma FreeSmallKeeps(s: Slab, p: nat, a: nat)
    requires SlabInv(s) && p in s.zones && a in LiveIn(s.zones[p])
    ensures s.zones[p].zi < |s.arr|
    ensures SlabInv(FreeSmall(s, p, a)) && Lost(s, FreeSmall(s, p, a), p, a)
  {
    hide SlabInv, LiveIn, Retire, Returned, LiveAt, FreeSmall;
    ReturnedKeeps(s, p, a);
    ReturnedThen(s, p, a);
    var s1 := Returned(s, p, a);
    if FreeSmall(s, p, a) != s1 {
      RetireKeeps(s1, p);
    }
  }

  /** rt_free of a live block finds its zone or its pages from the address alone, keeps the heap in
      order, and takes exactly this block out of circulation. */
  lemma FreeKeeps(s: Slab, p: nat, a: nat, l: nat)
    requires SlabInv(s) && LiveAt(s, p, a, l)
    ensures Freeable(s, a) && SlabInv(Free(s, a)) && Lost(s, Free(s, a), p, a)
  {
    OwnerFound(s, p, a, l);
    hide SlabInv, LiveIn, FreeSmall, FreeLarge, Lost;
    if p in s.large {
      FreeLargeKeeps(s, p);
    } else {
      FreeSmallKeeps(s, p, a);
    }
  }

  // ---- Over every run ------------------------------------------------------------------------

  datatype Op = DoMalloc(size: nat) | DoFree(a: nat)

  /** A 32-bit size is asked for, or a live address is given back. */
  ghost predicate Enabled(s: Slab, op: Op) {
    match op
    case DoMalloc(size) => size < WORD
    case DoFree(a) => Freeable(s, a) && exists p, l :: LiveAt(s, p, a, l)
  }

  function Next(s: Slab, op: Op): Slab
    requires op.DoFree? ==> Freeable(s, op.a)
  {
    match op
    case DoMalloc(size) => Malloc(s, size).0
    case DoFree(a) => Free(s, a)
  }

  ghost predicate EnabledRun(s: Slab, ops: seq<Op>)
    decreases |ops|
  {
    ops == [] || (Enabled(s, ops[0]) && EnabledRun(Next(s, ops[0]), ops[1..]))
  }

  ghost function Run(s: Slab, ops: seq<Op>): Slab
    requires EnabledRun(s, ops)
    decreases |ops|
  {
    if ops == [] then s else Run(Next(s, ops[0]), ops[1..])
  }

  lemma {:induction false} RunKeeps(s: Slab, ops: seq<Op>)
    requires SlabInv(s) && EnabledRun(s, ops)
    ensures SlabInv(Run(s, ops))
    decreases |ops|
  {
    hide SlabInv, Malloc, Free, LiveAt, Freeable;
    if ops != [] {
      match ops[0]
      case DoMalloc(size) =>
        MallocKeeps(s, size);
        RunKeeps(Next(s, ops[0]), ops[1..]);
      case DoFree(a) =>
        var p, l :| LiveAt(s, p, a, l);
        FreeKeeps(s, p, a, l);
        RunKeeps(Next(s, ops[0]), ops[1..]);
    }
  }

  /** The heap after rt_system_heap_init: one run of pages, of which the first k hold memusage. */
  function Create(zsize: nat, total: nat, k: nat, usage: seq<Usage>): Slab {
    Slab(zsize, P.Next(P.Pool([P.Run(0, total)], map[]), P.Take(k)), map[], seq(NZONES, _ => []), [], usage, map[])
  }

  lemma CreateInv(zsize: nat, total: nat, k: nat, usage: seq<Usage>)
    requires ZoneSize(zsize) && total > 0 && |usage| == total
    ensures SlabInv(Create(zsize, total, k, usage))
  {
    L.WholeHeap(total);
    L.TakeKeeps(total, P.Pool([P.Run(0, total)], map[]), k);
    hide L.PoolInv, P.Alloc, P.Next;
  }

  /** Live chunks and free chunks make up the zone, and the free ones are the never used chunks and
      those on the free list. */
  ghost predicate Conserved(z: Zone) {
    |LiveIn(z)| + z.nfree == z.nmax && z.nfree == z.nmax - 1 - z.uindex + |z.free|
  }

  /** Over every run of rt_malloc and rt_free: live blocks are pairwise disjoint, in every zone live
      and free chunks add up to all chunks, a zone is in the list of its index exactly when it has
      room, and at most two empty zones are kept back. */
  lemma HeapAlwaysSound(zsize: nat, total: nat, k: nat, usage: seq<Usage>, ops: seq<Op>)
    requires ZoneSize(zsize) && total > 0 && |usage| == total && EnabledRun(Create(zsize, total, k, usage), ops)
    ensures var s := Run(Create(zsize, total, k, usage), ops);
      && (forall p, a, l, q, b, m :: LiveAt(s, p, a, l) && LiveAt(s, q, b, m) && a != b ==>
            a + l <= b || b + m <= a)
      && (forall p :: p in s.zones ==> Conserved(s.zones[p]))
      && Lists(s.zones, s.arr) && |s.cache| <= RELEASE
  {
    CreateInv(zsize, total, k, usage);
    RunKeeps(Create(zsize, total, k, usage), ops);
    var s := Run(Create(zsize, total, k, usage), ops);
    hide Run, Create, EnabledRun, SlabInv, LiveAt, Lists, LiveIn;
    forall p, a, l, q, b, m | LiveAt(s, p, a, l) && LiveAt(s, q, b, m) && a != b
      ensures a + l <= b || b + m <= a
    {
      LiveApart(s, p, a, l, q, b, m);
    }
    forall p | p in s.zones
      ensures Conserved(s.zones[p])
    {
      ZoneAt(s, p);
      ZoneConserved(s.zones[p]);
    }
    InvParts(s);
  }

  lemma InvParts(s: Slab)
    requires SlabInv(s)
    ensures Lists(s.zones, s.arr) && |s.cache| <= RELEASE
  {
    hide Lists, Marks, ZonesOk, L.PoolInv, NoDup;
  }
}
