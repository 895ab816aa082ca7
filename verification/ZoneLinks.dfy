/** The lists of zones of the slab heap as the z_next links in the zone headers make them
    (software/src/slab.c:523-529, 573-577, 628-630, 821-860). */
module ZoneLinks {
  import opened Base
  import opened Chains

  /** Each list without duplicates, no page in two lists. */
  ghost predicate Separate(arr: seq<seq<nat>>, cache: seq<nat>) {
    && NoDup(cache) && (forall i :: 0 <= i < |arr| ==> NoDup(arr[i]))
    && (forall i, j, p :: 0 <= i < j < |arr| && p in arr[i] ==> p !in arr[j])
    && (forall i, p :: 0 <= i < |arr| && p in arr[i] ==> p !in cache)
  }

  ghost predicate Linked(next: seq<int>, heads: seq<int>, free: int, arr: seq<seq<nat>>, cache: seq<nat>) {
    && |heads| == |arr| && Chain(next, free, cache)
    && forall i :: 0 <= i < |arr| ==> Chain(next, heads[i], arr[i])
  }

  /** A page that is in none of the lists. */
  ghost predicate Absent(arr: seq<seq<nat>>, cache: seq<nat>, p: nat) {
    p !in cache && forall i :: 0 <= i < |arr| ==> p !in arr[i]
  }

  lemma PushLinked(next: seq<int>, heads: seq<int>, free: int, arr: seq<seq<nat>>, cache: seq<nat>, zi: nat, p: nat)
    requires Linked(next, heads, free, arr, cache) && Absent(arr, cache, p) && zi < |arr| && p < |next|
    ensures Linked(next[p := heads[zi]], heads[zi := p], free, arr[zi := [p] + arr[zi]], cache)
  {
    hide Chain;
    ChainPush(next, heads[zi], arr[zi], p);
    ChainOther(next, free, cache, p, heads[zi]);
    forall i | 0 <= i < |arr| && i != zi ensures Chain(next[p := heads[zi]], heads[i], arr[i]) {
      ChainOther(next, heads[i], arr[i], p, heads[zi]);
    }
  }

  lemma PushSeparate(arr: seq<seq<nat>>, cache: seq<nat>, zi: nat, p: nat)
    requires Separate(arr, cache) && Absent(arr, cache, p) && zi < |arr|
    ensures Separate(arr[zi := [p] + arr[zi]], cache)
  {
    NoDupEnds(arr[zi], p);
    hide NoDup;
    var arr' := arr[zi := [p] + arr[zi]];
    forall i, q | 0 <= i < |arr'| && q in arr'[i] ensures q in arr[i] || (q == p && i == zi) {}
  }

  lemma FewerSeparate(arr: seq<seq<nat>>, cache: seq<nat>, zi: nat, l: seq<nat>)
    requires Separate(arr, cache) && zi < |arr| && NoDup(l) && forall q :: q in l ==> q in arr[zi]
    ensures Separate(arr[zi := l], cache)
  {
    hide NoDup;
  }

  lemma PopLinked(next: seq<int>, heads: seq<int>, free: int, arr: seq<seq<nat>>, cache: seq<nat>, zi: nat)
    requires Linked(next, heads, free, arr, cache) && zi < |arr| && arr[zi] != []
    ensures heads[zi] == arr[zi][0] && arr[zi][0] < |next|
    ensures Linked(next, heads[zi := next[arr[zi][0]]], free, arr[zi := arr[zi][1..]], cache)
  {
    hide Chain;
    ChainTail(next, heads[zi], arr[zi]);
  }

  /** The link of a page in no list may be written. */
  lemma AbsentWritten(next: seq<int>, heads: seq<int>, free: int, arr: seq<seq<nat>>, cache: seq<nat>, p: nat)
    requires Linked(next, heads, free, arr, cache) && Absent(arr, cache, p) && p < |next|
    ensures Linked(next[p := NULL], heads, free, arr, cache)
  {
    hide Chain;
    ChainOther(next, free, cache, p, NULL);
    forall i | 0 <= i < |arr| ensures Chain(next[p := NULL], heads[i], arr[i]) {
      ChainOther(next, heads[i], arr[i], p, NULL);
    }
  }

  lemma HeadAbsent(arr: seq<seq<nat>>, cache: seq<nat>, zi: nat)
    requires Separate(arr, cache) && zi < |arr| && arr[zi] != []
    ensures Absent(arr[zi := arr[zi][1..]], cache, arr[zi][0])
  {
    assert arr[zi][0] in arr[zi] && NoDup(arr[zi]);
  }

  /** The list leads past page p, its first one. */
  lemma DropFirst(next: seq<int>, heads: seq<int>, free: int, arr: seq<seq<nat>>, cache: seq<nat>, zi: nat, p: nat,
                  rest: seq<nat>)
    requires Linked(next, heads, free, arr, cache) && zi < |arr| && p < |next| && Chain(next, next[p], rest)
    ensures Linked(next, heads[zi := next[p]], free, arr[zi := rest], cache)
  {
    hide Chain;
  }

  /** The link of page x, the last one of `passed`, leads past page p. */
  lemma DropLater(next: seq<int>, heads: seq<int>, free: int, arr: seq<seq<nat>>, cache: seq<nat>, zi: nat,
                  passed: seq<nat>, x: nat, p: nat, rest: seq<nat>)
    requires Linked(next, heads, free, arr, cache) && zi < |arr| && passed != [] && x == passed[|passed| - 1]
    requires arr[zi] == passed + ([p] + rest) && p < |next| && Chain(next, next[p], rest)
    requires NoDup(passed) && x !in rest && x !in cache && forall i :: 0 <= i < |arr| && i != zi ==> x !in arr[i]
    ensures x < |next| && Linked(next[x := next[p]], heads, free, arr[zi := passed + rest], cache)
  {
    assert arr[zi][|passed| - 1] == x;
    ChainBound(next, heads[zi], arr[zi], |passed| - 1);
    hide Chain, NoDup;
    ChainJoin(next, heads[zi], passed, [p] + rest, next[p], rest);
    ChainOther(next, free, cache, x, next[p]);
    forall i | 0 <= i < |arr| && i != zi ensures Chain(next[x := next[p]], heads[i], arr[i]) {
      ChainOther(next, heads[i], arr[i], x, next[p]);
    }
  }

  lemma ChainBound(next: seq<int>, first: int, l: seq<nat>, i: nat)
    requires Chain(next, first, l) && i < |l|
    ensures l[i] < |next|
  {}

  lemma LastAlone(arr: seq<seq<nat>>, cache: seq<nat>, zi: nat, passed: seq<nat>, p: nat, rest: seq<nat>)
    requires Separate(arr, cache) && zi < |arr| && arr[zi] == passed + [p] + rest && passed != []
    ensures var x := passed[|passed| - 1];
      && NoDup(passed) && x !in rest && x !in cache && (forall i :: 0 <= i < |arr| && i != zi ==> x !in arr[i])
  {
    var x, l := passed[|passed| - 1], arr[zi];
    assert l[|passed| - 1] == x && x in l;
    forall i, j | 0 <= i < j < |passed| ensures passed[i] != passed[j] { assert l[i] == passed[i] && l[j] == passed[j]; }
    forall k | 0 <= k < |rest| ensures rest[k] != x { assert l[|passed| + 1 + k] == rest[k]; }
  }

  lemma AbsentAfter(arr: seq<seq<nat>>, cache: seq<nat>, zi: nat, p: nat)
    requires Separate(arr, cache) && zi < |arr| && p in arr[zi]
    ensures Absent(arr[zi := Without(arr[zi], p)], cache, p)
  {
    hide Without;
    assert NoDup(arr[zi]);
    hide NoDup;
  }

  lemma CachePushed(next: seq<int>, heads: seq<int>, free: int, arr: seq<seq<nat>>, cache: seq<nat>, p: nat)
    requires Linked(next, heads, free, arr, cache) && Separate(arr, cache) && Absent(arr, cache, p) && p < |next|
    ensures Linked(next[p := free], heads, p, arr, [p] + cache) && Separate(arr, [p] + cache)
  {
    NoDupEnds(cache, p);
    hide Chain, NoDup;
    ChainPush(next, free, cache, p);
    forall i | 0 <= i < |arr| ensures Chain(next[p := free], heads[i], arr[i]) {
      ChainOther(next, heads[i], arr[i], p, free);
    }
  }

  lemma CachePopped(next: seq<int>, heads: seq<int>, free: int, arr: seq<seq<nat>>, cache: seq<nat>)
    requires Linked(next, heads, free, arr, cache) && Separate(arr, cache) && cache != []
    ensures free == cache[0] && cache[0] < |next|
    ensures Linked(next, heads, next[cache[0]], arr, cache[1..]) && Separate(arr, cache[1..])
  {
    NoDupTail(cache);
    hide Chain, NoDup;
    ChainTail(next, free, cache);
  }

  lemma CacheAlone(arr: seq<seq<nat>>, cache: seq<nat>)
    requires Separate(arr, cache) && cache != []
    ensures Absent(arr, cache[1..], cache[0])
  {
    assert cache[0] in cache;
  }

  class ZoneLinks {
    const next: array<int>       // z_next of the zone whose header is in page p
    const heads: array<int>      // zone_array
    var free: int                // zone_free
    var kept: nat                // zone_free_cnt
    ghost var arr: seq<seq<nat>>
    ghost var cache: seq<nat>

    ghost predicate Valid()
      reads this, next, heads
    {
      && next != heads && Linked(next[..], heads[..], free, arr, cache) && Separate(arr, cache)
      && kept == |cache|
    }

    constructor (pages: nat, indices: nat)
      ensures Valid() && fresh(next) && fresh(heads) && next.Length == pages && heads.Length == indices
      ensures arr == seq(indices, _ => []) && cache == []
    {
      next, heads := new int[pages], new int[indices](_ => NULL);
      free, kept := NULL, 0;
      arr, cache := seq(indices, _ => []), [];
    }

    lemma Sizes()
      requires Valid()
      ensures heads.Length == |arr| && Chain(next[..], free, cache)
      ensures forall i :: 0 <= i < |arr| ==> Chain(next[..], heads[i], arr[i])
    {
      hide Chain, Separate;
    }

    /** The zone of page p in front of list zi */
    method Push(zi: nat, p: nat)
      requires Valid() && zi < |arr| && p < next.Length && Absent(arr, cache, p)
      modifies this`arr, next, heads
      ensures Valid() && arr == old(arr)[zi := [p] + old(arr)[zi]]
    {
      hide Linked, Separate, Absent;
      LinkedSizes(next[..], heads[..], free, arr, cache);
      PushLinked(next[..], heads[..], free, arr, cache, zi, p);
      PushSeparate(arr, cache, zi, p);
      next[p] := heads[zi];
      heads[zi] := p;
      arr := arr[zi := [p] + arr[zi]];
    }

    lemma LinkedSizes(n: seq<int>, h: seq<int>, f: int, a: seq<seq<nat>>, c: seq<nat>)
      requires Linked(n, h, f, a, c)
      ensures |h| == |a|
    {}

    /** The first zone of list zi */
    method First(zi: nat) returns (p: int)
      requires Valid() && zi < |arr|
      ensures p == NULL <==> arr[zi] == []
      ensures arr[zi] != [] ==> p == arr[zi][0]
    {
      Sizes();
      ChainNull(next[..], heads[zi], arr[zi]);
      p := heads[zi];
    }

    /** Whether list zi has other zones than the one of page p. */
    method Others(zi: nat, p: nat) returns (more: bool)
      requires Valid() && zi < |arr| && p in arr[zi]
      ensures more <==> |arr[zi]| > 1
    {
      hide Separate;
      Sizes();
      ghost var l := arr[zi];
      ChainAt(next[..], heads[zi], l, p);
      more := next[p] != NULL || heads[zi] != p;
    }

    lemma ChainAt(n: seq<int>, first: int, l: seq<nat>, p: nat)
      requires Chain(n, first, l) && p in l
      ensures p < |n| && (n[p] != NULL || first != p <==> |l| > 1)
    {
      var i :| 0 <= i < |l| && l[i] == p;
      assert n[l[i]] == After(l, i);
      assert n[l[0]] == After(l, 0);
    }

    /** The first zone leaves list zi. */
    method Pop(zi: nat)
      requires Valid() && zi < |arr| && arr[zi] != []
      modifies this`arr, next, heads
      ensures Valid() && arr == old(arr)[zi := old(arr)[zi][1..]]
    {
      hide Linked, Separate, Absent;
      LinkedSizes(next[..], heads[..], free, arr, cache);
      PopLinked(next[..], heads[..], free, arr, cache, zi);
      OneList(arr, cache, zi);
      FewerSeparate(arr, cache, zi, arr[zi][1..]);
      HeadAbsent(arr, cache, zi);
      var z := heads[zi];
      AbsentWritten(next[..], heads[..][zi := next[z]], free, arr[zi := arr[zi][1..]], cache, z);
      heads[zi] := next[z];
      next[z] := NULL;
      arr := arr[zi := arr[zi][1..]];
    }

    lemma OneList(a: seq<seq<nat>>, c: seq<nat>, zi: nat)
      requires Separate(a, c) && zi < |a|
      ensures NoDup(a[zi]) && (a[zi] != [] ==> NoDup(a[zi][1..]) && forall q :: q in a[zi][1..] ==> q in a[zi])
    {
      if a[zi] != [] { NoDupTail(a[zi]); }
      hide NoDup;
    }

    /** The walk along z_next that takes the zone of page p out of its list. */
    method TakeOut(zi: nat, p: nat)
      requires Valid() && zi < |arr| && p in arr[zi]
      modifies this`arr, next, heads
      ensures Valid() && arr == old(arr)[zi := Without(old(arr)[zi], p)] && Absent(arr, cache, p)
    {
      hide Chain, NoDup, Without, Separate, Linked;
      LinkedSizes(next[..], heads[..], free, arr, cache);
      OneList(arr, cache, zi);
      AbsentAfter(arr, cache, zi, p);
      WithoutKeeps(arr[zi], p);
      FewerSeparate(arr, cache, zi, Without(arr[zi], p));
      ghost var l, passed, ahead := arr[zi], [], arr[zi];
      var prev, cur := NULL, heads[zi];
      ListAt(next[..], heads[..], free, arr, cache, zi);
      while cur != p
        invariant l == passed + ahead && p in ahead && Chain(next[..], cur, ahead)
        invariant prev == Last(passed)
        invariant Valid() && arr == old(arr) && next[..] == old(next[..]) && heads[..] == old(heads[..])
        decreases |ahead|
      {
        ChainTail(next[..], cur, ahead);
        Onwards(passed, ahead, p);
        prev, cur := cur, next[cur];
        passed, ahead := passed + [ahead[0]], ahead[1..];
      }
      Found(next[..], cur, ahead, p);
      Split(l, passed, ahead, p);
      if prev == NULL {
        DropFirst(next[..], heads[..], free, arr, cache, zi, p, ahead[1..]);
        heads[zi] := next[p];
        assert heads[..] == old(heads[..])[zi := next[p]] && next[..] == old(next[..]);
        assert passed + ahead[1..] == ahead[1..];
      } else {
        LastAlone(arr, cache, zi, passed, p, ahead[1..]);
        Regroup(passed, p, ahead[1..]);
        DropLater(next[..], heads[..], free, arr, cache, zi, passed, prev, p, ahead[1..]);
        ghost var to := next[p];
        next[prev] := next[p];
        assert next[..] == old(next[..])[prev := to] && heads[..] == old(heads[..]);
      }
      arr := arr[zi := passed + ahead[1..]];
    }

    lemma ListAt(n: seq<int>, h: seq<int>, f: int, a: seq<seq<nat>>, c: seq<nat>, zi: nat)
      requires Linked(n, h, f, a, c) && zi < |a|
      ensures zi < |h| && Chain(n, h[zi], a[zi]) && [] + a[zi] == a[zi]
    {
      hide Chain;
    }

    lemma WithoutKeeps(l: seq<nat>, p: nat)
      requires NoDup(l)
      ensures NoDup(Without(l, p)) && forall q :: q in Without(l, p) ==> q in l
    {
      hide NoDup;
    }

    lemma Onwards(passed: seq<nat>, ahead: seq<nat>, p: nat)
      requires p in ahead
      ensures ahead != [] && (ahead[0] != p ==> p in ahead[1..])
      ensures passed + ahead == passed + [ahead[0]] + ahead[1..] && Last(passed + [ahead[0]]) == ahead[0]
    {}

    lemma Found(n: seq<int>, cur: int, ahead: seq<nat>, p: nat)
      requires Chain(n, cur, ahead) && p in ahead && cur == p
      ensures ahead[0] == p && p < |n| && Chain(n, n[p], ahead[1..])
    {
      ChainTail(n, cur, ahead);
    }

    lemma Regroup(passed: seq<nat>, p: nat, rest: seq<nat>)
      ensures passed + [p] + rest == passed + ([p] + rest)
    {}

    lemma Split(l: seq<nat>, passed: seq<nat>, ahead: seq<nat>, p: nat)
      requires l == passed + ahead && NoDup(l) && ahead != [] && ahead[0] == p
      ensures l == passed + [p] + ahead[1..] && Without(l, p) == passed + ahead[1..]
      ensures Last(passed) == NULL <==> passed == []
      ensures passed != [] ==> Last(passed) == passed[|passed| - 1]
    {
      var n := |passed|;
      assert l[n] == p;
      WithoutAt(l, n);
      assert l[..n] == passed && l[n + 1..] == ahead[1..];
    }

    /** A zone that is in no list goes to the cache. */
    method Keep(p: nat)
      requires Valid() && p < next.Length && Absent(arr, cache, p)
      modifies this`cache, this`free, this`kept, next
      ensures Valid() && cache == [p] + old(cache)
    {
      hide Linked, Separate, Absent;
      CachePushed(next[..], heads[..], free, arr, cache, p);
      next[p] := free;
      free, kept := p, kept + 1;
      cache := [p] + cache;
    }

    /** The first zone of the cache, if any */
    method Cached() returns (p: int)
      requires Valid()
      ensures p == NULL <==> cache == []
      ensures cache != [] ==> p == cache[0] && p < next.Length
    {
      Sizes();
      ChainNull(next[..], free, cache);
      p := free;
    }

    method Uncache()
      requires Valid() && cache != []
      modifies this`cache, this`free, this`kept
      ensures Valid() && cache == old(cache)[1..] && Absent(arr, cache, old(cache)[0])
    {
      hide Linked, Separate;
      CachePopped(next[..], heads[..], free, arr, cache);
      CacheAlone(arr, cache);
      free, kept := next[free], kept - 1;
      cache := cache[1..];
    }
  }
}
