/** The ready table of the scheduler in its two layouts: the lists by priority and the bitmaps that
    say which of them hold a thread (software/src/scheduler.c:37-49, 227-261, 310-384). */
module ReadyTable {
  import opened Base
  import opened Bitmap
  import opened Threads

  const NARROW: nat := 32     // up to here one level of bits is enough
  const LIMIT: nat := 256

  /** The fields number, number_mask and high_mask of a thread; without the second level only
      number_mask is there. */
  datatype Attr = Attr(number: nat, numberMask: bv32, highMask: bv8)

  /** The priority attribute of a thread of priority p when there are max priorities. */
  function AttrOf(max: nat, p: nat): Attr
    requires p < max <= LIMIT
  {
    if max > NARROW then Attr(p / 8, Mask(p / 8), ByteMask(p % 8)) else Attr(0, Mask(p), 0)
  }

  /** The simple search: p is the first priority whose list is not empty. */
  ghost predicate FirstReady(table: seq<seq<Tid>>, p: nat) {
    p < |table| && table[p] != [] && forall q :: 0 <= q < p ==> table[q] == []
  }

  ghost predicate Occupied(table: seq<seq<Tid>>, p: nat) {
    p < |table| && table[p] != []
  }

  // ---- Up to 32 priorities -------------------------------------------------------------------

  ghost predicate GroupAgrees(table: seq<seq<Tid>>, group: bv32) {
    |table| <= NARROW && forall p: nat :: p < 32 ==> (Has(group, p) <==> Occupied(table, p))
  }

  lemma CascadeIsFirst(table: seq<seq<Tid>>, group: bv32)
    requires GroupAgrees(table, group) && exists p :: 0 <= p < |table| && table[p] != []
    ensures FirstReady(table, Cascade(group))
  {
    hide Cascade, Has, Lowest;
    var p: nat :| p < |table| && table[p] != [];
    assert Occupied(table, p);
    NonZero(group, p);
    CascadeIsLowest(group);
    LowestBits(group, Cascade(group));
    assert Occupied(table, Cascade(group));
    forall q: nat | q < Cascade(group) ensures table[q] == [] {
      assert !Occupied(table, q);
    }
  }

  /** With 8 priorities the group itself is the index of the table. */
  lemma EightIsOneByte(table: seq<seq<Tid>>, group: bv32)
    requires GroupAgrees(table, group) && |table| == 8
    ensures group & 0xff == group
  {
    forall p: nat | 8 <= p < 32 ensures !Has(group, p) { assert !Occupied(table, p); }
    NoHighBits(group);
  }

  lemma NonZero(g: bv32, p: nat)
    requires p < 32 && Has(g, p)
    ensures g != 0
  {}

  lemma GroupInsert(table: seq<seq<Tid>>, group: bv32, p: nat, l: seq<Tid>)
    requires GroupAgrees(table, group) && p < |table| && l != []
    ensures GroupAgrees(table[p := l], With(group, p))
  {
    hide Has, With;
    forall q: nat | q < 32
      ensures Has(With(group, p), q) <==> Occupied(table[p := l], q) {
      SetBit(group, p, q);
      assert Has(group, q) <==> Occupied(table, q);
    }
  }

  lemma GroupRemove(table: seq<seq<Tid>>, group: bv32, p: nat)
    requires GroupAgrees(table, group) && p < |table|
    ensures GroupAgrees(table[p := []], Off(group, p))
  {
    hide Has, Off;
    forall q: nat | q < 32
      ensures Has(Off(group, p), q) <==> Occupied(table[p := []], q) {
      ClearBit(group, p, q);
      assert Has(group, q) <==> Occupied(table, q);
    }
  }

  lemma GroupSame(table: seq<seq<Tid>>, group: bv32, p: nat, l: seq<Tid>)
    requires GroupAgrees(table, group) && p < |table| && table[p] != [] && l != []
    ensures GroupAgrees(table[p := l], group)
  {
    hide Has;
    forall q: nat | q < 32 ensures Has(group, q) <==> Occupied(table[p := l], q) {
      assert Has(group, q) <==> Occupied(table, q);
    }
  }

  // ---- Up to 256 priorities ------------------------------------------------------------------

  ghost predicate BytesAgree(table: seq<seq<Tid>>, ready: seq<bv8>) {
    && |table| <= LIMIT && |ready| == 32
    && forall p: nat :: p < 256 ==> (HasB(ready[p / 8], p % 8) <==> Occupied(table, p))
  }

  ghost predicate WideAgrees(ready: seq<bv8>, group: bv32) {
    |ready| == 32 && forall n: nat :: n < 32 ==> (Has(group, n) <==> ready[n] != 0)
  }

  /** Group first, then the byte it names: the two lookups find the first non-empty list. */
  lemma WideIsFirst(table: seq<seq<Tid>>, ready: seq<bv8>, group: bv32)
    requires BytesAgree(table, ready) && WideAgrees(ready, group)
    requires exists p :: 0 <= p < |table| && table[p] != []
    ensures Cascade(group) < 32 && FirstReady(table, 8 * Cascade(group) + Lookup(ready[Cascade(group)]))
  {
    hide Cascade, Has, HasB, Lowest, LowestBit, LOWEST_BITMAP;
    var p: nat :| p < |table| && table[p] != [];
    assert Occupied(table, p);
    ByteNonZero(ready[p / 8], p % 8);
    NonZero(group, p / 8);
    CascadeIsLowest(group);
    var n := Cascade(group);
    LowestBits(group, n);
    TableIsLowest(ready[n]);
    var k := Lookup(ready[n]);
    LowestByteBits(ready[n], k);
    assert (8 * n + k) / 8 == n && (8 * n + k) % 8 == k;
    assert Occupied(table, 8 * n + k);
    forall q: nat | q < 8 * n + k ensures table[q] == [] {
      NothingBefore(table, ready, group, n, k, q);
    }
  }

  lemma NothingBefore(table: seq<seq<Tid>>, ready: seq<bv8>, group: bv32, n: nat, k: nat, q: nat)
    requires BytesAgree(table, ready) && WideAgrees(ready, group) && n < 32 && k < 8
    requires forall m: nat :: m < n ==> !Has(group, m)
    requires forall j: nat :: j < k ==> !HasB(ready[n], j)
    requires q < 8 * n + k
    ensures !Occupied(table, q)
  {
    hide Has, HasB;
    if q / 8 < n {
      if HasB(ready[q / 8], q % 8) { ByteNonZero(ready[q / 8], q % 8); }
    } else {
      assert q / 8 == n && q % 8 < k;
    }
  }

  lemma WideBytes(table: seq<seq<Tid>>, ready: seq<bv8>, p: nat, l: seq<Tid>, b: bv8)
    requires BytesAgree(table, ready) && p < |table|
    requires forall k: nat :: k < 8 && k != p % 8 ==> (HasB(b, k) <==> HasB(ready[p / 8], k))
    requires HasB(b, p % 8) <==> l != []
    ensures BytesAgree(table[p := l], ready[p / 8 := b])
  {
    hide HasB;
    var t', r' := table[p := l], ready[p / 8 := b];
    forall q: nat | q < 256 ensures HasB(r'[q / 8], q % 8) <==> Occupied(t', q) {
      assert HasB(ready[q / 8], q % 8) <==> Occupied(table, q);
      if q / 8 == p / 8 && q != p {
        assert q % 8 != p % 8;
      }
    }
  }

  lemma WideGroup(ready: seq<bv8>, group: bv32, n: nat, b: bv8)
    requires WideAgrees(ready, group) && n < 32
    ensures WideAgrees(ready[n := b], if b == 0 then Off(group, n) else With(group, n))
  {
    hide Has, With, Off;
    var g := if b == 0 then Off(group, n) else With(group, n);
    forall q: nat | q < 32 ensures Has(g, q) <==> ready[n := b][q] != 0 {
      SetBit(group, n, q);
      ClearBit(group, n, q);
    }
  }

  lemma SameBits(table: seq<seq<Tid>>, ready: seq<bv8>, p: nat, l: seq<Tid>)
    requires BytesAgree(table, ready) && p < |table| && table[p] != [] && l != []
    ensures BytesAgree(table[p := l], ready)
  {
    hide HasB;
    forall q: nat | q < 256 ensures HasB(ready[q / 8], q % 8) <==> Occupied(table[p := l], q) {
      assert HasB(ready[q / 8], q % 8) <==> Occupied(table, q);
    }
  }

  /** While list p holds a thread, its group bit is set. */
  lemma ListBit(table: seq<seq<Tid>>, ready: seq<bv8>, group: bv32, p: nat)
    requires BytesAgree(table, ready) && WideAgrees(ready, group) && p < |table| && table[p] != []
    ensures With(group, p / 8) == group
  {
    hide HasB, Has, With;
    assert Occupied(table, p);
    ByteNonZero(ready[p / 8], p % 8);
    SetAgain(group, p / 8);
  }

  lemma SetBytes(b: bv8, k: nat)
    requires k < 8
    ensures HasB(WithB(b, k), k) && WithB(b, k) != 0
    ensures forall j: nat :: j < 8 && j != k ==> (HasB(WithB(b, k), j) <==> HasB(b, j))
  {
    hide HasB, WithB;
    SetByteBit(b, k, k);
    ByteNonZero(WithB(b, k), k);
    forall j: nat | j < 8 && j != k
      ensures HasB(WithB(b, k), j) <==> HasB(b, j) { SetByteBit(b, k, j); }
  }

  lemma ClearBytes(b: bv8, k: nat)
    requires k < 8
    ensures !HasB(OffB(b, k), k)
    ensures forall j: nat :: j < 8 && j != k ==> (HasB(OffB(b, k), j) <==> HasB(b, j))
  {
    hide HasB, OffB;
    ClearByteBit(b, k, k);
    forall j: nat | j < 8 && j != k
      ensures HasB(OffB(b, k), j) <==> HasB(b, j) { ClearByteBit(b, k, j); }
  }

  // ---- Both layouts --------------------------------------------------------------------------

  /** The bits say which lists hold a thread. */
  ghost predicate BitsAgree(max: nat, table: seq<seq<Tid>>, ready: seq<bv8>, group: bv32) {
    && 0 < max <= LIMIT && |table| == max && |ready| == 32
    && if max > NARROW then BytesAgree(table, ready) && WideAgrees(ready, group) else GroupAgrees(table, group)
  }

  lemma BitSizes(max: nat, table: seq<seq<Tid>>, ready: seq<bv8>, group: bv32)
    requires BitsAgree(max, table, ready, group)
    ensures 0 < max <= LIMIT && |table| == max && |ready| == 32
  {}

  /** Setting the bits of priority p. */
  lemma BitsInsert(max: nat, table: seq<seq<Tid>>, ready: seq<bv8>, group: bv32, p: nat, l: seq<Tid>)
    requires BitsAgree(max, table, ready, group) && p < max && l != []
    ensures var a := AttrOf(max, p);
      if max > NARROW then
        a.number < 32 && BitsAgree(max, table[p := l], ready[a.number := JoinedB(ready[a.number], a.highMask)], Joined(group, a.numberMask))
      else BitsAgree(max, table[p := l], ready, Joined(group, a.numberMask))
  {
    hide Joined, JoinedB, Cleared, ClearedB, HasB, Has, Mask, ByteMask, BytesAgree, WideAgrees, GroupAgrees;
    if max > NARROW {
      var b := WithB(ready[p / 8], p % 8);
      SetBytes(ready[p / 8], p % 8);
      WideBytes(table, ready, p, l, b);
      WideGroup(ready, group, p / 8, b);
    } else {
      GroupInsert(table, group, p, l);
    }
  }

  /** Clearing the bits of priority p, whose list has become empty. */
  lemma BitsRemove(max: nat, table: seq<seq<Tid>>, ready: seq<bv8>, group: bv32, p: nat)
    requires BitsAgree(max, table, ready, group) && p < max && table[p] != []
    ensures var a := AttrOf(max, p);
      if max > NARROW then
        && a.number < 32
        && var b := ClearedB(ready[a.number], a.highMask);
           BitsAgree(max, table[p := []], ready[a.number := b], if b == 0 then Cleared(group, a.numberMask) else group)
      else BitsAgree(max, table[p := []], ready, Cleared(group, a.numberMask))
  {
    hide Joined, JoinedB, Cleared, ClearedB, HasB, Has, Mask, ByteMask, BytesAgree, WideAgrees, GroupAgrees, With;
    if max > NARROW {
      var b := OffB(ready[p / 8], p % 8);
      ClearBytes(ready[p / 8], p % 8);
      WideBytes(table, ready, p, [], b);
      WideGroup(ready, group, p / 8, b);
      ListBit(table, ready, group, p);
    } else {
      GroupRemove(table, group, p);
    }
  }

  /** As long as the list of p is not empty its bits stay as they are. */
  lemma BitsSame(max: nat, table: seq<seq<Tid>>, ready: seq<bv8>, group: bv32, p: nat, l: seq<Tid>)
    requires BitsAgree(max, table, ready, group) && p < max && table[p] != [] && l != []
    ensures BitsAgree(max, table[p := l], ready, group)
  {
    hide BytesAgree, WideAgrees, GroupAgrees;
    if max > NARROW {
      SameBits(table, ready, p, l);
    } else {
      GroupSame(table, group, p, l);
    }
  }

  lemma BitsEmpty(max: nat, table: seq<seq<Tid>>, ready: seq<bv8>)
    requires 0 < max <= LIMIT && |table| == max && |ready| == 32
    requires (forall p :: 0 <= p < max ==> table[p] == []) && (forall n :: 0 <= n < 32 ==> ready[n] == 0)
    ensures BitsAgree(max, table, ready, 0)
  {
    hide Has, HasB;
    forall p: nat | p < 32 ensures !Has(0, p) { ZeroHasNone(p); }
    forall p: nat | p < 256 ensures !HasB(ready[p / 8], p % 8) {
      if HasB(ready[p / 8], p % 8) { ByteNonZero(ready[p / 8], p % 8); }
    }
  }

  /** RT_THREAD_PRIORITY_MAX is `max`. The bytes of `ready` are there only for more than 32
      priorities. */
  class ReadyTable {
    const max: nat
    var table: seq<seq<Tid>>   // rt_thread_priority_table
    var group: bv32            // rt_thread_ready_priority_group
    var ready: seq<bv8>        // rt_thread_ready_table

    ghost predicate Valid()
      reads this
    {
      BitsAgree(max, table, ready, group)
    }

    /** rt_system_scheduler_init */
    constructor (priorities: nat)
      requires 0 < priorities <= LIMIT
      ensures Valid() && max == priorities && table == seq(max, _ => [])
    {
      max := priorities;
      table := seq(priorities, _ => []);
      ready := seq(32, _ => 0);
      group := 0;
      new;
      BitsEmpty(max, table, ready);
    }

    /** rt_schedule_insert_thread, with the attribute the thread carries */
    method Insert(t: Tid, p: nat, a: Attr)
      requires Valid() && p < max && a == AttrOf(max, p)
      modifies this
      ensures Valid() && table == old(table)[p := old(table)[p] + [t]]
    {
      hide BitsAgree, AttrOf, Joined, JoinedB, Cleared, ClearedB;
      BitSizes(max, table, ready, group);
      BitsInsert(max, table, ready, group, p, table[p] + [t]);
      table := table[p := table[p] + [t]];
      if max > NARROW {
        ready := ready[a.number := JoinedB(ready[a.number], a.highMask)];
      }
      group := Joined(group, a.numberMask);
    }

    /** rt_schedule_remove_thread, with the attribute the thread carries */
    method Remove(t: Tid, p: nat, a: Attr)
      requires Valid() && p < max && a == AttrOf(max, p) && t in table[p]
      modifies this
      ensures Valid() && table == old(table)[p := Without(old(table)[p], t)]
    {
      assert table[p] != [];
      hide BitsAgree, AttrOf, Joined, JoinedB, Cleared, ClearedB;
      BitSizes(max, table, ready, group);
      var l := Without(table[p], t);
      if l != [] {
        BitsSame(max, table, ready, group, p, l);
      } else {
        BitsRemove(max, table, ready, group, p);
        if max > NARROW {
          ready := ready[a.number := ClearedB(ready[a.number], a.highMask)];
          if ready[a.number] == 0 {
            group := Cleared(group, a.numberMask);
          }
        } else {
          group := Cleared(group, a.numberMask);
        }
      }
      table := table[p := l];
    }

    /** The list moves of rt_thread_yield; the bits need no change. */
    method Rotate(t: Tid, p: nat)
      requires Valid() && p < max && t in table[p]
      modifies this`table
      ensures Valid() && table == old(table)[p := Without(old(table)[p], t) + [t]]
    {
      hide BitsAgree;
      BitSizes(max, table, ready, group);
      BitsSame(max, table, ready, group, p, Without(table[p], t) + [t]);
      table := table[p := Without(table[p], t) + [t]];
    }

    /** The search of rt_schedule and the thread it switches to. */
    method Pick() returns (number: nat, t: Tid)
      requires Valid() && exists p :: 0 <= p < |table| && table[p] != []
      ensures FirstReady(table, number) && t == table[number][0]
    {
      hide Lookup, Byte0, Byte1, Byte2, Byte3, Has, HasB, WideAgrees, BytesAgree, GroupAgrees;
      if max > NARROW {
        WideIsFirst(table, ready, group);
      } else {
        CascadeIsFirst(table, group);
      }
      if max == 8 {
        EightIsOneByte(table, group);
        OneByte(group);
        number := Lookup(Byte0(group));
      } else {
        if group & 0xff != 0 {
          number := Lookup(Byte0(group));
        } else if group & 0xff00 != 0 {
          number := Lookup(Byte1(group)) + 8;
        } else if group & 0xff0000 != 0 {
          number := Lookup(Byte2(group)) + 16;
        } else {
          number := Lookup(Byte3(group)) + 24;
        }
        if max > NARROW {
          number := 8 * number + Lookup(ready[number]);
        }
      }
      t := table[number][0];
    }
  }

  /** A group that is its own lowest byte, and not empty, needs no cascade. */
  lemma OneByte(group: bv32)
    requires group & 0xff == group
    ensures group != 0 ==> Cascade(group) == Lookup(Byte0(group))
  {
    hide Lookup, Byte0, Byte1, Byte2, Byte3;
  }
}
