/** The circular doubly linked list under all kernel queues (software/src/kservice.h:36-90). Its
    operations are the `Insert` and `Without` with which the other modules describe their lists. */
module IntrusiveList {
  import opened Base

  function Succ(i: nat, n: nat): nat {
    if i + 1 == n then 0 else i + 1
  }

  function Pred(i: nat, n: nat): int {
    if i == 0 then n - 1 else i - 1
  }

  /** The links lead through r and back to its first node, in both directions. */
  ghost predicate Ring(r: seq<ListNode>)
    reads r
  {
    r != [] && NoDup(r) && forall i :: 0 <= i < |r| ==> LinkedAt(r, i)
  }

  ghost predicate LinkedAt(r: seq<ListNode>, i: nat)
    requires i < |r|
    reads r
  {
    r[i].next == r[Succ(i, |r|)] && r[i].prev == r[Pred(i, |r|)]
  }

  lemma OnlyPlace(r: seq<ListNode>, i: nat)
    requires NoDup(r) && i < |r|
    ensures forall j :: 0 <= j < |r| && j != i ==> r[j] != r[i]
  {}

  /** Node j of the longer ring and its neighbours. */
  lemma InsertedNodes(r: seq<ListNode>, at: nat, n: ListNode, j: nat)
    requires 1 <= at <= |r| && j <= |r|
    ensures |Insert(r, at, n)| == |r| + 1
    ensures var s, r', o := if at == |r| then 0 else at, Insert(r, at, n), if j < at then j else j - 1;
      if j == at then r'[j] == n && r'[Succ(j, |r'|)] == r[s] && r'[Pred(j, |r'|)] == r[at - 1]
      else
        && r'[j] == r[o]
        && r'[Succ(j, |r'|)] == (if o == at - 1 then n else r[Succ(o, |r|)])
        && r'[Pred(j, |r'|)] == (if o == s then n else r[Pred(o, |r|)])
  {}

  lemma SourceNeighbours(m: nat, i: nat, j: nat)
    requires i < m && j < m - 1
    ensures var o := Source(i, j);
      && Source(i, Succ(j, m - 1)) == (if Succ(o, m) == i then Succ(i, m) else Succ(o, m))
      && Source(i, Pred(j, m - 1)) == (if Pred(o, m) == i then Pred(i, m) else Pred(o, m))
  {}

  /** Node j of the shorter ring and its neighbours. */
  lemma RemovedNodes(r: seq<ListNode>, i: nat, j: nat)
    requires NoDup(r) && i < |r| && j < |r| - 1
    ensures |Without(r, r[i])| == |r| - 1
    ensures var r', o := Without(r, r[i]), Source(i, j);
      && r'[j] == r[o]
      && r'[Succ(j, |r'|)] == (if Succ(o, |r|) == i then r[Succ(i, |r|)] else r[Succ(o, |r|)])
      && r'[Pred(j, |r'|)] == (if Pred(o, |r|) == i then r[Pred(i, |r|)] else r[Pred(o, |r|)])
  {
    hide Without, NoDup, Source;
    SourceNeighbours(|r|, i, j);
    RemovedAt(r, i, j);
    RemovedAt(r, i, Succ(j, |r| - 1));
    RemovedAt(r, i, Pred(j, |r| - 1));
  }

  /** A list l behind its head h: what the other modules do to l is done to the ring. */
  lemma BehindHead(h: ListNode, l: seq<ListNode>, k: nat, n: ListNode)
    requires k <= |l| && n != h
    ensures Insert([h] + l, k + 1, n) == [h] + Insert(l, k, n)
    ensures Without([h] + l, n) == [h] + Without(l, n)
  {
    assert ([h] + l)[1..] == l;
    assert Without([h] + l, n) == [h] + Without(l, n);
    hide Without;
    assert ([h] + l)[..k + 1] == [h] + l[..k] && ([h] + l)[k + 1..] == l[k..];
    assert [h] + l[..k] + [n] + l[k..] == [h] + (l[..k] + [n] + l[k..]);
  }

  /** Removing what was inserted gives back every link. */
  twostate lemma InsertRemove(r: seq<ListNode>, i: nat, n: ListNode)
    requires old(Ring(r)) && n !in r && i <= |r|
    requires Ring(Without(Insert(r, i, n), n))
    ensures Ring(r) && forall x :: x in r ==> x.next == old(x.next) && x.prev == old(x.prev)
  {
    InsertNoDup(r, i, n);
    InsertAt(r, i, n, i);
    WithoutAt(Insert(r, i, n), i);
    assert Without(Insert(r, i, n), n) == r;
    hide NoDup, Without, Insert;
    forall x | x in r ensures x.next == old(x.next) && x.prev == old(x.prev) {
      var j :| 0 <= j < |r| && r[j] == x;
      assert LinkedAt(r, j) && old(LinkedAt(r, j));
    }
  }

  class ListNode {
    var next: ListNode
    var prev: ListNode

    /** rt_list_init */
    constructor ()
      ensures Ring([this]) && next == this && prev == this
    {
      next, prev := this, this;
    }

    /** rt_list_insert_after: n follows this node, which stands at place i of the ring. */
    method InsertAfter(n: ListNode, ghost r: seq<ListNode>, ghost i: nat)
      requires Ring(r) && i < |r| && r[i] == this && n !in r
      modifies r, n
      ensures Ring(Insert(r, i + 1, n))
    {
      ghost var s, at: nat := Succ(i, |r|), i + 1;
      assert LinkedAt(r, i);
      OnlyPlace(r, i);
      OnlyPlace(r, s);
      InsertNoDup(r, at, n);
      hide NoDup, Insert;
      next.prev := n;
      n.next := next;
      next := n;
      n.prev := this;
      ghost var r' := Insert(r, at, n);
      InsertedNodes(r, at, n, 0);
      forall j | 0 <= j < |r'|
        ensures LinkedAt(r', j)
      {
        InsertedNodes(r, at, n, j);
        if j < at {
          assert old(LinkedAt(r, j));
        } else if j > at {
          assert old(LinkedAt(r, j - 1));
        }
      }
    }

    /** rt_list_insert_before: n precedes this node; in front of the head is the end of the list. */
    method InsertBefore(n: ListNode, ghost r: seq<ListNode>, ghost i: nat)
      requires Ring(r) && i < |r| && r[i] == this && n !in r
      modifies r, n
      ensures Ring(Insert(r, if i == 0 then |r| else i, n))
    {
      ghost var p, at: nat := Pred(i, |r|), if i == 0 then |r| else i;
      assert LinkedAt(r, i);
      OnlyPlace(r, i);
      OnlyPlace(r, p);
      InsertNoDup(r, at, n);
      hide NoDup, Insert;
      prev.next := n;
      n.prev := prev;
      prev := n;
      n.next := this;
      ghost var r' := Insert(r, at, n);
      InsertedNodes(r, at, n, 0);
      forall j | 0 <= j < |r'|
        ensures LinkedAt(r', j)
      {
        InsertedNodes(r, at, n, j);
        assert old(j != at ==> LinkedAt(r, if j < at then j else j - 1));
      }
    }

    /** rt_list_remove: the others close up, and this node becomes a ring of its own. */
    method Remove(ghost r: seq<ListNode>, ghost i: nat)
      requires Ring(r) && i < |r| && r[i] == this
      modifies r
      ensures Ring([this]) && (|r| > 1 ==> Ring(Without(r, this)))
    {
      ghost var s, p := Succ(i, |r|), Pred(i, |r|);
      assert LinkedAt(r, i);
      OnlyPlace(r, i);
      OnlyPlace(r, s);
      OnlyPlace(r, p);
      assert NoDup([this]);
      assert NoDup(Without(r, this));
      hide NoDup, Without;
      next.prev := prev;
      prev.next := next;
      next := this;
      prev := this;
      if |r| > 1 {
        ghost var r' := Without(r, this);
        RemovedNodes(r, i, 0);
        forall j | 0 <= j < |r'|
          ensures LinkedAt(r', j)
        {
          RemovedNodes(r, i, j);
          assert old(LinkedAt(r, if j < i then j else j + 1));
        }
      }
    }

    /** rt_list_isempty on the head of a list */
    method IsEmpty(ghost r: seq<ListNode>) returns (empty: bool)
      requires Ring(r) && r[0] == this
      ensures empty <==> |r| == 1
    {
      assert LinkedAt(r, 0);
      empty := next == this;
    }

    /** The loop all kernel code walks a list with, from the node behind the head until it is back
        at the head: it meets the nodes of the list in order. */
    method Walk(ghost r: seq<ListNode>) returns (seen: seq<ListNode>)
      requires Ring(r) && r[0] == this
      ensures seen == r[1..]
    {
      seen := [];
      var n := next;
      assert LinkedAt(r, 0);
      while n != this
        invariant |seen| < |r| && seen == r[1..|seen| + 1]
        invariant n == r[Succ(|seen|, |r|)]
        decreases |r| - |seen|
      {
        assert n == r[|seen| + 1] && LinkedAt(r, |seen| + 1);
        seen := seen + [n];
        n := n.next;
      }
    }
  }
}
