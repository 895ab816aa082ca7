/** A wait list as the ring it is in memory: a list head and the tlist nodes of the waiting threads
    (software/src/ipc.c:82-144, software/src/kservice.h:36-90). Its operations do to the sequence of
    threads what the thread model does to its wait lists. */
module ThreadRings {
  import opened Base
  import opened Threads
  import opened ThreadLemmas
  import opened IntrusiveList

  /** The nodes of the threads of l. */
  ghost function NodesOf(tlist: map<Tid, ListNode>, l: seq<Tid>): (r: seq<ListNode>)
    requires forall t :: t in l ==> t in tlist
    ensures |r| == |l| && forall i :: 0 <= i < |l| ==> r[i] == tlist[l[i]]
  {
    seq(|l|, i requires 0 <= i < |l| => tlist[l[i]])
  }

  /** rt_list_entry leads from the node of each thread back to the thread. */
  ghost predicate Entries(head: ListNode, tlist: map<Tid, ListNode>, owner: map<ListNode, Tid>) {
    head !in owner && forall t :: t in tlist ==> tlist[t] in owner && owner[tlist[t]] == t
  }

  lemma RingInsert(head: ListNode, tlist: map<Tid, ListNode>, l: seq<Tid>, k: nat, t: Tid)
    requires (forall u :: u in l ==> u in tlist) && t in tlist && k <= |l|
    ensures forall u :: u in Insert(l, k, t) ==> u in tlist
    ensures [head] + NodesOf(tlist, Insert(l, k, t)) == Insert([head] + NodesOf(tlist, l), k + 1, tlist[t])
  {
    InsertMembers(l, k, t);
    var a, b := [head] + NodesOf(tlist, Insert(l, k, t)), Insert([head] + NodesOf(tlist, l), k + 1, tlist[t]);
    hide Insert;
    InsertAt(l, k, t, 0);
    InsertAt([head] + NodesOf(tlist, l), k + 1, tlist[t], 0);
    forall i | 0 <= i < |a| ensures a[i] == b[i] {
      InsertAt([head] + NodesOf(tlist, l), k + 1, tlist[t], i);
      if i > 0 { InsertAt(l, k, t, i - 1); }
    }
  }

  lemma {:induction false} NodesWithout(head: ListNode, tlist: map<Tid, ListNode>, owner: map<ListNode, Tid>,
                                        l: seq<Tid>, t: Tid)
    requires Entries(head, tlist, owner) && (forall u :: u in l ==> u in tlist) && t in tlist
    ensures NodesOf(tlist, Without(l, t)) == Without(NodesOf(tlist, l), tlist[t])
    decreases |l|
  {
    if l != [] {
      var rest := l[1..];
      assert l[0] in l && forall u :: u in rest ==> u in l;
      assert NodesOf(tlist, l)[1..] == NodesOf(tlist, rest);
      if l[0] != t {
        assert owner[tlist[l[0]]] != owner[tlist[t]];
        NodesWithout(head, tlist, owner, rest, t);
        NodesCons(tlist, l[0], Without(rest, t));
      }
    }
  }

  lemma NodesCons(tlist: map<Tid, ListNode>, t: Tid, l: seq<Tid>)
    requires t in tlist && forall u :: u in l ==> u in tlist
    ensures NodesOf(tlist, [t] + l) == [tlist[t]] + NodesOf(tlist, l)
  {}

  lemma RingWithout(head: ListNode, tlist: map<Tid, ListNode>, owner: map<ListNode, Tid>, l: seq<Tid>, t: Tid)
    requires Entries(head, tlist, owner) && (forall u :: u in l ==> u in tlist) && t in tlist
    ensures [head] + NodesOf(tlist, Without(l, t)) == Without([head] + NodesOf(tlist, l), tlist[t])
  {
    NodesWithout(head, tlist, owner, l, t);
    hide NodesOf, Without;
    BehindHead(head, NodesOf(tlist, l), 0, tlist[t]);
  }

  /** Threads in a ring once each are nodes in it once each. */
  lemma NodesApart(head: ListNode, tlist: map<Tid, ListNode>, owner: map<ListNode, Tid>, l: seq<Tid>, t: Tid)
    requires Entries(head, tlist, owner) && (forall u :: u in l ==> u in tlist) && t in tlist && t !in l
    ensures tlist[t] !in [head] + NodesOf(tlist, l) && tlist[t] != head
  {
    forall i | 0 <= i < |l| ensures tlist[l[i]] != tlist[t] {
      assert l[i] in l && owner[tlist[l[i]]] == l[i];
    }
  }

  lemma PlaceFound(tcb: map<Tid, Tcb>, l: seq<Tid>, p: nat, n: nat)
    requires n == |l| || (n < |l| && l[n] in tcb && p < tcb[l[n]].prio)
    requires n + PrioPosition(tcb, l[n..], p) == PrioPosition(tcb, l, p)
    ensures n == PrioPosition(tcb, l, p)
  {}

  class ThreadRing {
    const head: ListNode
    const tlist: map<Tid, ListNode>
    const owner: map<ListNode, Tid>
    ghost var threads: seq<Tid>

    ghost function Nodes(): set<ListNode> {
      {head} + set t | t in tlist :: tlist[t]
    }

    ghost predicate Valid()
      reads this, Nodes()
    {
      && Entries(head, tlist, owner) && NoDup(threads) && (forall t :: t in threads ==> t in tlist)
      && (forall n :: n in [head] + NodesOf(tlist, threads) ==> n in Nodes())
      && Ring([head] + NodesOf(tlist, threads))
    }

    /** An empty list for threads whose nodes are given. */
    constructor (nodes: map<Tid, ListNode>, back: map<ListNode, Tid>)
      requires forall t :: t in nodes ==> nodes[t] in back && back[nodes[t]] == t
      ensures Valid() && threads == [] && tlist == nodes && fresh(head)
    {
      head := new ListNode();
      tlist, owner, threads := nodes, back, [];
      new;
      assert [head] + NodesOf(tlist, []) == [head];
    }

    /** The node of t goes in front of node `at`, which stands at place k of the ring. */
    method LinkBefore(at: ListNode, t: Tid, ghost k: nat)
      requires Valid() && t in tlist && t !in threads && k <= |threads|
      requires at == ([head] + NodesOf(tlist, threads))[if k == |threads| then 0 else k + 1]
      modifies this, Nodes()
      ensures Valid() && threads == Insert(old(threads), k, t)
    {
      ghost var r, i := [head] + NodesOf(tlist, threads), if k == |threads| then 0 else k + 1;
      hide NoDup, Insert, Entries, NodesOf;
      NodesApart(head, tlist, owner, threads, t);
      RingInsert(head, tlist, threads, k, t);
      InsertNoDup(threads, k, t);
      at.InsertBefore(tlist[t], r, i);
      threads := Insert(threads, k, t);
      assert Ring([head] + NodesOf(tlist, threads));
    }

    /** rt_ipc_list_suspend on the list of waiting threads */
    method Suspend(t: Tid, tcb: map<Tid, Tcb>, flag: Flag)
      requires Valid() && t in tlist && t !in threads && t in tcb && forall u :: u in threads ==> u in tcb
      modifies this, Nodes()
      ensures Valid()
      ensures threads == Insert(old(threads), if flag == FIFO then |old(threads)|
                                              else PrioPosition(tcb, old(threads), tcb[t].prio), t)
    {
      if flag == FIFO {
        LinkBefore(head, t, |threads|);
        return;
      }
      var n, k := PrioNode(tcb[t].prio, tcb);
      LinkBefore(n, t, k);
    }

    /** The loop of rt_ipc_list_suspend: the node of the first waiter of a lower priority, or the head. */
    method PrioNode(p: nat, tcb: map<Tid, Tcb>) returns (n: ListNode, ghost k: nat)
      requires Valid() && forall u :: u in threads ==> u in tcb
      ensures k == PrioPosition(tcb, threads, p)
      ensures n == ([head] + NodesOf(tlist, threads))[if k == |threads| then 0 else k + 1]
    {
      ghost var l, r := threads, [head] + NodesOf(tlist, threads);
      hide NoDup, NodesOf, Entries, Ring, PrioPosition;
      n, k := head.next, 0;
      Behind(0);
      assert l[0..] == l;
      while n != head
        invariant k <= |l| && n == r[if k == |l| then 0 else k + 1]
        invariant k + PrioPosition(tcb, l[k..], p) == PrioPosition(tcb, l, p)
        decreases |l| - k
      {
        Entry(k);
        var u := owner[n];
        if p < tcb[u].prio {
          PlaceFound(tcb, l, p, k);
          return;
        }
        PositionStep(tcb, l, p, k);
        Behind(k + 1);
        n := n.next;
        k := k + 1;
      }
      if k < |l| { Entry(k); }
      PlaceFound(tcb, l, p, k);
    }

    /** The node behind place k of the ring. */
    lemma Behind(k: nat)
      requires Valid() && k <= |threads|
      ensures var r := [head] + NodesOf(tlist, threads); r[k].next == r[if k == |threads| then 0 else k + 1]
    {
      assert LinkedAt([head] + NodesOf(tlist, threads), k);
    }

    /** What rt_list_entry finds for a node that is not the head. */
    lemma Entry(k: nat)
      requires Valid() && k < |threads|
      ensures var n := ([head] + NodesOf(tlist, threads))[k + 1]; n in owner && owner[n] == threads[k] && n != head
      ensures threads[k] in threads
    {
      assert threads[k] in threads;
    }

    /** The first waiting thread, if any. */
    method First() returns (t: Option<Tid>)
      requires Valid()
      ensures t == if threads == [] then None else Some(threads[0])
    {
      ghost var r := [head] + NodesOf(tlist, threads);
      assert LinkedAt(r, 0);
      var empty := head.IsEmpty(r);
      if empty {
        return None;
      }
      assert r[1] == tlist[threads[0]] && threads[0] in threads;
      return Some(owner[head.next]);
    }

    /** rt_list_remove on the node of a thread that waits, as rt_thread_resume and rt_thread_timeout do */
    method Unlink(t: Tid, ghost k: nat)
      requires Valid() && k < |threads| && threads[k] == t
      modifies this, Nodes()
      ensures Valid() && threads == Without(old(threads), t)
    {
      ghost var r := [head] + NodesOf(tlist, threads);
      assert t in threads && r[k + 1] == tlist[t];
      RingWithout(head, tlist, owner, threads, t);
      hide NoDup, Without, Entries, NodesOf;
      tlist[t].Remove(r, k + 1);
      threads := Without(threads, t);
      assert Ring([head] + NodesOf(tlist, threads));
    }
  }
}
