/** The linked nodes of a message queue, updated in place: each node has a link and room for one
    message (software/src/ipc.c:1660-1672, 1827-1863, 1931-1943, 2061-2083, 2117-2131). */
module NodePool {
  import opened Base
  import opened Chains
  import opened Threads
  import opened MessageQueueSpec
  import opened MessageQueueLemmas

  /** The links agree with the two lists, and a node filled for the end of the queue has none. */
  ghost predicate LinksOk(next: seq<int>, head: int, tail: int, first: int, n: Nodes) {
    && |next| == |n.pool| && Chain(next, head, n.queue) && Chain(next, first, n.free)
    && tail == Last(n.queue)
    && (forall a :: a in n.held && n.held[a].Filled? && !n.held[a].urgent ==>
          n.held[a].node < |next| && next[n.held[a].node] == NULL)
  }

  lemma LinksClaim(next: seq<int>, head: int, tail: int, first: int, n: Nodes, a: Tid, msg: Bytes, urgent: bool)
    requires LinksOk(next, head, tail, first, n) && n.free != []
    ensures 0 <= first < |next| && first == n.free[0]
    ensures LinksOk(next, head, tail, next[first], ClaimNode(n, a, msg, urgent))
  {
    ChainTail(next, first, n.free);
    hide Chain;
  }

  lemma LinksFill(next: seq<int>, head: int, tail: int, first: int, n: Nodes, a: Tid)
    requires LinksOk(next, head, tail, first, n) && a in n.held && n.held[a].Claimed?
    requires Owned(|n.pool|, n.free, n.queue, n.held)
    requires n.held[a].node < |n.pool| && |n.held[a].msg| <= |n.pool[n.held[a].node]|
    ensures n.held[a].urgent ==> LinksOk(next, head, tail, first, FillNode(n, a))
    ensures LinksOk(next[n.held[a].node := NULL], head, tail, first, FillNode(n, a))
  {
    hide Chain, Owned, Overwrite, NoDup;
    OthersElsewhere(|n.pool|, n.free, n.queue, n.held, a);
    ChainOther(next, head, n.queue, n.held[a].node, NULL);
    ChainOther(next, first, n.free, n.held[a].node, NULL);
  }

  lemma LinksBack(next: seq<int>, head: int, tail: int, first: int, n: Nodes, a: Tid)
    requires LinksOk(next, head, tail, first, n) && a in n.held && n.held[a].Filled? && !n.held[a].urgent
    requires Owned(|n.pool|, n.free, n.queue, n.held)
    ensures var x := n.held[a].node; var n' := LinkNode(n, a);
      && (n.queue == [] ==> tail == NULL && head == NULL && LinksOk(next, x, x, first, n'))
      && (n.queue != [] ==> 0 <= tail < |next| && head != NULL && LinksOk(next[tail := x], head, x, first, n'))
  {
    var x := n.held[a].node;
    OthersElsewhere(|n.pool|, n.free, n.queue, n.held, a);
    if n.queue != [] {
      ChainAppend(next, head, n.queue, x);
      assert n.queue[|n.queue| - 1] in n.queue;
      LastElsewhere(|n.pool|, n.free, n.queue, n.held);
      ChainOther(next, first, n.free, n.queue[|n.queue| - 1], x);
      assert head == n.queue[0];
      hide Chain, Owned, NoDup;
    } else {
      assert Chain(next, x, [x]);
      hide Chain, Owned, NoDup;
      assert n.queue + [x] == [x];
    }
  }

  lemma LastElsewhere(k: nat, free: seq<nat>, queue: seq<nat>, held: map<Tid, Phase>)
    requires Owned(k, free, queue, held) && queue != []
    ensures queue[|queue| - 1] !in free
    ensures forall a :: a in held ==> held[a].node != queue[|queue| - 1]
  {
    hide NoDup, HeldBySome;
    assert queue[|queue| - 1] in queue;
  }

  lemma LinksFront(next: seq<int>, head: int, tail: int, first: int, n: Nodes, a: Tid)
    requires LinksOk(next, head, tail, first, n) && a in n.held && n.held[a].Filled? && n.held[a].urgent
    requires Owned(|n.pool|, n.free, n.queue, n.held)
    ensures var x := n.held[a].node; var n' := LinkNode(n, a);
      && x < |next| && (tail == NULL <==> n.queue == [])
      && LinksOk(next[x := head], x, if tail == NULL then x else tail, first, n')
  {
    var x := n.held[a].node;
    assert n.queue != [] ==> Last(n.queue) == n.queue[|n.queue| - 1];
    hide Owned, NoDup;
    OthersElsewhere(|n.pool|, n.free, n.queue, n.held, a);
    ChainPush(next, head, n.queue, x);
    ChainOther(next, first, n.free, x, head);
    hide Chain;
    assert Last([x] + n.queue) == if n.queue == [] then x else Last(n.queue);
  }

  lemma LinksUnlink(next: seq<int>, head: int, tail: int, first: int, n: Nodes, a: Tid, size: nat)
    requires LinksOk(next, head, tail, first, n) && n.queue != []
    requires Owned(|n.pool|, n.free, n.queue, n.held)
    ensures head == n.queue[0] && 0 <= head < |next|
    ensures LinksOk(next, next[head], if tail == head then NULL else tail, first, UnlinkNode(n, a, size))
  {
    ChainTail(next, head, n.queue);
    TailIsHead(n.queue) by { assert NoDup(n.queue); }
    hide Chain, Owned, NoDup;
  }

  lemma TailIsHead(l: seq<nat>)
    requires NoDup(l) && l != []
    ensures Last(l) == l[0] <==> |l| == 1
    ensures Last(l[1..]) == if Last(l) == l[0] then NULL else Last(l)
  {}

  lemma LinksRelease(next: seq<int>, head: int, tail: int, first: int, n: Nodes, a: Tid)
    requires LinksOk(next, head, tail, first, n) && a in n.held
    requires Owned(|n.pool|, n.free, n.queue, n.held)
    ensures var x := n.held[a].node; x < |next| && LinksOk(next[x := first], head, tail, x, ReleaseNode(n, a))
  {
    var x := n.held[a].node;
    OthersElsewhere(|n.pool|, n.free, n.queue, n.held, a);
    ChainPush(next, first, n.free, x);
    ChainOther(next, head, n.queue, x, first);
    hide Chain, Owned, NoDup;
  }

  /** One round of the loop of RT_IPC_CMD_RESET. */
  function DrainOne(n: Nodes): Nodes
    requires n.queue != []
  {
    n.(queue := n.queue[1..], free := [n.queue[0]] + n.free)
  }

  lemma LinksDrain(next: seq<int>, head: int, tail: int, first: int, n: Nodes)
    requires LinksOk(next, head, tail, first, n) && n.queue != []
    requires Owned(|n.pool|, n.free, n.queue, n.held)
    ensures head == n.queue[0] && 0 <= head < |next|
    ensures Owned(|n.pool|, DrainOne(n).free, DrainOne(n).queue, n.held)
    ensures LinksOk(next[head := first], next[head], if tail == head then NULL else tail, head, DrainOne(n))
  {
    OwnedDrainStep(|n.pool|, n.free, n.queue, n.held);
    HeadElsewhere(|n.pool|, n.free, n.queue, n.held);
    ChainTail(next, head, n.queue);
    TailIsHead(n.queue) by { assert NoDup(n.queue); }
    ChainPush(next, first, n.free, n.queue[0]);
    ChainOther(next, next[head], n.queue[1..], n.queue[0], first);
    hide Chain, Owned, NoDup;
  }

  lemma DrainOneSame(n: Nodes)
    requires n.queue != []
    ensures DrainNodes(DrainOne(n)) == DrainNodes(n)
  {}

  lemma HeadElsewhere(k: nat, free: seq<nat>, queue: seq<nat>, held: map<Tid, Phase>)
    requires Owned(k, free, queue, held) && queue != []
    ensures queue[0] !in free && queue[0] !in queue[1..] && queue[0] < k
    ensures forall a :: a in held ==> held[a].node != queue[0]
  {
    NoDupTail(queue);
    hide NoDup, HeldBySome;
    assert queue[0] in queue;
  }

  class NodePool {
    const msgSize: nat
    const pool: array<Bytes>
    const next: array<int>
    var head: int
    var tail: int
    var first: int
    /** The node pointers, buffers and sizes the calls in flight keep on their stacks. */
    var held: map<Tid, Phase>
    ghost var free: seq<nat>
    ghost var queue: seq<nat>

    ghost function View(): Nodes
      reads this, pool
    {
      Nodes(msgSize, pool[..], free, queue, held)
    }

    ghost predicate Valid()
      reads this, pool, next
    {
      LinksOk(next[..], head, tail, first, View())
    }

    ghost predicate Disjoint()
      reads this, pool
    {
      Owned(pool.Length, free, queue, held)
    }

    /** The list building of rt_mq_init. */
    constructor (size: nat, contents: seq<Bytes>)
      ensures Valid() && fresh(next) && fresh(pool) && msgSize == size
      ensures View() == Nodes(size, contents, FreeUpTo(|contents|), [], map[])
    {
      msgSize := size;
      pool := new Bytes[|contents|](i requires 0 <= i < |contents| => contents[i]);
      next := new int[|contents|];
      head, tail, first, held := NULL, NULL, NULL, map[];
      free, queue := [], [];
      new;
      assert pool[..] == contents;
      for temp := 0 to pool.Length
        invariant fresh(next) && fresh(pool) && next.Length == pool.Length && pool[..] == contents && head == NULL && tail == NULL && held == map[]
        invariant queue == [] && free == FreeUpTo(temp) && Chain(next[..], first, free)
      {
        FreeUpToAll(temp);
        ChainPush(next[..], first, free, temp);
        next[temp] := first;
        first := temp;
        free := [temp] + free;
      }
    }

    method Claim(a: Tid, msg: Bytes, urgent: bool)
      requires Valid() && free != []
      modifies this`first, this`held, this`free
      ensures Valid() && View() == ClaimNode(old(View()), a, msg, urgent)
    {
      LinksClaim(next[..], head, tail, first, View(), a, msg, urgent);
      hide LinksOk;
      held := held[a := Claimed(first, msg, urgent)];
      first := next[first];
      free := free[1..];
    }

    /** The copy into the node; rt_mq_send also clears its link, rt_mq_urgent does not. */
    method Fill(a: Tid)
      requires Valid() && Disjoint() && a in held && held[a].Claimed?
      requires held[a].node < pool.Length && |held[a].msg| <= |pool[held[a].node]|
      modifies this`held, pool, next
      ensures Valid() && View() == FillNode(old(View()), a)
    {
      LinksFill(next[..], head, tail, first, View(), a);
      hide LinksOk, Owned, Overwrite;
      var p := held[a];
      assert p.node < next.Length by { PoolLinks(next[..], head, tail, first, View()); }
      if !p.urgent {
        next[p.node] := NULL;
      }
      pool[p.node] := Overwrite(pool[p.node], p.msg);
      held := held[a := Filled(p.node, p.msg, p.urgent)];
    }

    lemma PoolLinks(links: seq<int>, h: int, t: int, f: int, n: Nodes)
      requires LinksOk(links, h, t, f, n)
      ensures |links| == |n.pool|
    {}

    method LinkBack(a: Tid)
      requires Valid() && Disjoint() && a in held && held[a].Filled? && !held[a].urgent
      modifies this, next
      ensures Valid() && View() == LinkNode(old(View()), a)
    {
      LinksBack(next[..], head, tail, first, View(), a);
      LastNull(queue);
      assert tail == Last(queue);
      hide LinksOk, Owned;
      var x := held[a].node;
      if tail != NULL {
        next[tail] := x;
      }
      tail := x;
      if head == NULL {
        head := x;
      }
      held := held - {a};
      queue := queue + [x];
    }

    lemma LastNull(l: seq<nat>)
      ensures Last(l) == NULL <==> l == []
    {}

    method LinkFront(a: Tid)
      requires Valid() && Disjoint() && a in held && held[a].Filled? && held[a].urgent
      modifies this, next
      ensures Valid() && View() == LinkNode(old(View()), a)
    {
      hide LinksOk, Owned;
      LinksFront(next[..], head, tail, first, View(), a);
      var x := held[a].node;
      next[x] := head;
      head := x;
      if tail == NULL {
        tail := x;
      }
      held := held - {a};
      queue := [x] + queue;
    }

    method Link(a: Tid)
      requires Valid() && Disjoint() && a in held && held[a].Filled?
      modifies this, next
      ensures Valid() && View() == LinkNode(old(View()), a)
    {
      if held[a].urgent {
        LinkFront(a);
      } else {
        LinkBack(a);
      }
    }

    method Unlink(a: Tid, size: nat)
      requires Valid() && Disjoint() && queue != []
      modifies this
      ensures Valid() && View() == UnlinkNode(old(View()), a, size)
    {
      LinksUnlink(next[..], head, tail, first, View(), a, size);
      hide LinksOk, Owned;
      var msg := head;
      head := next[msg];
      if tail == msg {
        tail := NULL;
      }
      held := held[a := Unlinked(msg, size)];
      queue := queue[1..];
    }

    method Copy(a: Tid)
      requires Valid() && a in held && held[a].Unlinked?
      requires held[a].node < pool.Length && |pool[held[a].node]| == msgSize
      modifies this`held
      ensures Valid() && View() == CopyNode(old(View()), a)
    {
      hide Chain;
      var p := held[a];
      var n := if p.size > msgSize then msgSize else p.size;
      held := held[a := Copied(p.node, p.size, pool[p.node][..n])];
    }

    method Release(a: Tid)
      requires Valid() && Disjoint() && a in held
      modifies this, next
      ensures Valid() && View() == ReleaseNode(old(View()), a)
    {
      hide LinksOk, Owned;
      LinksRelease(next[..], head, tail, first, View(), a);
      var x := held[a].node;
      next[x] := first;
      first := x;
      held := held - {a};
      free := [x] + free;
    }

    /** One round of the loop of RT_IPC_CMD_RESET. */
    method DrainFirst()
      requires Valid() && Disjoint() && queue != []
      modifies this, next
      ensures Valid() && Disjoint() && View() == DrainOne(old(View()))
    {
      hide LinksOk, Owned, Last;
      LinksDrain(next[..], head, tail, first, View());
      var msg := head;
      head := next[msg];
      if tail == msg {
        tail := NULL;
      }
      next[msg] := first;
      first := msg;
      free := [queue[0]] + free;
      queue := queue[1..];
    }

    /** The loop of RT_IPC_CMD_RESET. */
    method DrainAll()
      requires Valid() && Disjoint()
      modifies this, next
      ensures Valid() && View() == DrainNodes(old(View()))
    {
      HeadNull(next[..], head, tail, first, View());
      while head != NULL
        invariant Valid() && Disjoint() && DrainNodes(View()) == old(DrainNodes(View()))
        invariant head == NULL <==> queue == []
        decreases |queue|
      {
        hide LinksOk, Owned;
        DrainOneSame(View());
        hide DrainNodes;
        DrainFirst();
        HeadNull(next[..], head, tail, first, View());
      }
    }

    lemma HeadNull(links: seq<int>, h: int, t: int, f: int, n: Nodes)
      requires LinksOk(links, h, t, f, n)
      ensures h == NULL <==> n.queue == []
    {}
  }
}
