/** Singly linked lists in an array of links: the nodes of a message queue, the zones and the free
    chunks of the slab heap. */
module Chains {
  import opened Base

  const NULL: int := -1

  /** From `first` the links lead through l and end there. */
  ghost predicate Chain(next: seq<int>, first: int, l: seq<nat>) {
    && first == (if l == [] then NULL else l[0])
    && (forall i :: 0 <= i < |l| ==> l[i] < |next| && next[l[i]] == After(l, i))
  }

  function After(l: seq<nat>, i: nat): int {
    if i + 1 < |l| then l[i + 1] else NULL
  }

  lemma ChainOther(next: seq<int>, first: int, l: seq<nat>, x: nat, v: int)
    requires Chain(next, first, l) && x !in l && x < |next|
    ensures Chain(next[x := v], first, l)
  {}

  lemma ChainTail(next: seq<int>, first: int, l: seq<nat>)
    requires Chain(next, first, l) && l != []
    ensures first == l[0] && l[0] < |next| && Chain(next, next[l[0]], l[1..])
  {
    var t := l[1..];
    assert next[l[0]] == After(l, 0);
    forall i | 0 <= i < |t| ensures t[i] < |next| && next[t[i]] == After(t, i) {
      assert t[i] == l[i + 1] && next[l[i + 1]] == After(l, i + 1);
    }
  }

  lemma ChainPush(next: seq<int>, first: int, l: seq<nat>, x: nat)
    requires Chain(next, first, l) && x !in l && x < |next|
    ensures Chain(next[x := first], x, [x] + l)
  {
    ChainOther(next, first, l, x, first);
    var n', l' := next[x := first], [x] + l;
    forall i | 0 <= i < |l'|
      ensures l'[i] < |n'| && n'[l'[i]] == After(l', i)
    {
      if i > 0 {
        assert l'[i] == l[i - 1] && next[l[i - 1]] == After(l, i - 1);
        assert n'[l[i - 1]] == next[l[i - 1]];
      }
    }
  }

  function Last(l: seq<nat>): int {
    if l == [] then NULL else l[|l| - 1]
  }

  /** Appending behind the last node. */
  lemma ChainAppend(next: seq<int>, first: int, l: seq<nat>, x: nat)
    requires Chain(next, first, l) && NoDup(l) && x !in l && x < |next| && next[x] == NULL && l != []
    ensures l[|l| - 1] < |next| && Chain(next[l[|l| - 1] := x], first, l + [x])
  {
    var n', l' := next[l[|l| - 1] := x], l + [x];
    forall i | 0 <= i < |l'|
      ensures l'[i] < |n'| && n'[l'[i]] == After(l', i)
    {
      if i < |l| { assert l'[i] == l[i]; }
    }
  }

  /** The list is its own first node and what follows it. */
  lemma ChainNull(next: seq<int>, first: int, l: seq<nat>)
    requires Chain(next, first, l)
    ensures first == NULL <==> l == []
    ensures l != [] ==> first == l[0] && 0 <= first < |next|
  {}

  /** The link behind the last node of `passed` is set to the first node of `rest`. */
  lemma ChainJoin(next: seq<int>, first: int, passed: seq<nat>, ahead: seq<nat>, to: int, rest: seq<nat>)
    requires Chain(next, first, passed + ahead) && Chain(next, to, rest) && passed != [] && NoDup(passed)
    requires passed[|passed| - 1] !in rest && passed[|passed| - 1] < |next|
    ensures Chain(next[passed[|passed| - 1] := to], first, passed + rest)
  {
    var x := passed[|passed| - 1];
    var n', l, l' := next[x := to], passed + ahead, passed + rest;
    forall i | 0 <= i < |l'| ensures l'[i] < |n'| && n'[l'[i]] == After(l', i) {
      if i < |passed| {
        assert l[i] == passed[i] == l'[i];
        if i + 1 < |passed| { assert next[l[i]] == After(l, i) && l[i + 1] == passed[i + 1] == l'[i + 1]; }
      } else {
        assert l'[i] == rest[i - |passed|] && rest[i - |passed|] in rest;
        assert next[rest[i - |passed|]] == After(rest, i - |passed|);
        assert After(l', i) == After(rest, i - |passed|);
      }
    }
  }
}
