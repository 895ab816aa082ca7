/** Datatypes and facts about lists shared by the other modules. */
module Base {

  datatype Option<+T> = None | Some(value: T)

  function Min(a: int, b: int): int {
    if a <= b then a else b
  }

  function Max(a: int, b: int): int {
    if a >= b then a else b
  }

  // ---- Lists without duplicates --------------------------------------------------------------

  predicate NoDup<T(==)>(l: seq<T>) {
    forall i, j :: 0 <= i < j < |l| ==> l[i] != l[j]
  }

  lemma NoDupTail<T>(l: seq<T>)
    requires NoDup(l) && l != []
    ensures NoDup(l[1..]) && l[0] !in l[1..] && forall x :: x in l <==> x == l[0] || x in l[1..]
  {}

  lemma NoDupEnds<T>(l: seq<T>, x: T)
    requires NoDup(l) && x !in l
    ensures NoDup([x] + l) && NoDup(l + [x])
  {}

  /** The list in which x stands at place n. */
  function Insert<T>(l: seq<T>, n: nat, x: T): seq<T>
    requires n <= |l|
  {
    l[..n] + [x] + l[n..]
  }

  lemma InsertAt<T>(l: seq<T>, n: nat, x: T, i: nat)
    requires n <= |l| && i <= |l|
    ensures |Insert(l, n, x)| == |l| + 1
    ensures Insert(l, n, x)[i] == (if i < n then l[i] else if i == n then x else l[i - 1])
  {}

  lemma InsertMembers<T>(l: seq<T>, n: nat, x: T)
    requires n <= |l|
    ensures forall y :: y in Insert(l, n, x) <==> y == x || y in l
  {
    assert l == l[..n] + l[n..];
  }

  lemma InsertNoDup<T>(l: seq<T>, n: nat, x: T)
    requires NoDup(l) && x !in l && n <= |l|
    ensures NoDup(Insert(l, n, x))
    ensures forall y :: y in Insert(l, n, x) <==> y == x || y in l
  {
    assert l == l[..n] + l[n..];
  }

  /** The list without x. */
  function Without<T(==)>(l: seq<T>, x: T): (r: seq<T>)
    ensures x !in l ==> r == l
    ensures forall y :: y in r ==> y in l
    ensures forall y :: y in l && y != x ==> y in r
    ensures NoDup(l) ==> NoDup(r) && x !in r
    ensures |r| <= |l|
  {
    if l == [] then []
    else if l[0] == x then l[1..]
    else
      var r := Without(l[1..], x);
      assert l == [l[0]] + l[1..];
      assert NoDup(l) ==> NoDup(l[1..]) && l[0] !in l[1..];
      [l[0]] + r
  }

  /** Taking an element out of a list leaves what is behind it in place. */
  lemma {:induction false} WithoutAt<T>(l: seq<T>, n: nat)
    requires NoDup(l) && n < |l|
    ensures Without(l, l[n]) == l[..n] + l[n + 1..]
    decreases |l|
  {
    if n == 0 {
      assert l[..0] + l[1..] == l[1..];
    } else {
      assert l[1..][n - 1] == l[n] && l[1..][n..] == l[n + 1..] && [l[0]] + l[1..][..n - 1] == l[..n];
      NoDupTail(l);
      WithoutAt(l[1..], n - 1);
      assert [l[0]] + (l[1..][..n - 1] + l[n + 1..]) == l[..n] + l[n + 1..];
    }
  }

  /** The place in a list of what is at place k once the element at place i has left. */
  function Source(i: nat, k: nat): nat {
    if k < i then k else k + 1
  }

  lemma RemovedAt<T>(l: seq<T>, i: nat, j: nat)
    requires NoDup(l) && i < |l| && j < |l| - 1
    ensures |Without(l, l[i])| == |l| - 1 && Without(l, l[i])[j] == l[Source(i, j)]
  {
    hide Without, NoDup;
    WithoutAt(l, i);
    assert (l[..i] + l[i + 1..])[j] == l[Source(i, j)];
  }
}
