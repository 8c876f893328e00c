/** Sequence helpers for the ordered collections the queues keep: Python
    lists and the insertion order of Python dictionaries. */
module Seqs {

  /** No element occurs twice: each one differs from all those before it. */
  predicate Distinct<T(==)>(s: seq<T>)
  {
    s == [] || (s[|s| - 1] !in s[..|s| - 1] && Distinct(s[..|s| - 1]))
  }

  /** `part` occurs in `s` starting at position `at`. */
  predicate PartAt<T(==)>(s: seq<T>, at: nat, part: seq<T>)
  {
    at + |part| <= |s| && forall k :: 0 <= k < |part| ==> s[at + k] == part[k]
  }

  /** In a duplicate-free sequence an element does not occur before its
      position. */
  lemma {:induction false} DistinctAt<T>(s: seq<T>, i: nat)
    requires Distinct(s) && i < |s|
    ensures s[i] !in s[..i]
  {
    if i < |s| - 1 {
      var front := s[..|s| - 1];
      DistinctAt(front, i);
      assert front[i] == s[i] && front[..i] == s[..i];
    }
  }

  /** Appending an element not yet present keeps a sequence duplicate-free. */
  lemma DistinctAppend<T>(s: seq<T>, x: T)
    requires Distinct(s) && x !in s
    ensures Distinct(s + [x])
  {
    assert (s + [x])[..|s|] == s;
  }

  /** `list.remove(x)`, or the key order after `del d[x]`: drops the first
      occurrence of `x`. */
  function Remove<T(==)>(s: seq<T>, x: T): (r: seq<T>)
    ensures |r| <= |s|
  {
    if s == [] then [] else if s[0] == x then s[1..] else [s[0]] + Remove(s[1..], x)
  }

  lemma {:induction false} RemoveAfter<T>(a: seq<T>, x: T, b: seq<T>)
    requires x !in a
    ensures Remove(a + [x] + b, x) == a + b
  {
    var s := a + [x] + b;
    if a != [] {
      assert s[0] == a[0] && a[0] != x;
      assert s[1..] == a[1..] + [x] + b;
      RemoveAfter(a[1..], x, b);
      assert Remove(s, x) == [a[0]] + (a[1..] + b);
      assert a + b == [a[0]] + (a[1..] + b);
    } else {
      assert s[0] == x && s[1..] == b;
    }
  }

  /** The key order after `d[x] = v`: a new key goes last, an existing one
      keeps its place. */
  function Insert<T(==,!new)>(s: seq<T>, x: T): (r: seq<T>)
    ensures x in r
    ensures forall y :: y in r <==> y in s || y == x
  {
    if x in s then s else s + [x]
  }

  lemma InsertDistinct<T(!new)>(s: seq<T>, x: T)
    requires Distinct(s)
    ensures Distinct(Insert(s, x))
  {
    if x !in s {
      DistinctAppend(s, x);
    }
  }

  /** Inserting a key already inserted changes nothing. */
  lemma InsertAgain<T(!new)>(s: seq<T>, x: T)
    ensures Insert(Insert(s, x), x) == Insert(s, x)
  {
  }

  /** Of two updates of one key, the later one wins. */
  lemma UpdateTwice<K, V>(m: map<K, V>, k: K, v: V, w: V)
    ensures m[k := v][k := w] == m[k := w]
  {
  }

  /** Two maps with the same keys and the same value at each key are
      equal. */
  lemma MapsAgree<K, V>(c: map<K, V>, w: map<K, V>)
    requires forall p :: p in c <==> p in w
    requires forall p :: p in c ==> c[p] == w[p]
    ensures c == w
  {
  }

  /** Stepping past position i: the prefix grows by s[i] and the suffix
      loses it. */
  lemma SplitAt<T>(s: seq<T>, i: nat)
    requires i < |s|
    ensures s[..i + 1] == s[..i] + [s[i]]
    ensures s[i..] == [s[i]] + s[i + 1..]
  {
  }

  /** A prefix extended by the next element is the next prefix. */
  lemma TakeSnoc<T>(xs: seq<T>, ys: seq<T>, n: nat)
    requires 0 < n <= |ys| && xs == ys[..n - 1]
    ensures xs + [ys[n - 1]] == ys[..n]
  {
  }

  /** The elements after a head of `|head|` elements are those of `body`. */
  lemma AfterHead<T>(head: seq<T>, body: seq<T>)
    ensures forall k :: 0 <= k < |head| ==> (head + body)[k] == head[k]
    ensures (head + body)[..|head|] == head
    ensures forall k :: 0 <= k < |body| ==> (head + body)[|head| + k] == body[k]
    ensures (head + body)[|head|..] == body
  {
  }

  /** Where the parts of `[x, y] + head + [a, b, c] + middle + [d, e, f] + tail` lie. */
  lemma Layout<T>(x: T, y: T, head: seq<T>, a: T, b: T, c: T, middle: seq<T>, d: T, e: T, f: T, tail: seq<T>)
    ensures var s := [x, y] + head + [a, b, c] + middle + [d, e, f] + tail;
            && |s| == 8 + |head| + |middle| + |tail|
            && s[0] == x && s[1] == y
            && (forall k :: 0 <= k < |head| ==> s[2 + k] == head[k])
            && s[3 + |head|] == b
            && (forall k :: 0 <= k < |middle| ==> s[5 + |head| + k] == middle[k])
            && s[6 + |head| + |middle|] == e && s[7 + |head| + |middle|] == f
            && s[8 + |head| + |middle|..] == tail
  {
    var s := [x, y] + head + [a, b, c] + middle + [d, e, f] + tail;
    forall k | 0 <= k < |head|
      ensures s[2 + k] == head[k]
    {
    }
    forall k | 0 <= k < |middle|
      ensures s[5 + |head| + k] == middle[k]
    {
    }
    AfterHead([x, y] + head + [a, b, c] + middle + [d, e, f], tail);
  }

  /** Where the parts of `[x, y] + head + middle + tail` lie. */
  lemma Framed<T>(x: T, y: T, head: seq<T>, middle: seq<T>, tail: seq<T>)
    ensures var s := [x, y] + head + middle + tail;
            && |s| == 2 + |head| + |middle| + |tail|
            && s[0] == x && s[1] == y
            && (forall k :: 0 <= k < |head| ==> s[2 + k] == head[k])
            && (forall k :: 0 <= k < |middle| ==> s[2 + |head| + k] == middle[k])
            && s[2 + |head| + |middle|..] == tail
  {
    var s := [x, y] + head + middle + tail;
    forall k | 0 <= k < |head|
      ensures s[2 + k] == head[k]
    {
    }
    forall k | 0 <= k < |middle|
      ensures s[2 + |head| + k] == middle[k]
    {
    }
    AfterHead([x, y] + head + middle, tail);
  }

  /** Where the parts of `head + [u, v] + tail` lie. */
  lemma Closing<T>(head: seq<T>, u: T, v: T, tail: seq<T>)
    ensures var s := head + [u, v] + tail;
            && |s| == |head| + 2 + |tail|
            && s[..|head|] == head && s[|head|] == u && s[|head| + 1] == v
            && s[|head| + 2..] == tail
  {
    AfterHead(head + [u, v], tail);
    AfterHead(head, [u, v]);
  }

  /** The distinct elements of `s`, each where it first occurs. */
  function Dedup<T(==,!new)>(s: seq<T>): (r: seq<T>)
    ensures Distinct(r)
    ensures forall x :: x in r <==> x in s
    ensures |r| <= |s|
  {
    if s == [] then []
    else
      var front := Dedup(s[..|s| - 1]);
      var last := s[|s| - 1];
      assert forall x :: x in s <==> x in s[..|s| - 1] || x == last;
      if last in front then front
      else
        assert (front + [last])[..|front|] == front;
        front + [last]
  }

  /** A sequence without repetitions is its own deduplication. */
  lemma {:induction false} DedupDistinct<T(!new)>(s: seq<T>)
    requires Distinct(s)
    ensures Dedup(s) == s
  {
    if s != [] {
      DedupDistinct(s[..|s| - 1]);
    }
  }
}
