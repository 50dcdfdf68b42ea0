/** Ordering rows by an integer key: the model of SQL's `ORDER BY <key> ASC`. */
module Ordering {

  ghost predicate SortedBy<T>(s: seq<T>, key: T -> int) {
    forall i, j :: 0 <= i < j < |s| ==> key(s[i]) <= key(s[j])
  }

  /** Puts `x` into the sorted `s` before the first element with a larger key. */
  function Insert<T>(x: T, s: seq<T>, key: T -> int): (r: seq<T>)
    requires SortedBy(s, key)
    ensures SortedBy(r, key)
    ensures multiset(r) == multiset(s) + multiset{x}
    ensures |r| == |s| + 1
  {
    if s == [] then [x]
    else if key(x) <= key(s[0]) then [x] + s
    else
      var rest := Insert(x, s[1..], key);
      LowerBoundKept(rest, s[1..], x, key(s[0]), key);
      assert s == [s[0]] + s[1..];
      [s[0]] + rest
  }

  /** A lower bound on the keys of `s` and of `x` bounds every key of a permutation of both. */
  lemma LowerBoundKept<T>(r: seq<T>, s: seq<T>, x: T, b: int, key: T -> int)
    requires multiset(r) == multiset(s) + multiset{x}
    requires b <= key(x)
    requires forall i :: 0 <= i < |s| ==> b <= key(s[i])
    ensures forall i :: 0 <= i < |r| ==> b <= key(r[i])
  {
    forall i | 0 <= i < |r|
      ensures b <= key(r[i])
    {
      assert r[i] in multiset(r);
      if r[i] != x {
        assert r[i] in multiset(s);
        var k :| 0 <= k < |s| && s[k] == r[i];
      }
    }
  }

  /** The rows of `s` in ascending key order. Rows with equal keys keep no promised order. */
  function SortBy<T>(s: seq<T>, key: T -> int): (r: seq<T>)
    ensures SortedBy(r, key)
    ensures multiset(r) == multiset(s)
    ensures |r| == |s|
  {
    if s == [] then []
    else
      assert s == [s[0]] + s[1..];
      Insert(s[0], SortBy(s[1..], key), key)
  }

  /** `WHERE keep(row)`: the rows of `s` that satisfy `keep`, with their multiplicities, in
      table order. */
  function Where<T(!new)>(s: seq<T>, keep: T -> bool): (r: seq<T>)
    ensures forall i :: 0 <= i < |r| ==> keep(r[i])
    ensures forall x :: multiset(r)[x] == if keep(x) then multiset(s)[x] else 0
  {
    if s == [] then []
    else
      assert s == [s[0]] + s[1..];
      var rest := Where(s[1..], keep);
      if keep(s[0]) then [s[0]] + rest else rest
  }

  /** `WHERE keep(row) ORDER BY key ASC`: sorted, every row satisfies `keep`, and each row of `s`
      that satisfies `keep` is there as often as in `s`. */
  lemma {:induction false} SelectSorted<T(!new)>(s: seq<T>, keep: T -> bool, key: T -> int)
    ensures var q := SortBy(Where(s, keep), key);
      && (forall i :: 0 <= i < |q| ==> keep(q[i]))
      && (forall i, j :: 0 <= i < j < |q| ==> key(q[i]) <= key(q[j]))
      && (forall x :: multiset(q)[x] == if keep(x) then multiset(s)[x] else 0)
  {
    var w := Where(s, keep);
    var q := SortBy(w, key);
    forall i | 0 <= i < |q|
      ensures keep(q[i])
    {
      assert q[i] in multiset(w);
      var k :| 0 <= k < |w| && w[k] == q[i];
    }
  }
}
