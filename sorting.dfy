/**
 * Python's stable `sort` / `sorted` with a `key`, modelled as an insertion
 * sort that orders by a two-part rank, highest first. Elements of equal rank
 * keep their input order. An ascending sort on a key is the descending sort
 * on its negation; a single key uses 0 as its second part.
 */
module Sorting {
  import opened Text

  /** The sort key: compared on `major` first, then on `minor`. */
  datatype Rank = Rank(major: real, minor: real)

  /** `a` sorts strictly before `b`. */
  predicate Outranks(a: Rank, b: Rank)
  {
    a.major > b.major || (a.major == b.major && a.minor > b.minor)
  }

  /** No element outranks one placed before it. */
  ghost predicate Ordered<T>(xs: seq<T>, key: T -> Rank)
  {
    forall i, j :: 0 <= i < j < |xs| ==> !Outranks(key(xs[j]), key(xs[i]))
  }

  /** Places `x` before the first element of `ys` that does not outrank it. */
  function Insert<T>(x: T, ys: seq<T>, key: T -> Rank): (r: seq<T>)
    ensures |r| == |ys| + 1
    ensures multiset(r) == multiset(ys) + multiset{x}
  {
    if ys == [] || !Outranks(key(ys[0]), key(x)) then [x] + ys
    else
      assert ys == [ys[0]] + ys[1..];
      [ys[0]] + Insert(x, ys[1..], key)
  }

  /** The stable sort of `xs`, highest rank first. */
  function Sort<T>(xs: seq<T>, key: T -> Rank): (r: seq<T>)
    ensures |r| == |xs|
    ensures multiset(r) == multiset(xs)
  {
    if xs == [] then []
    else
      assert xs == [xs[0]] + xs[1..];
      Insert(xs[0], Sort(xs[1..], key), key)
  }

  lemma {:induction false} InsertOrdered<T>(x: T, ys: seq<T>, key: T -> Rank)
    requires Ordered(ys, key)
    ensures Ordered(Insert(x, ys, key), key)
  {
    if ys == [] || !Outranks(key(ys[0]), key(x)) {
    } else {
      var rest := ys[1..];
      assert Ordered(rest, key);
      InsertOrdered(x, rest, key);
      var ins := Insert(x, rest, key);
      forall j | 0 <= j < |ins| ensures !Outranks(key(ins[j]), key(ys[0])) {
        assert ins[j] in multiset(ins);
        if ins[j] != x {
          assert ins[j] in multiset(rest);
          var k :| 0 <= k < |rest| && rest[k] == ins[j];
          assert ys[k + 1] == ins[j];
        }
      }
    }
  }

  /** The result of `Sort` is ordered. */
  lemma {:induction false} SortOrdered<T>(xs: seq<T>, key: T -> Rank)
    ensures Ordered(Sort(xs, key), key)
  {
    if xs != [] {
      SortOrdered(xs[1..], key);
      InsertOrdered(xs[0], Sort(xs[1..], key), key);
    }
  }

  /** The elements of `xs` whose rank equals `k`, in order. */
  function WithRank<T>(xs: seq<T>, key: T -> Rank, k: Rank): (r: seq<T>)
    ensures |r| <= |xs|
    ensures forall j :: 0 <= j < |r| ==> key(r[j]) == k
  {
    if xs == [] then []
    else
      assert xs == [xs[0]] + xs[1..];
      (if key(xs[0]) == k then [xs[0]] else []) + WithRank(xs[1..], key, k)
  }

  lemma {:induction false} InsertWithRank<T>(x: T, ys: seq<T>, key: T -> Rank, k: Rank)
    ensures WithRank(Insert(x, ys, key), key, k)
      == (if key(x) == k then [x] else []) + WithRank(ys, key, k)
  {
    var ins := Insert(x, ys, key);
    if ys == [] || !Outranks(key(ys[0]), key(x)) {
      assert ins[1..] == ys;
    } else {
      var y := ys[0];
      var tail := Insert(x, ys[1..], key);
      assert ins == [y] + tail;
      assert ins[1..] == tail;
      InsertWithRank(x, ys[1..], key, k);
      assert key(x) == k ==> key(y) != k;
    }
  }

  /** Stability: sorting never reorders elements of equal rank. */
  lemma {:induction false} SortStable<T>(xs: seq<T>, key: T -> Rank, k: Rank)
    ensures WithRank(Sort(xs, key), key, k) == WithRank(xs, key, k)
  {
    if xs != [] {
      SortStable(xs[1..], key, k);
      InsertWithRank(xs[0], Sort(xs[1..], key), key, k);
    }
  }

  /** `sorted(xs, key, reverse=True)[:n]`: the `n` highest-ranked elements, highest first. */
  function Top<T>(xs: seq<T>, key: T -> Rank, n: int): seq<T>
  {
    SliceTo(Sort(xs, key), n)
  }

  /**
   * `Top` keeps at most `n` elements (for `n >= 0`), all taken from `xs`, in
   * rank order, and no element it leaves out outranks one it keeps.
   */
  lemma TopSpec<T>(xs: seq<T>, key: T -> Rank, n: int)
    ensures n >= 0 ==> |Top(xs, key, n)| <= n
    ensures multiset(Top(xs, key, n)) <= multiset(xs)
    ensures Ordered(Top(xs, key, n), key)
    ensures forall x :: x in xs && x !in Top(xs, key, n) ==>
      forall i :: 0 <= i < |Top(xs, key, n)| ==> !Outranks(key(x), key(Top(xs, key, n)[i]))
  {
    var s := Sort(xs, key);
    var r := Top(xs, key, n);
    SortOrdered(xs, key);
    assert s == r + s[|r|..];
    assert multiset(s) == multiset(r) + multiset(s[|r|..]);
    forall x | x in xs && x !in r
      ensures forall i :: 0 <= i < |r| ==> !Outranks(key(x), key(r[i]))
    {
      assert x in multiset(xs);
      assert x in s;
      var j :| 0 <= j < |s| && s[j] == x;
    }
  }
}
