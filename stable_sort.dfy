/** `Array.prototype.sort` with a consistent comparator. The language requires the sort to be stable,
    so the result is fully determined: elements ordered by the comparator, ties in their original
    order. Every comparator of the pages compares a pair of numbers lexicographically; `Rank` is that
    pair and `SortByRank` is a stable insertion sort on it. */
module StableSort {

  import Lists

  datatype Rank = Rank(major: int, minor: int)

  predicate RankLe(a: Rank, b: Rank) {
    a.major < b.major || (a.major == b.major && a.minor <= b.minor)
  }

  predicate RankLt(a: Rank, b: Rank) {
    a.major < b.major || (a.major == b.major && a.minor < b.minor)
  }

  /** The sign a comparator built from the rank returns: negative keeps `a` first. */
  function Compare(a: Rank, b: Rank): (r: int)
    ensures r < 0 <==> RankLt(a, b)
    ensures r == 0 <==> a == b
    ensures r > 0 <==> RankLt(b, a)
  {
    if RankLt(a, b) then -1 else if a == b then 0 else 1
  }

  predicate SortedBy<T>(s: seq<T>, rank: T -> Rank) {
    forall i, j :: 0 <= i < j < |s| ==> RankLe(rank(s[i]), rank(s[j]))
  }

  /** Places `x` before the first element whose rank is not below its own. */
  function Insert<T>(x: T, t: seq<T>, rank: T -> Rank): seq<T>
    decreases |t|
  {
    if t == [] || RankLe(rank(x), rank(t[0])) then [x] + t else [t[0]] + Insert(x, t[1..], rank)
  }

  function SortByRank<T>(s: seq<T>, rank: T -> Rank): seq<T>
    decreases |s|
  {
    if s == [] then [] else Insert(s[0], SortByRank(s[1..], rank), rank)
  }

  /** The elements whose rank is exactly `k`. */
  function HasRank<T>(rank: T -> Rank, k: Rank): T -> bool {
    (y: T) => rank(y) == k
  }

  lemma {:induction false} InsertMultiset<T>(x: T, t: seq<T>, rank: T -> Rank)
    ensures multiset(Insert(x, t, rank)) == multiset(t) + multiset{x}
    decreases |t|
  {
    if t != [] && !RankLe(rank(x), rank(t[0])) {
      InsertMultiset(x, t[1..], rank);
      assert t == [t[0]] + t[1..];
    }
  }

  lemma {:induction false} InsertSorted<T>(x: T, t: seq<T>, rank: T -> Rank)
    requires SortedBy(t, rank)
    ensures SortedBy(Insert(x, t, rank), rank)
    decreases |t|
  {
    if t != [] && !RankLe(rank(x), rank(t[0])) {
      var rest := Insert(x, t[1..], rank);
      InsertSorted(x, t[1..], rank);
      InsertMultiset(x, t[1..], rank);
      forall j | 0 <= j < |rest| ensures RankLe(rank(t[0]), rank(rest[j])) {
        assert rest[j] in multiset(t[1..]) + multiset{x};
        if rest[j] != x {
          assert rest[j] in t[1..];
        }
      }
      var r := [t[0]] + rest;
      forall i, j | 0 <= i < j < |r| ensures RankLe(rank(r[i]), rank(r[j])) {
        if i > 0 {
          assert r[i] == rest[i - 1] && r[j] == rest[j - 1];
        } else {
          assert r[j] == rest[j - 1];
        }
      }
    }
  }

  /** Inserting `x` adds it to its own rank class at the front and leaves every other class alone. */
  lemma {:induction false} InsertStable<T>(x: T, t: seq<T>, rank: T -> Rank, k: Rank)
    ensures Lists.Filter(Insert(x, t, rank), HasRank(rank, k))
         == (if rank(x) == k then [x] else []) + Lists.Filter(t, HasRank(rank, k))
    decreases |t|
  {
    var p := HasRank(rank, k);
    if t == [] || RankLe(rank(x), rank(t[0])) {
      Lists.FilterCons(x, t, p);
    } else {
      InsertStable(x, t[1..], rank, k);
      Lists.FilterCons(t[0], Insert(x, t[1..], rank), p);
      Lists.FilterCons(t[0], t[1..], p);
      assert [t[0]] + t[1..] == t;
    }
  }

  /** The sorted sequence is a permutation of the input, ordered by rank, and elements of equal rank
      keep their original relative order. */
  lemma {:induction false} SortSpec<T>(s: seq<T>, rank: T -> Rank)
    ensures multiset(SortByRank(s, rank)) == multiset(s)
    ensures |SortByRank(s, rank)| == |s|
    ensures SortedBy(SortByRank(s, rank), rank)
    decreases |s|
  {
    if s != [] {
      SortSpec(s[1..], rank);
      InsertMultiset(s[0], SortByRank(s[1..], rank), rank);
      InsertSorted(s[0], SortByRank(s[1..], rank), rank);
      assert s == [s[0]] + s[1..];
    }
    assert |SortByRank(s, rank)| == |multiset(SortByRank(s, rank))|;
  }

  lemma {:induction false} SortStable<T>(s: seq<T>, rank: T -> Rank, k: Rank)
    ensures Lists.Filter(SortByRank(s, rank), HasRank(rank, k)) == Lists.Filter(s, HasRank(rank, k))
    decreases |s|
  {
    if s != [] {
      SortStable(s[1..], rank, k);
      InsertStable(s[0], SortByRank(s[1..], rank), rank, k);
    }
  }
}
