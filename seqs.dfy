/** Small sequence utilities shared by the services and the components. */
module Seqs {
  import opened Wrappers

  /** No element occurs twice. */
  ghost predicate NoDup<T>(s: seq<T>) {
    forall i, j :: 0 <= i < j < |s| ==> s[i] != s[j]
  }

  /** `xs` occurs in `s`, in order, possibly with gaps. */
  ghost predicate Subsequence<T>(xs: seq<T>, s: seq<T>)
    decreases |s|
  {
    if xs == [] then true
    else if s == [] then false
    else if xs[0] == s[0] then Subsequence(xs[1..], s[1..])
    else Subsequence(xs, s[1..])
  }

  /** A prefix of a duplicate-free sequence is duplicate-free and misses the next element. */
  lemma NoDupPrefix<T>(s: seq<T>, n: nat)
    requires NoDup(s) && n < |s|
    ensures NoDup(s[..n]) && s[n] !in s[..n]
  {
  }

  /** `Array.prototype.filter`: the elements satisfying `p`, in order. */
  function Filter<T>(s: seq<T>, p: T -> bool): (r: seq<T>)
    ensures |r| <= |s|
    ensures forall i :: 0 <= i < |r| ==> r[i] in s && p(r[i])
    ensures forall i :: 0 <= i < |s| && p(s[i]) ==> s[i] in r
    ensures multiset(r) <= multiset(s)
  {
    if s == [] then []
    else if p(s[0]) then
      assert s == [s[0]] + s[1..];
      [s[0]] + Filter(s[1..], p)
    else
      assert s == [s[0]] + s[1..];
      Filter(s[1..], p)
  }

  /** Filtering keeps the order of what it keeps. */
  lemma {:induction false} FilterIsSubsequence<T>(s: seq<T>, p: T -> bool)
    ensures Subsequence(Filter(s, p), s)
  {
    if s != [] {
      FilterIsSubsequence(s[1..], p);
    }
  }

  /** A filter whose predicate holds everywhere changes nothing. */
  lemma {:induction false} FilterAll<T>(s: seq<T>, p: T -> bool)
    requires forall i :: 0 <= i < |s| ==> p(s[i])
    ensures Filter(s, p) == s
  {
    if s != [] {
      FilterAll(s[1..], p);
    }
  }

  /** Filtering distributes over concatenation. */
  lemma {:induction false} FilterAppend<T>(a: seq<T>, b: seq<T>, p: T -> bool)
    ensures Filter(a + b, p) == Filter(a, p) + Filter(b, p)
  {
    if a == [] {
      assert a + b == b;
    } else {
      assert (a + b)[1..] == a[1..] + b;
      FilterAppend(a[1..], b, p);
    }
  }

  /** The first `n` elements, or all of them when there are fewer: Prisma's `take`. */
  function Take<T>(s: seq<T>, n: nat): (r: seq<T>)
    ensures |r| == if |s| < n then |s| else n
    ensures r == s[..|r|]
  {
    if |s| <= n then s else s[..n]
  }

  /** `xs.join(sep)` for strings. */
  function Join(xs: seq<string>, sep: string): string {
    if xs == [] then ""
    else if |xs| == 1 then xs[0]
    else xs[0] + sep + Join(xs[1..], sep)
  }

  /** The index of the first element satisfying `p`: `findIndex`, or the row a `findFirst` returns. */
  function IndexOf<T>(s: seq<T>, p: T -> bool): (r: Option<nat>)
    ensures r.Some? ==> r.value < |s| && p(s[r.value]) && forall j :: 0 <= j < r.value ==> !p(s[j])
    ensures r.None? ==> forall j :: 0 <= j < |s| ==> !p(s[j])
  {
    if s == [] then None
    else if p(s[0]) then Some(0)
    else match IndexOf(s[1..], p)
      case None => None
      case Some(k) => Some(k + 1)
  }

  /** `Array.prototype.find`: the first element satisfying `p`. */
  function Find<T>(s: seq<T>, p: T -> bool): (r: Option<T>)
    ensures r.Some? ==> r.value in s && p(r.value)
    ensures r.None? ==> forall j :: 0 <= j < |s| ==> !p(s[j])
  {
    match IndexOf(s, p)
    case None => None
    case Some(i) => Some(s[i])
  }

  /** `le` relates every pair one way or the other. */
  ghost predicate TotalOn<T(!new)>(le: (T, T) -> bool) {
    forall a: T, b: T :: le(a, b) || le(b, a)
  }

  /** Each element is `le` its successor. */
  ghost predicate SortedBy<T>(s: seq<T>, le: (T, T) -> bool) {
    forall i :: 0 < i < |s| ==> le(s[i - 1], s[i])
  }

  /** Inserts `x` before the first element it is `le`. */
  function Insert<T>(x: T, s: seq<T>, le: (T, T) -> bool): (r: seq<T>)
    ensures multiset(r) == multiset(s) + multiset{x}
    ensures |r| == |s| + 1
    ensures r[0] == x || (s != [] && r[0] == s[0])
  {
    if s == [] then [x]
    else if le(x, s[0]) then [x] + s
    else
      assert s == [s[0]] + s[1..];
      [s[0]] + Insert(x, s[1..], le)
  }

  lemma {:induction false} InsertSorted<T(!new)>(x: T, s: seq<T>, le: (T, T) -> bool)
    requires TotalOn(le) && SortedBy(s, le)
    ensures SortedBy(Insert(x, s, le), le)
  {
    if s != [] && !le(x, s[0]) {
      assert SortedBy(s[1..], le) by {
        forall i | 0 < i < |s[1..]| ensures le(s[1..][i - 1], s[1..][i]) {
          assert s[1..][i - 1] == s[i] && s[1..][i] == s[i + 1];
        }
      }
      InsertSorted(x, s[1..], le);
      var r := Insert(x, s, le);
      var t := Insert(x, s[1..], le);
      assert r == [s[0]] + t;
      assert le(s[0], t[0]) by {
        assert le(x, s[0]) || le(s[0], x);
        if t[0] != x {
          assert le(s[0], s[1]);
        }
      }
      forall i | 0 < i < |r| ensures le(r[i - 1], r[i]) {
        if i > 1 {
          assert r[i - 1] == t[i - 2] && r[i] == t[i - 1];
        }
      }
    }
  }

  /** Insertion sort: the sequence rearranged so that it is sorted by `le`. */
  function SortBy<T>(s: seq<T>, le: (T, T) -> bool): (r: seq<T>)
    ensures multiset(r) == multiset(s)
    ensures |r| == |s|
  {
    if s == [] then []
    else
      assert s == [s[0]] + s[1..];
      Insert(s[0], SortBy(s[1..], le), le)
  }

  lemma {:induction false} SortBySorted<T(!new)>(s: seq<T>, le: (T, T) -> bool)
    requires TotalOn(le)
    ensures SortedBy(SortBy(s, le), le)
  {
    if s != [] {
      SortBySorted(s[1..], le);
      InsertSorted(s[0], SortBy(s[1..], le), le);
    }
  }

  /** Lexicographic order of strings by character code. */
  function LexLe(a: string, b: string): bool {
    if a == [] then true
    else if b == [] then false
    else if a[0] != b[0] then a[0] < b[0]
    else LexLe(a[1..], b[1..])
  }

  lemma {:induction false} LexLeTotal(a: string, b: string)
    ensures LexLe(a, b) || LexLe(b, a)
  {
    if a != [] && b != [] && a[0] == b[0] {
      LexLeTotal(a[1..], b[1..]);
    }
  }

  /** `P` holds of every pair of elements, taken in their order in `s`. */
  ghost predicate Pairwise<T>(s: seq<T>, P: (T, T) -> bool) {
    forall i, j :: 0 <= i < j < |s| ==> P(s[i], s[j])
  }

  lemma PairwiseTail<T>(s: seq<T>, P: (T, T) -> bool)
    requires Pairwise(s, P) && s != []
    ensures Pairwise(s[1..], P)
    ensures forall y :: y in s[1..] ==> P(s[0], y)
  {
    forall i, j | 0 <= i < j < |s[1..]| ensures P(s[1..][i], s[1..][j]) {
      assert s[1..][i] == s[i + 1] && s[1..][j] == s[j + 1];
    }
    forall y | y in s[1..] ensures P(s[0], y) {
      var k :| 0 <= k < |s[1..]| && s[1..][k] == y;
      assert s[k + 1] == y;
    }
  }

  lemma PairwiseCons<T>(x: T, t: seq<T>, P: (T, T) -> bool)
    requires Pairwise(t, P)
    requires forall y :: y in t ==> P(x, y)
    ensures Pairwise([x] + t, P)
  {
    var r := [x] + t;
    forall i, j | 0 <= i < j < |r| ensures P(r[i], r[j]) {
      assert r[j] == t[j - 1];
      if i > 0 {
        assert r[i] == t[i - 1];
      }
    }
  }

  /** Removing elements keeps a pairwise property. */
  lemma {:induction false} FilterPairwise<T>(s: seq<T>, p: T -> bool, P: (T, T) -> bool)
    requires Pairwise(s, P)
    ensures Pairwise(Filter(s, p), P)
  {
    if s != [] {
      PairwiseTail(s, P);
      FilterPairwise(s[1..], p, P);
      if p(s[0]) {
        var t := Filter(s[1..], p);
        assert forall y :: y in t ==> y in s[1..];
        PairwiseCons(s[0], t, P);
      }
    }
  }

  /** Appending an element that stands in `P` to all before it keeps a pairwise property. */
  lemma PairwiseAppend<T>(s: seq<T>, x: T, P: (T, T) -> bool)
    requires Pairwise(s, P)
    requires forall i :: 0 <= i < |s| ==> P(s[i], x)
    ensures Pairwise(s + [x], P)
  {
    var r := s + [x];
    forall i, j | 0 <= i < j < |r| ensures P(r[i], r[j]) {
      if j < |s| {
        assert r[i] == s[i] && r[j] == s[j];
      } else {
        assert r[i] == s[i];
      }
    }
  }

  /** Replacing one element by one that stands in `P` to every other keeps a pairwise property. */
  lemma PairwiseUpdate<T>(s: seq<T>, k: nat, x: T, P: (T, T) -> bool)
    requires Pairwise(s, P) && k < |s|
    requires forall j :: 0 <= j < |s| && j != k ==> P(s[j], x) && P(x, s[j])
    ensures Pairwise(s[k := x], P)
  {
  }

  /** A filter keeps the length exactly when it keeps every element. */
  lemma {:induction false} FilterLength<T>(s: seq<T>, p: T -> bool)
    ensures |Filter(s, p)| == |s| <==> forall i :: 0 <= i < |s| ==> p(s[i])
  {
    if s != [] {
      FilterLength(s[1..], p);
      assert forall i :: 0 < i < |s| ==> s[i] == s[1..][i - 1];
    }
  }

  /** The elements of a sequence, as a set. */
  function Elems<T>(s: seq<T>): set<T> {
    set x | x in s
  }

  /** A sequence has at least as many positions as distinct elements, and exactly as many when none repeats. */
  lemma {:induction false} ElemsCard<T>(s: seq<T>)
    ensures |Elems(s)| <= |s|
    ensures NoDup(s) <==> |Elems(s)| == |s|
  {
    if s != [] {
      ElemsCard(s[1..]);
      assert Elems(s) == Elems(s[1..]) + {s[0]};
      assert NoDup(s) <==> NoDup(s[1..]) && s[0] !in s[1..] by {
        if NoDup(s) {
          forall i, j | 0 <= i < j < |s[1..]| ensures s[1..][i] != s[1..][j] {
            assert s[1..][i] == s[i + 1] && s[1..][j] == s[j + 1];
          }
        }
        if NoDup(s[1..]) && s[0] !in s[1..] {
          forall i, j | 0 <= i < j < |s| ensures s[i] != s[j] {
            assert s[j] == s[1..][j - 1];
            if i > 0 {
              assert s[i] == s[1..][i - 1];
            }
          }
        }
      }
    }
  }

  /** A subset with as many elements as its superset is the superset. */
  lemma SubsetCard<T>(a: set<T>, b: set<T>)
    requires a <= b && |a| == |b|
    ensures a == b
  {
    assert |b| == |a| + |b - a| by { assert b == a + (b - a); }
  }
}
