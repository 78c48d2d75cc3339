/** Score tuples: Python tuples of ints and C++ `std::vector<int>` both compare
    lexicographically, a proper prefix being smaller. Also the descending sorts both rankers
    apply to (count, rank) pairs and to rank lists, and prefix slicing. */
module Tuples {

  /** Lexicographic strict order. */
  predicate Lt(a: seq<int>, b: seq<int>)
    decreases |a|
  {
    if |a| == 0 then |b| > 0
    else if |b| == 0 then false
    else a[0] < b[0] || (a[0] == b[0] && Lt(a[1..], b[1..]))
  }

  predicate Le(a: seq<int>, b: seq<int>) { Lt(a, b) || a == b }

  /** Exactly one of a < b, a == b, b < a. */
  lemma {:induction false} Trichotomy(a: seq<int>, b: seq<int>)
    ensures Lt(a, b) || a == b || Lt(b, a)
    ensures !(Lt(a, b) && Lt(b, a))
    ensures !(Lt(a, b) && a == b)
    decreases |a|
  {
    if |a| > 0 && |b| > 0 && a[0] == b[0] {
      Trichotomy(a[1..], b[1..]);
      if a[1..] == b[1..] {
        assert a == [a[0]] + a[1..] && b == [b[0]] + b[1..];
      }
    }
  }

  lemma {:induction false} Transitive(a: seq<int>, b: seq<int>, c: seq<int>)
    requires Lt(a, b) && Lt(b, c)
    ensures Lt(a, c)
    decreases |a|
  {
    if |a| > 0 && a[0] == b[0] && b[0] == c[0] {
      Transitive(a[1..], b[1..], c[1..]);
    }
  }

  /** `v[:k]` in Python; `slice(v, 0, k)` in the C++ port. */
  function Take<T>(s: seq<T>, k: nat): (r: seq<T>)
    ensures |r| == if k <= |s| then k else |s|
    ensures r == s[..|r|]
  {
    if k <= |s| then s[..k] else s
  }

  /** The first components of a list of pairs (`zip(*pairs)[0]`). */
  function Firsts(s: seq<(int, int)>): (r: seq<int>)
    ensures |r| == |s| && forall i :: 0 <= i < |s| ==> r[i] == s[i].0
  {
    if s == [] then [] else [s[0].0] + Firsts(s[1..])
  }

  /** The second components of a list of pairs (`zip(*pairs)[1]`). */
  function Seconds(s: seq<(int, int)>): (r: seq<int>)
    ensures |r| == |s| && forall i :: 0 <= i < |s| ==> r[i] == s[i].1
  {
    if s == [] then [] else [s[0].1] + Seconds(s[1..])
  }

  function MaxInt(a: int, b: int): int { if a >= b then a else b }

  function SumInts(s: seq<int>): int {
    if s == [] then 0 else s[0] + SumInts(s[1..])
  }

  lemma {:induction false} SumAtLeastLength(s: seq<int>)
    requires forall i :: 0 <= i < |s| ==> s[i] >= 1
    ensures SumInts(s) >= |s|
  {
    if s != [] {
      SumAtLeastLength(s[1..]);
    }
  }

  lemma {:induction false} SumAtMostLength(s: seq<int>)
    requires forall i :: 0 <= i < |s| ==> s[i] <= 1
    ensures SumInts(s) <= |s|
  {
    if s != [] {
      SumAtMostLength(s[1..]);
    }
  }

  // ---------------------------------------------------------------------------
  // Descending sort of (count, rank) pairs, compared as tuples.

  predicate PairGe(p: (int, int), q: (int, int)) {
    p.0 > q.0 || (p.0 == q.0 && p.1 >= q.1)
  }

  predicate PairsDesc(s: seq<(int, int)>) {
    forall i, j :: 0 <= i < j < |s| ==> PairGe(s[i], s[j])
  }

  function InsertPair(p: (int, int), s: seq<(int, int)>): (r: seq<(int, int)>)
    requires PairsDesc(s)
    ensures PairsDesc(r) && multiset(r) == multiset(s) + multiset{p}
    ensures SumInts(Firsts(r)) == SumInts(Firsts(s)) + p.0
  {
    if s == [] then [p]
    else if PairGe(p, s[0]) then [p] + s
    else
      var t := InsertPair(p, s[1..]);
      InsertPairHead(p, s, t);
      [s[0]] + t
  }

  lemma InsertPairHead(p: (int, int), s: seq<(int, int)>, t: seq<(int, int)>)
    requires s != [] && PairsDesc(s) && !PairGe(p, s[0])
    requires PairsDesc(t) && multiset(t) == multiset(s[1..]) + multiset{p}
    ensures PairsDesc([s[0]] + t) && multiset([s[0]] + t) == multiset(s) + multiset{p}
  {
    assert s == [s[0]] + s[1..];
    forall k | 0 <= k < |t|
      ensures PairGe(s[0], t[k])
    {
      assert t[k] in multiset(t);
      if t[k] != p {
        assert t[k] in multiset(s[1..]);
        var m :| 0 <= m < |s[1..]| && s[1..][m] == t[k];
        assert s[m + 1] == t[k];
      }
    }
    var r := [s[0]] + t;
    forall i, j | 0 <= i < j < |r|
      ensures PairGe(r[i], r[j])
    {
      if i == 0 {
        assert r[j] == t[j - 1];
      } else {
        assert r[i] == t[i - 1] && r[j] == t[j - 1];
      }
    }
  }

  /** `sorted(pairs)[::-1]` in Python and `std::sort(..., std::greater<>())` in C++: both give
      the (count, rank) pairs in descending tuple order. */
  function SortPairsDesc(s: seq<(int, int)>): (r: seq<(int, int)>)
    ensures PairsDesc(r) && multiset(r) == multiset(s)
    ensures SumInts(Firsts(r)) == SumInts(Firsts(s))
  {
    if s == [] then []
    else
      assert s == [s[0]] + s[1..];
      InsertPair(s[0], SortPairsDesc(s[1..]))
  }

  // ---------------------------------------------------------------------------
  // Descending sort of integers.

  predicate IntsDesc(s: seq<int>) {
    forall i, j :: 0 <= i < j < |s| ==> s[i] >= s[j]
  }

  function InsertInt(x: int, s: seq<int>): (r: seq<int>)
    requires IntsDesc(s)
    ensures IntsDesc(r) && multiset(r) == multiset(s) + multiset{x}
  {
    if s == [] then [x]
    else if x >= s[0] then [x] + s
    else
      var t := InsertInt(x, s[1..]);
      InsertIntHead(x, s, t);
      [s[0]] + t
  }

  lemma InsertIntHead(x: int, s: seq<int>, t: seq<int>)
    requires s != [] && IntsDesc(s) && x < s[0]
    requires IntsDesc(t) && multiset(t) == multiset(s[1..]) + multiset{x}
    ensures IntsDesc([s[0]] + t) && multiset([s[0]] + t) == multiset(s) + multiset{x}
  {
    assert s == [s[0]] + s[1..];
    forall k | 0 <= k < |t|
      ensures s[0] >= t[k]
    {
      HeadBoundsInserted(x, s, t[k]);
    }
    ConsDesc(s[0], t);
  }

  /** An element of the tail with x inserted is at most the head when x is. */
  lemma HeadBoundsInserted(x: int, s: seq<int>, y: int)
    requires s != [] && IntsDesc(s) && x < s[0]
    requires y in multiset(s[1..]) + multiset{x}
    ensures s[0] >= y
  {
    if y != x {
      assert y in multiset(s[1..]);
      var m :| 0 <= m < |s[1..]| && s[1..][m] == y;
      assert s[m + 1] == y;
    }
  }

  /** A head at least every element of a descending tail keeps the sequence descending. */
  lemma ConsDesc(h: int, t: seq<int>)
    requires IntsDesc(t) && forall k :: 0 <= k < |t| ==> h >= t[k]
    ensures IntsDesc([h] + t)
  {
    var r := [h] + t;
    forall i, j | 0 <= i < j < |r|
      ensures r[i] >= r[j]
    {
      if i == 0 {
        assert r[j] == t[j - 1];
      } else {
        assert r[i] == t[i - 1] && r[j] == t[j - 1];
      }
    }
  }

  /** `sorted(ranks, reverse=True)` / `std::sort(..., std::greater<>())` on ranks. */
  function SortIntsDesc(s: seq<int>): (r: seq<int>)
    ensures IntsDesc(r) && multiset(r) == multiset(s)
  {
    if s == [] then []
    else
      assert s == [s[0]] + s[1..];
      InsertInt(s[0], SortIntsDesc(s[1..]))
  }

  // ---------------------------------------------------------------------------
  // Distinct elements and multiplicities.

  ghost predicate Distinct<T>(s: seq<T>) {
    forall i, j :: 0 <= i < j < |s| ==> s[i] != s[j]
  }

  lemma {:induction false} TwiceInMultiset<T>(s: seq<T>, i: nat, j: nat)
    requires i < j < |s| && s[i] == s[j]
    ensures multiset(s)[s[i]] >= 2
  {
    assert s == s[..j] + s[j..];
    assert s[i] in multiset(s[..j]) by { assert s[..j][i] == s[i]; }
    assert s[j] in multiset(s[j..]) by { assert s[j..][0] == s[j]; }
  }

  lemma {:induction false} DistinctMultiset<T>(s: seq<T>)
    ensures Distinct(s) <==> forall x :: multiset(s)[x] <= 1
  {
    if s == [] {
    } else {
      assert s == [s[0]] + s[1..];
      DistinctMultiset(s[1..]);
      if Distinct(s) {
        assert Distinct(s[1..]);
        assert s[0] !in s[1..];
      }
      if !Distinct(s) {
        var i, j :| 0 <= i < j < |s| && s[i] == s[j];
        TwiceInMultiset(s, i, j);
      }
    }
  }

  lemma {:induction false} DistinctSetSize<T>(s: seq<T>)
    requires Distinct(s)
    ensures |set x | x in s| == |s|
  {
    if s != [] {
      DistinctSetSize(s[1..]);
      assert s[0] !in s[1..];
      assert (set x | x in s) == {s[0]} + (set x | x in s[1..]);
    }
  }

  lemma SubsetSize<T>(a: set<T>, b: set<T>)
    requires a <= b
    ensures |a| <= |b|
  {
    assert b == a + (b - a);
  }

  /** Rearranging elements keeps them distinct. */
  lemma DistinctSameElements<T>(a: seq<T>, b: seq<T>)
    requires Distinct(a) && multiset(a) == multiset(b)
    ensures Distinct(b)
  {
    DistinctMultiset(a);
    DistinctMultiset(b);
  }

  // ---------------------------------------------------------------------------
  // A sorted sequence is determined by its elements.

  lemma PairsDescHeads(a: seq<(int, int)>, b: seq<(int, int)>)
    requires |a| > 0 && |b| > 0 && PairsDesc(a) && PairsDesc(b) && multiset(a) == multiset(b)
    ensures a[0] == b[0]
  {
    assert a[0] in multiset(b) && b[0] in multiset(a);
    var i :| 0 <= i < |b| && b[i] == a[0];
    var j :| 0 <= j < |a| && a[j] == b[0];
    assert PairGe(b[0], a[0]) && PairGe(a[0], b[0]);
  }

  lemma IntsDescHeads(a: seq<int>, b: seq<int>)
    requires |a| > 0 && |b| > 0 && IntsDesc(a) && IntsDesc(b) && multiset(a) == multiset(b)
    ensures a[0] == b[0]
  {
    assert a[0] in multiset(b) && b[0] in multiset(a);
    var i :| 0 <= i < |b| && b[i] == a[0];
    var j :| 0 <= j < |a| && a[j] == b[0];
  }

  /** Removing equal heads leaves equal multisets. */
  lemma TailsSameElements<T>(a: seq<T>, b: seq<T>)
    requires |a| > 0 && |b| > 0 && a[0] == b[0] && multiset(a) == multiset(b)
    ensures multiset(a[1..]) == multiset(b[1..])
  {
    assert a == [a[0]] + a[1..] && b == [b[0]] + b[1..];
    assert multiset(a[1..]) == multiset(a) - multiset{a[0]};
    assert multiset(b[1..]) == multiset(b) - multiset{b[0]};
  }

  lemma {:induction false} PairsDescUnique(a: seq<(int, int)>, b: seq<(int, int)>)
    requires PairsDesc(a) && PairsDesc(b) && multiset(a) == multiset(b)
    ensures a == b
    decreases |a|
  {
    assert |a| == |multiset(a)| == |multiset(b)| == |b|;
    if |a| > 0 {
      PairsDescHeads(a, b);
      TailsSameElements(a, b);
      PairsDescUnique(a[1..], b[1..]);
      assert a == [a[0]] + a[1..] && b == [b[0]] + b[1..];
    }
  }

  lemma {:induction false} IntsDescUnique(a: seq<int>, b: seq<int>)
    requires IntsDesc(a) && IntsDesc(b) && multiset(a) == multiset(b)
    ensures a == b
    decreases |a|
  {
    assert |a| == |multiset(a)| == |multiset(b)| == |b|;
    if |a| > 0 {
      IntsDescHeads(a, b);
      TailsSameElements(a, b);
      IntsDescUnique(a[1..], b[1..]);
      assert a == [a[0]] + a[1..] && b == [b[0]] + b[1..];
    }
  }

  /** Two lists without repeats holding the same elements are rearrangements of each other. */
  lemma DistinctSameSet<T>(a: seq<T>, b: seq<T>)
    requires Distinct(a) && Distinct(b) && forall x :: x in a <==> x in b
    ensures multiset(a) == multiset(b)
  {
    DistinctMultiset(a);
    DistinctMultiset(b);
    forall x ensures multiset(a)[x] == multiset(b)[x] {
      assert (x in a) == (x in multiset(a)) && (x in b) == (x in multiset(b));
      assert multiset(a)[x] <= 1 && multiset(b)[x] <= 1;
    }
  }

  /** ps holds one (count, index) pair for each index with a positive count, and no other. */
  ghost predicate TallyOf(ps: seq<(int, int)>, counts: seq<int>) {
    && (forall i :: 0 <= i < |ps| ==> 0 <= ps[i].1 < |counts| && ps[i].0 == counts[ps[i].1] && ps[i].0 > 0)
    && (forall r :: 0 <= r < |counts| && counts[r] > 0 ==> r in Seconds(ps))
    && Distinct(Seconds(ps))
  }

  /** Two tallies of the same counts are rearrangements of each other. */
  lemma TallyUnique(a: seq<(int, int)>, b: seq<(int, int)>, counts: seq<int>)
    requires TallyOf(a, counts) && TallyOf(b, counts)
    ensures multiset(a) == multiset(b)
  {
    forall p ensures p in a <==> p in b {
      if p in a {
        var i :| 0 <= i < |a| && a[i] == p;
        var k :| 0 <= k < |b| && Seconds(b)[k] == p.1;
        assert b[k] == p;
      }
      if p in b {
        var k :| 0 <= k < |b| && b[k] == p;
        var i :| 0 <= i < |a| && Seconds(a)[i] == p.1;
        assert a[i] == p;
      }
    }
    forall i, j | 0 <= i < j < |a| ensures a[i] != a[j] {
      assert Seconds(a)[i] != Seconds(a)[j];
    }
    forall i, j | 0 <= i < j < |b| ensures b[i] != b[j] {
      assert Seconds(b)[i] != Seconds(b)[j];
    }
    DistinctSameSet(a, b);
  }

  /** Rearranging a tally keeps it a tally. */
  lemma TallyRearranged(a: seq<(int, int)>, b: seq<(int, int)>, counts: seq<int>)
    requires TallyOf(a, counts) && multiset(a) == multiset(b)
    ensures TallyOf(b, counts)
  {
    forall i | 0 <= i < |b| ensures 0 <= b[i].1 < |counts| && b[i].0 == counts[b[i].1] && b[i].0 > 0 {
      assert b[i] in multiset(a);
    }
    forall r | 0 <= r < |counts| && counts[r] > 0 ensures r in Seconds(b) {
      var j :| 0 <= j < |a| && Seconds(a)[j] == r;
      assert a[j] in multiset(b);
      var i :| 0 <= i < |b| && b[i] == a[j];
      assert Seconds(b)[i] == r;
    }
    SecondsDistinctRearranged(a, b);
  }

  lemma SecondsDistinctRearranged(a: seq<(int, int)>, b: seq<(int, int)>)
    requires Distinct(Seconds(a)) && multiset(a) == multiset(b)
    ensures Distinct(Seconds(b))
  {
    forall i, j | 0 <= i < j < |a| ensures a[i] != a[j] {
      assert Seconds(a)[i] != Seconds(a)[j];
    }
    DistinctSameElements(a, b);
    forall i, j | 0 <= i < j < |b| ensures Seconds(b)[i] != Seconds(b)[j] {
      SecondsDiffer(a, b, i, j);
    }
  }

  lemma SecondsDiffer(a: seq<(int, int)>, b: seq<(int, int)>, i: nat, j: nat)
    requires Distinct(Seconds(a)) && Distinct(b) && multiset(a) == multiset(b)
    requires i < j < |b|
    ensures b[i].1 != b[j].1
  {
    assert b[i] in multiset(a) && b[j] in multiset(a);
    var k :| 0 <= k < |a| && a[k] == b[i];
    var l :| 0 <= l < |a| && a[l] == b[j];
    assert k != l;
    assert Seconds(a)[k] != Seconds(a)[l];
  }

  /** The first pair of a descending tally holds the largest count. */
  lemma TallyFirstIsMax(ps: seq<(int, int)>, counts: seq<int>)
    requires TallyOf(ps, counts) && PairsDesc(ps) && ps != []
    ensures forall r :: 0 <= r < |counts| ==> counts[r] <= ps[0].0
  {
    forall r | 0 <= r < |counts| && counts[r] > 0 ensures counts[r] <= ps[0].0 {
      var i :| 0 <= i < |ps| && Seconds(ps)[i] == r;
      if i > 0 {
        assert PairGe(ps[0], ps[i]);
      }
    }
  }

  lemma {:induction false} SumIntsSplit(s: seq<int>, k: nat)
    requires k <= |s|
    ensures SumInts(s) == SumInts(s[..k]) + SumInts(s[k..])
  {
    if k > 0 {
      SumIntsSplit(s[1..], k - 1);
      assert s[1..][..k - 1] == s[..k][1..];
      assert s[1..][k - 1..] == s[k..];
    } else {
      assert s[k..] == s;
    }
  }
}
