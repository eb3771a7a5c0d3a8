/** Counting over sequences, and the first-appearance order of distinct values: what the buckets'
    counters and the `respondersMap` keys hold after the aggregation loops. */
module Tallies {

  /** How many elements of s lie in xs. */
  function Count<T(==)>(s: seq<T>, xs: set<T>): nat
  {
    if |s| == 0 then 0 else Count(s[..|s| - 1], xs) + (if s[|s| - 1] in xs then 1 else 0)
  }

  /** How many times x occurs in s. */
  function Tally<T(==)>(s: seq<T>, x: T): nat
  {
    Count(s, {x})
  }

  lemma CountSnoc<T>(s: seq<T>, x: T, xs: set<T>)
    ensures Count(s + [x], xs) == Count(s, xs) + (if x in xs then 1 else 0)
  {
    assert (s + [x])[..|s|] == s;
  }

  lemma {:induction false} CountDisjointUnion<T>(s: seq<T>, xs: set<T>, ys: set<T>)
    requires xs !! ys
    ensures Count(s, xs + ys) == Count(s, xs) + Count(s, ys)
  {
    if |s| > 0 {
      CountDisjointUnion(s[..|s| - 1], xs, ys);
    }
  }

  lemma {:induction false} CountAtMost<T>(s: seq<T>, xs: set<T>)
    ensures Count(s, xs) <= |s|
    ensures (forall i :: 0 <= i < |s| ==> s[i] in xs) ==> Count(s, xs) == |s|
  {
    if |s| > 0 {
      CountAtMost(s[..|s| - 1], xs);
    }
  }

  lemma {:induction false} CountSubset<T>(s: seq<T>, xs: set<T>, ys: set<T>)
    requires xs <= ys
    ensures Count(s, xs) <= Count(s, ys)
  {
    if |s| > 0 {
      CountSubset(s[..|s| - 1], xs, ys);
    }
  }

  lemma {:induction false} CountNone<T>(s: seq<T>)
    ensures Count(s, {}) == 0
  {
    if |s| > 0 {
      CountNone(s[..|s| - 1]);
    }
  }

  predicate Distinct<T(==)>(s: seq<T>) {
    forall i, j :: 0 <= i < j < |s| ==> s[i] != s[j]
  }

  /** The values s holds. */
  function Elements<T(==)>(s: seq<T>): set<T> {
    set x | x in s
  }

  /** Tally(s, ks[0]) + ... + Tally(s, ks[|ks| - 1]). */
  function SumTally<T(==)>(s: seq<T>, ks: seq<T>): nat
  {
    if |ks| == 0 then 0 else Tally(s, ks[0]) + SumTally(s, ks[1..])
  }

  /** Summing the tallies of distinct values counts each element of s at most once. */
  lemma {:induction false} SumTallyIsCount<T>(s: seq<T>, ks: seq<T>)
    requires Distinct(ks)
    ensures SumTally(s, ks) == Count(s, Elements(ks))
  {
    if |ks| == 0 {
      assert Elements(ks) == {};
      CountNone(s);
    } else {
      SumTallyIsCount(s, ks[1..]);
      var rest := Elements(ks[1..]);
      assert Elements(ks) == {ks[0]} + rest;
      assert ks[0] !in rest;
      CountDisjointUnion(s, {ks[0]}, rest);
    }
  }

  /** Conservation: when every element of s is one of the distinct values ks, their tallies
      add up to |s|; in any case they add up to no more than |s|. */
  lemma Conservation<T>(s: seq<T>, ks: seq<T>)
    requires Distinct(ks)
    ensures SumTally(s, ks) <= |s|
    ensures (forall i :: 0 <= i < |s| ==> s[i] in ks) ==> SumTally(s, ks) == |s|
  {
    SumTallyIsCount(s, ks);
    CountAtMost(s, Elements(ks));
  }

  /** f(out[0]) + ... + f(out[|out| - 1]). */
  function SumOf<T>(out: seq<T>, f: T -> int): int
  {
    if |out| == 0 then 0 else f(out[0]) + SumOf(out[1..], f)
  }

  /** A sequence of data points whose i-th value is the tally of ks[i] sums to SumTally(s, ks). */
  lemma {:induction false} SumOfTallies<T, U>(out: seq<T>, f: T -> int, s: seq<U>, ks: seq<U>)
    requires |out| == |ks|
    requires forall i :: 0 <= i < |out| ==> f(out[i]) == Tally(s, ks[i])
    ensures SumOf(out, f) == SumTally(s, ks)
  {
    if |out| > 0 {
      SumOfTallies(out[1..], f, s, ks[1..]);
    }
  }

  /** The distinct elements of s in order of first appearance. */
  function Dedup<T(==)>(s: seq<T>): seq<T>
  {
    if |s| == 0 then []
    else
      var d := Dedup(s[..|s| - 1]);
      if s[|s| - 1] in d then d else d + [s[|s| - 1]]
  }

  lemma DedupSnoc<T>(s: seq<T>, x: T)
    ensures Dedup(s + [x]) == if x in Dedup(s) then Dedup(s) else Dedup(s) + [x]
  {
    assert (s + [x])[..|s|] == s;
  }

  lemma {:induction false} DedupMembers<T>(s: seq<T>)
    ensures forall x :: x in Dedup(s) <==> x in s
  {
    if |s| > 0 {
      DedupMembers(s[..|s| - 1]);
      assert s == s[..|s| - 1] + [s[|s| - 1]];
    }
  }

  /** Position of the first occurrence of x in s. */
  function IndexOf<T(==)>(s: seq<T>, x: T): (i: nat)
    requires x in s
    ensures i < |s| && s[i] == x
    ensures forall j :: 0 <= j < i ==> s[j] != x
  {
    if s[0] == x then 0 else 1 + IndexOf(s[1..], x)
  }

  lemma {:induction false} IndexOfExtend<T>(s: seq<T>, y: T, x: T)
    requires x in s
    ensures x in s + [y] && IndexOf(s + [y], x) == IndexOf(s, x)
  {
    if s[0] != x {
      assert (s + [y])[1..] == s[1..] + [y];
      IndexOfExtend(s[1..], y, x);
    }
  }

  lemma {:induction false} IndexOfLast<T>(s: seq<T>, x: T)
    requires x !in s
    ensures x in s + [x] && IndexOf(s + [x], x) == |s|
  {
    if |s| > 0 {
      assert (s + [x])[1..] == s[1..] + [x];
      IndexOfLast(s[1..], x);
    }
  }

  lemma {:induction false} DedupDistinct<T>(s: seq<T>)
    ensures Distinct(Dedup(s))
  {
    if |s| > 0 {
      DedupDistinct(s[..|s| - 1]);
    }
  }

  /** Dedup lists the values of s in the order in which they first appear in s. */
  lemma {:induction false} DedupOrder<T>(s: seq<T>)
    ensures forall x :: x in Dedup(s) ==> x in s
    ensures forall i, j :: 0 <= i < j < |Dedup(s)| ==> IndexOf(s, Dedup(s)[i]) < IndexOf(s, Dedup(s)[j])
  {
    DedupMembers(s);
    if |s| > 0 {
      var p, y := s[..|s| - 1], s[|s| - 1];
      assert s == p + [y];
      DedupOrder(p);
      DedupMembers(p);
      var d := Dedup(p);
      forall x | x in p
        ensures x in s && IndexOf(s, x) == IndexOf(p, x)
      {
        IndexOfExtend(p, y, x);
      }
      if y !in d {
        IndexOfLast(p, y);
        var e := d + [y];
        forall i, j | 0 <= i < j < |e|
          ensures IndexOf(s, e[i]) < IndexOf(s, e[j])
        {
          assert e[i] == d[i] && d[i] in d;
          if j == |d| {
            assert IndexOf(s, e[i]) == IndexOf(p, e[i]) < |p|;
          } else {
            assert e[j] == d[j] && d[j] in d;
          }
        }
      }
    }
  }

  /** Dedup lists every value of s exactly once, in order of first appearance. */
  lemma DedupSpec<T>(s: seq<T>)
    ensures Distinct(Dedup(s))
    ensures forall x :: x in Dedup(s) <==> x in s
    ensures forall i, j :: 0 <= i < j < |Dedup(s)| ==> IndexOf(s, Dedup(s)[i]) < IndexOf(s, Dedup(s)[j])
  {
    DedupDistinct(s);
    DedupMembers(s);
    DedupOrder(s);
  }

  /** The union of a sequence of sets. */
  function UnionOf<U>(sets: seq<set<U>>): set<U>
  {
    if |sets| == 0 then {} else sets[0] + UnionOf(sets[1..])
  }

  lemma {:induction false} UnionOfMember<U>(sets: seq<set<U>>, x: U)
    ensures x in UnionOf(sets) <==> exists i :: 0 <= i < |sets| && x in sets[i]
  {
    if |sets| > 0 {
      UnionOfMember(sets[1..], x);
      if x in UnionOf(sets[1..]) {
        var i :| 0 <= i < |sets[1..]| && x in sets[1..][i];
        assert x in sets[i + 1];
      }
      if exists i :: 0 <= i < |sets| && x in sets[i] {
        var i :| 0 <= i < |sets| && x in sets[i];
        if i > 0 {
          assert x in sets[1..][i - 1];
        }
      }
    }
  }

  /** Data points whose i-th value counts the elements of s in the i-th of a family of pairwise
      disjoint sets sum to the count of elements in their union, so to no more than |s|. */
  lemma {:induction false} SumOfDisjointCounts<T, U>(out: seq<T>, f: T -> int, s: seq<U>, sets: seq<set<U>>)
    requires |out| == |sets|
    requires forall i :: 0 <= i < |out| ==> f(out[i]) == Count(s, sets[i])
    requires forall i, j :: 0 <= i < j < |sets| ==> sets[i] !! sets[j]
    ensures SumOf(out, f) == Count(s, UnionOf(sets))
    ensures SumOf(out, f) <= |s|
  {
    if |out| == 0 {
      CountNone(s);
    } else {
      SumOfDisjointCounts(out[1..], f, s, sets[1..]);
      forall x | x in sets[0]
        ensures x !in UnionOf(sets[1..])
      {
        UnionOfMember(sets[1..], x);
        forall i | 0 <= i < |sets[1..]|
          ensures x !in sets[1..][i]
        {
          assert sets[1..][i] == sets[i + 1];
        }
      }
      CountDisjointUnion(s, sets[0], UnionOf(sets[1..]));
    }
    CountAtMost(s, UnionOf(sets));
  }

  /** The first components of a sequence of pairs. */
  function Firsts<A, B>(ps: seq<(A, B)>): (fs: seq<A>)
    ensures |fs| == |ps| && forall i :: 0 <= i < |ps| ==> fs[i] == ps[i].0
  {
    if |ps| == 0 then [] else Firsts(ps[..|ps| - 1]) + [ps[|ps| - 1].0]
  }

  /** The pairs (k, b) with b in bs. */
  function PairsWith<A(==), B(==)>(k: A, bs: set<B>): set<(A, B)> {
    set b | b in bs :: (k, b)
  }

  /** When every second component lies in bs, the pairs (k, b) with b in bs are exactly the pairs
      whose first component is k. */
  lemma {:induction false} CountByFirst<A, B>(ps: seq<(A, B)>, k: A, bs: set<B>)
    requires forall i :: 0 <= i < |ps| ==> ps[i].1 in bs
    ensures Count(ps, PairsWith(k, bs)) == Tally(Firsts(ps), k)
  {
    if |ps| > 0 {
      var p := ps[..|ps| - 1];
      CountByFirst(p, k, bs);
      assert Firsts(ps)[..|ps| - 1] == Firsts(p);
      var last := ps[|ps| - 1];
      assert last in PairsWith(k, bs) <==> last.0 == k by {
        if last.0 == k {
          assert last == (k, last.1);
        }
      }
    }
  }

  /** The positions of s holding a member of xs. */
  function Positions<T(==)>(s: seq<T>, xs: set<T>): set<int> {
    set i | 0 <= i < |s| && s[i] in xs
  }

  /** Count against its reference definition: the number of positions holding a member of xs. */
  lemma {:induction false} CountIsCardinality<T>(s: seq<T>, xs: set<T>)
    ensures Count(s, xs) == |Positions(s, xs)|
  {
    if |s| > 0 {
      var n := |s| - 1;
      var p := s[..n];
      CountIsCardinality(p, xs);
      var before := Positions(p, xs);
      var all := Positions(s, xs);
      if s[n] in xs {
        assert all == before + {n};
        assert n !in before;
      } else {
        assert all == before;
      }
    }
  }

  /** The pairs (k, bs[0]), ..., (k, bs[|bs| - 1]). */
  function PairUp<A, B>(k: A, bs: seq<B>): (ps: seq<(A, B)>)
    ensures |ps| == |bs| && forall i :: 0 <= i < |bs| ==> ps[i] == (k, bs[i])
  {
    if |bs| == 0 then [] else [(k, bs[0])] + PairUp(k, bs[1..])
  }

  /** When every second component is one of the distinct values bs, the tallies of the pairs
      (k, b) add up to the tally of k among the first components. */
  lemma SumTallyPairs<A, B>(s: seq<(A, B)>, k: A, bs: seq<B>)
    requires Distinct(bs)
    requires forall i :: 0 <= i < |s| ==> s[i].1 in bs
    ensures SumTally(s, PairUp(k, bs)) == Tally(Firsts(s), k)
  {
    var ps := PairUp(k, bs);
    assert Distinct(ps) by {
      forall i, j | 0 <= i < j < |ps|
        ensures ps[i] != ps[j]
      {
        assert bs[i] != bs[j];
      }
    }
    SumTallyIsCount(s, ps);
    forall x
      ensures x in Elements(ps) <==> x in PairsWith(k, Elements(bs))
    {
      if x in Elements(ps) {
        var i :| 0 <= i < |ps| && ps[i] == x;
        assert bs[i] in Elements(bs);
      }
      if x in PairsWith(k, Elements(bs)) {
        var b :| b in Elements(bs) && x == (k, b);
        var i :| 0 <= i < |bs| && bs[i] == b;
        assert ps[i] == x;
      }
    }
    assert Elements(ps) == PairsWith(k, Elements(bs));
    assert forall i :: 0 <= i < |s| ==> s[i].1 in Elements(bs);
    CountByFirst(s, k, Elements(bs));
  }
}
