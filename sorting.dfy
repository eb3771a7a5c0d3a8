/** Array.prototype.sort with a numeric comparator, as sortByDate and the hour and weekday views
    call it: an in-place sort ordering the points by an integer key. Array.prototype.sort is also
    stable, which no contract here states: every view sorts points with distinct keys, and
    SortedPermutationUnique shows that such points have only one sorted order. */
module Sorting {

  predicate SortedBy<T>(s: seq<T>, key: T -> int) {
    forall i, j :: 0 <= i < j < |s| ==> key(s[i]) <= key(s[j])
  }

  predicate StrictlyIncreasingBy<T>(s: seq<T>, key: T -> int) {
    forall i, j :: 0 <= i < j < |s| ==> key(s[i]) < key(s[j])
  }

  method Swap<T>(a: array<T>, i: int, j: int)
    requires 0 <= i < a.Length && 0 <= j < a.Length
    modifies a
    ensures a[i] == old(a[j]) && a[j] == old(a[i])
    ensures forall m :: 0 <= m < a.Length && m != i && m != j ==> a[m] == old(a[m])
    ensures multiset(a[..]) == old(multiset(a[..]))
  {
    a[i], a[j] := a[j], a[i];
  }

  /** Insertion sort by key; sorts a in place. */
  method SortBy<T>(a: array<T>, key: T -> int)
    modifies a
    ensures SortedBy(a[..], key)
    ensures multiset(a[..]) == old(multiset(a[..]))
  {
    var i := 0;
    while i < a.Length
      invariant 0 <= i <= a.Length
      invariant SortedBy(a[..i], key)
      invariant multiset(a[..]) == old(multiset(a[..]))
    {
      var j := i;
      while j > 0 && key(a[j - 1]) > key(a[j])
        invariant 0 <= j <= i
        invariant forall p, q :: 0 <= p < q <= i && p != j && q != j ==> key(a[p]) <= key(a[q])
        invariant forall q :: j < q <= i ==> key(a[j]) < key(a[q])
        invariant 0 < j < i ==> key(a[j - 1]) <= key(a[j + 1])
        invariant multiset(a[..]) == old(multiset(a[..]))
      {
        Swap(a, j - 1, j);
        j := j - 1;
      }
      i := i + 1;
    }
  }

  /** sortByDate and data.sort on a fresh copy: the points in key order, the same points as given. */
  method SortSeq<T>(data: seq<T>, key: T -> int) returns (sorted: seq<T>)
    ensures SortedBy(sorted, key)
    ensures multiset(sorted) == multiset(data)
  {
    var a := new T[|data|](i requires 0 <= i < |data| => data[i]);
    assert a[..] == data;
    SortBy(a, key);
    sorted := a[..];
  }

  /** A sorted rearrangement of a sequence whose keys strictly increase is that sequence:
      sorting points that are already in key order leaves them where they are. */
  lemma {:induction false} SortedPermutationUnique<T>(s: seq<T>, t: seq<T>, key: T -> int)
    requires StrictlyIncreasingBy(s, key)
    requires SortedBy(t, key)
    requires multiset(s) == multiset(t)
    ensures s == t
    decreases |s|
  {
    assert |s| == |multiset(s)| == |multiset(t)| == |t|;
    if |s| > 0 {
      assert t[0] in multiset(s);
      var k :| 0 <= k < |s| && s[k] == t[0];
      assert s[0] in multiset(t);
      var m :| 0 <= m < |t| && t[m] == s[0];
      assert key(s[0]) <= key(s[k]) == key(t[0]) <= key(t[m]) == key(s[0]);
      assert k == 0;
      assert s == [s[0]] + s[1..];
      assert t == [s[0]] + t[1..];
      assert multiset(s) == multiset{s[0]} + multiset(s[1..]);
      assert multiset(t) == multiset{s[0]} + multiset(t[1..]);
      assert multiset(s[1..]) == multiset(s) - multiset{s[0]};
      assert multiset(t[1..]) == multiset(t) - multiset{s[0]};
      SortedPermutationUnique(s[1..], t[1..], key);
    }
  }
}
