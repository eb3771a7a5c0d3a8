/** Generation of the zero-filled period buckets: a cursor starts at the range's first instant and
    is stepped by one period while it is not after the last; each position contributes the bucket
    of its key unless a bucket with that key already exists (the first one is kept). */
module Periods {
  import opened Moments
  import opened Tallies

  /** A generated bucket: its key and the anchor date the view sorts by (`date: minDate.clone()`). */
  datatype Period = Period(key: string, date: int)

  /** Stepping the cursor always moves it forward. */
  ghost predicate Advances(step: int -> int) {
    forall t :: step(t) > t
  }

  /** The successive cursor positions start, step(start), ... that are not after end. */
  function Cursor(start: int, end: int, step: int -> int): seq<int>
    requires Advances(step)
    decreases end - start
  {
    if start > end then [] else [start] + Cursor(step(start), end, step)
  }

  /** The bucket each cursor position would create. */
  function Candidates(ts: seq<int>, keyOf: int -> string): (ps: seq<Period>)
    ensures |ps| == |ts|
    ensures forall i :: 0 <= i < |ts| ==> ps[i] == Period(keyOf(ts[i]), ts[i])
  {
    if |ts| == 0 then [] else Candidates(ts[..|ts| - 1], keyOf) + [Period(keyOf(ts[|ts| - 1]), ts[|ts| - 1])]
  }

  function KeysOf(ps: seq<Period>): (ks: seq<string>)
    ensures |ks| == |ps| && forall i :: 0 <= i < |ps| ==> ks[i] == ps[i].key
  {
    if |ps| == 0 then [] else KeysOf(ps[..|ps| - 1]) + [ps[|ps| - 1].key]
  }

  /** The candidates in order, skipping any whose key an earlier one already has. */
  function FirstByKey(ps: seq<Period>): seq<Period>
  {
    if |ps| == 0 then []
    else
      var kept := FirstByKey(ps[..|ps| - 1]);
      if ps[|ps| - 1].key in KeysOf(kept) then kept else kept + [ps[|ps| - 1]]
  }

  /** The buckets generated for the span [start, end]. */
  function Generated(start: int, end: int, step: int -> int, keyOf: int -> string): seq<Period>
    requires Advances(step)
  {
    FirstByKey(Candidates(Cursor(start, end, step), keyOf))
  }

  /** One more cursor position: its candidate is kept exactly when no kept bucket has its key. */
  lemma FirstByKeySnoc(ts: seq<int>, t: int, keyOf: int -> string)
    ensures var kept := FirstByKey(Candidates(ts, keyOf));
            FirstByKey(Candidates(ts + [t], keyOf)) ==
              if keyOf(t) in KeysOf(kept) then kept else kept + [Period(keyOf(t), t)]
  {
    var cs := Candidates(ts + [t], keyOf);
    assert cs[..|cs| - 1] == Candidates(ts, keyOf);
  }

  lemma CursorUnfold(start: int, end: int, step: int -> int)
    requires Advances(step)
    ensures start <= end ==> Cursor(start, end, step) == [start] + Cursor(step(start), end, step)
    ensures start > end ==> Cursor(start, end, step) == []
  {
  }

  /** One iteration of the generation loop keeps its cursor invariant. */
  lemma CursorStep(start: int, end: int, step: int -> int, visited: seq<int>, cursor: int)
    requires Advances(step) && cursor <= end
    requires Cursor(start, end, step) == visited + Cursor(cursor, end, step)
    ensures Cursor(start, end, step) == (visited + [cursor]) + Cursor(step(cursor), end, step)
  {
    CursorUnfold(cursor, end, step);
    assert visited + ([cursor] + Cursor(step(cursor), end, step)) == (visited + [cursor]) + Cursor(step(cursor), end, step);
  }

  /** The bucket generation loop (`while (minDate <= maxDate) { ... minDate.add(1, ...) }`). */
  method GeneratePeriods(start: int, end: int, step: int -> int, keyOf: int -> string) returns (ps: seq<Period>)
    requires Advances(step)
    ensures ps == Generated(start, end, step, keyOf)
  {
    ps := [];
    var cursor := start;
    ghost var visited: seq<int> := [];
    while cursor <= end
      invariant Cursor(start, end, step) == visited + Cursor(cursor, end, step)
      invariant ps == FirstByKey(Candidates(visited, keyOf))
      decreases end - cursor
    {
      var key := keyOf(cursor);
      CursorStep(start, end, step, visited, cursor);
      FirstByKeySnoc(visited, cursor, keyOf);
      if key !in KeysOf(ps) {
        ps := ps + [Period(key, cursor)];
      }
      visited := visited + [cursor];
      cursor := step(cursor);
    }
    CursorUnfold(cursor, end, step);
    assert visited + [] == visited;
  }

  lemma {:induction false} CursorIncreasing(start: int, end: int, step: int -> int)
    requires Advances(step)
    ensures forall i, j :: 0 <= i < j < |Cursor(start, end, step)| ==>
              Cursor(start, end, step)[i] < Cursor(start, end, step)[j]
    ensures forall i :: 0 <= i < |Cursor(start, end, step)| ==> start <= Cursor(start, end, step)[i] <= end
    decreases end - start
  {
    if start <= end {
      var next := step(start);
      CursorIncreasing(next, end, step);
      assert Cursor(start, end, step) == [start] + Cursor(next, end, step);
    }
  }

  lemma {:induction false} KeysOfFirstByKey(ps: seq<Period>)
    ensures KeysOf(FirstByKey(ps)) == Dedup(KeysOf(ps))
  {
    if |ps| > 0 {
      var p := ps[..|ps| - 1];
      KeysOfFirstByKey(p);
      assert KeysOf(ps)[..|ps| - 1] == KeysOf(p);
      var kept := FirstByKey(p);
      if ps[|ps| - 1].key !in KeysOf(kept) {
        assert (kept + [ps[|ps| - 1]])[..|kept|] == kept;
      }
    }
  }

  lemma {:induction false} FirstByKeyFromCandidates(ps: seq<Period>)
    ensures forall x :: x in FirstByKey(ps) ==> x in ps
  {
    if |ps| > 0 {
      FirstByKeyFromCandidates(ps[..|ps| - 1]);
    }
  }

  /** The kept buckets have distinct keys, one for every key any candidate has. */
  lemma FirstByKeyKeys(ps: seq<Period>)
    ensures Distinct(KeysOf(FirstByKey(ps)))
    ensures forall k :: k in KeysOf(FirstByKey(ps)) <==> k in KeysOf(ps)
  {
    KeysOfFirstByKey(ps);
    DedupDistinct(KeysOf(ps));
    DedupMembers(KeysOf(ps));
  }

  predicate DatesIncreasing(ps: seq<Period>) {
    forall i, j :: 0 <= i < j < |ps| ==> ps[i].date < ps[j].date
  }

  /** Keeping the first candidate of each key keeps their dates in ascending order. */
  lemma {:induction false} FirstByKeyIncreasing(ps: seq<Period>)
    requires DatesIncreasing(ps)
    ensures DatesIncreasing(FirstByKey(ps))
  {
    if |ps| > 0 {
      var p, last := ps[..|ps| - 1], ps[|ps| - 1];
      FirstByKeyIncreasing(p);
      FirstByKeyFromCandidates(p);
      var kept := FirstByKey(p);
      if last.key !in KeysOf(kept) {
        var out := kept + [last];
        forall i, j | 0 <= i < j < |out|
          ensures out[i].date < out[j].date
        {
          assert out[i] == kept[i] && kept[i] in kept;
          var m :| 0 <= m < |p| && p[m] == kept[i];
          if j < |kept| {
            assert out[j] == kept[j];
          }
        }
      }
    }
  }

  /** The kept bucket of a key is the earliest candidate with that key. */
  lemma {:induction false} FirstByKeyEarliest(ps: seq<Period>, x: Period, j: int)
    requires DatesIncreasing(ps)
    requires x in FirstByKey(ps) && 0 <= j < |ps| && ps[j].key == x.key
    ensures x.date <= ps[j].date
  {
    var p, last := ps[..|ps| - 1], ps[|ps| - 1];
    var kept := FirstByKey(p);
    FirstByKeyFromCandidates(p);
    if x in kept {
      if j < |p| {
        FirstByKeyEarliest(p, x, j);
      } else {
        var m :| 0 <= m < |p| && p[m] == x;
      }
    } else {
      assert x == last && last.key !in KeysOf(kept);
      if j < |p| {
        FirstByKeyKeys(p);
        assert false;
      }
    }
  }

  /** Generated buckets are in strictly ascending date order with distinct keys, and a repeated key
      keeps its earliest cursor position. */
  lemma GeneratedInDateOrder(start: int, end: int, step: int -> int, keyOf: int -> string)
    requires Advances(step)
    ensures DatesIncreasing(Generated(start, end, step, keyOf))
    ensures Distinct(KeysOf(Generated(start, end, step, keyOf)))
    ensures forall x, t :: (x in Generated(start, end, step, keyOf) && t in Cursor(start, end, step) &&
                            keyOf(t) == x.key) ==> x.date <= t
  {
    var cur := Cursor(start, end, step);
    CursorIncreasing(start, end, step);
    var cands := Candidates(cur, keyOf);
    FirstByKeyIncreasing(cands);
    FirstByKeyKeys(cands);
    forall x, t | x in Generated(start, end, step, keyOf) && t in cur && keyOf(t) == x.key
      ensures x.date <= t
    {
      var j :| 0 <= j < |cur| && cur[j] == t;
      FirstByKeyEarliest(cands, x, j);
    }
  }

  /** Every cursor position's key has a generated bucket. */
  lemma GeneratedCoversCursor(start: int, end: int, step: int -> int, keyOf: int -> string, t: int)
    requires Advances(step)
    requires t in Cursor(start, end, step)
    ensures keyOf(t) in KeysOf(Generated(start, end, step, keyOf))
  {
    var cur := Cursor(start, end, step);
    var cands := Candidates(cur, keyOf);
    FirstByKeyKeys(cands);
    var j :| 0 <= j < |cur| && cur[j] == t;
    assert KeysOf(cands)[j] == keyOf(t);
  }

  /** With no repeated key, every cursor position gets its own bucket. */
  lemma {:induction false} FirstByKeyOfDistinct(ps: seq<Period>)
    requires Distinct(KeysOf(ps))
    ensures FirstByKey(ps) == ps
  {
    if |ps| > 0 {
      var p := ps[..|ps| - 1];
      assert KeysOf(ps)[..|ps| - 1] == KeysOf(p);
      FirstByKeyOfDistinct(p);
      forall i | 0 <= i < |p|
        ensures KeysOf(p)[i] != ps[|ps| - 1].key
      {
        assert KeysOf(ps)[i] != KeysOf(ps)[|ps| - 1];
      }
      assert ps == p + [ps[|ps| - 1]];
    }
  }

  lemma WeekAdvances(cal: Calendar)
    ensures Advances(Advance(cal, Week))
  {
  }

  /** The week cursor from a Monday s to the Monday e, n weeks later, visits those n + 1 Mondays. */
  lemma {:induction false} WeekCursor(cal: Calendar, s: int, e: int, n: nat)
    requires e == s + n * MinutesPerWeek
    ensures Advances(Advance(cal, Week))
    ensures |Cursor(s, e, Advance(cal, Week))| == n + 1
    ensures forall i :: 0 <= i <= n ==> Cursor(s, e, Advance(cal, Week))[i] == s + i * MinutesPerWeek
    decreases n
  {
    var step := Advance(cal, Week);
    var next := s + MinutesPerWeek;
    assert step(s) == next;
    CursorUnfold(s, e, step);
    CursorUnfold(next, e, step);
    if n > 0 {
      WeekCursor(cal, next, e, n - 1);
      var c := Cursor(s, e, step);
      forall i | 0 < i <= n
        ensures c[i] == s + i * MinutesPerWeek
      {
        assert c[i] == Cursor(next, e, step)[i - 1];
      }
    }
  }

  /** Number of weeks from the week of `from` to the week of `to`. */
  function WeekSpan(from: int, to: int): int {
    (DayNumber(to) + 3) / 7 - (DayNumber(from) + 3) / 7
  }

  lemma WeekSpanGrid(from: int, to: int)
    requires from <= to
    ensures WeekSpan(from, to) >= 0
    ensures StartOfIsoWeek(to) == StartOfIsoWeek(from) + WeekSpan(from, to) * MinutesPerWeek
  {
    StartOfIsoWeekGrid(from);
    StartOfIsoWeekGrid(to);
    StartOfIsoWeekMonotone(from, to);
  }

  /** The week buckets of [from, to]: the cursor visits every Monday from the week of `from` to
      the week of `to`, one week apart, and when no two of those Mondays share a key each of them
      gets its own bucket. */
  lemma WeekBucketsPerWeek(cal: Calendar, from: int, to: int)
    requires from <= to
    ensures Advances(Advance(cal, Week))
    ensures var cur := Cursor(StartOfIsoWeek(from), StartOfIsoWeek(to), Advance(cal, Week));
            |cur| == WeekSpan(from, to) + 1 &&
            (forall i :: 0 <= i <= WeekSpan(from, to) ==> cur[i] == StartOfIsoWeek(from) + i * MinutesPerWeek)
    ensures var cands := Candidates(Cursor(StartOfIsoWeek(from), StartOfIsoWeek(to), Advance(cal, Week)), KeyOf(cal, Week));
            Distinct(KeysOf(cands)) ==>
              Generated(StartOfIsoWeek(from), StartOfIsoWeek(to), Advance(cal, Week), KeyOf(cal, Week)) == cands
  {
    WeekSpanGrid(from, to);
    WeekCursor(cal, StartOfIsoWeek(from), StartOfIsoWeek(to), WeekSpan(from, to));
    var cands := Candidates(Cursor(StartOfIsoWeek(from), StartOfIsoWeek(to), Advance(cal, Week)), KeyOf(cal, Week));
    if Distinct(KeysOf(cands)) {
      FirstByKeyOfDistinct(cands);
    }
  }

  /** The calendar gives every instant of an ISO week the key of that week's Monday. */
  ghost predicate WeekCoherent(cal: Calendar) {
    forall t {:trigger StartOfIsoWeek(t)} :: WeekKey(cal, t) == WeekKey(cal, StartOfIsoWeek(t))
  }

  /** Under a week-coherent calendar, every instant of [from, to] has a generated week bucket. */
  lemma WeekBucketExists(cal: Calendar, from: int, to: int, t: int)
    requires WeekCoherent(cal)
    requires from <= t <= to
    ensures Advances(Advance(cal, Week))
    ensures KeyOf(cal, Week)(t) in
              KeysOf(Generated(StartOfIsoWeek(from), StartOfIsoWeek(to), Advance(cal, Week), KeyOf(cal, Week)))
  {
    var s, e, m := StartOfIsoWeek(from), StartOfIsoWeek(to), StartOfIsoWeek(t);
    WeekSpanGrid(from, t);
    WeekSpanGrid(t, to);
    WeekSpanGrid(from, to);
    var k, n := WeekSpan(from, t), WeekSpan(from, to);
    assert n == k + WeekSpan(t, to);
    WeekCursor(cal, s, e, n);
    var cur := Cursor(s, e, Advance(cal, Week));
    assert cur[k] == m;
    GeneratedCoversCursor(s, e, Advance(cal, Week), KeyOf(cal, Week), m);
    assert WeekKey(cal, t) == WeekKey(cal, m);
  }
}
