/** LINQ's `OrderBy(it => it.JsonTime)`: a stable sort by time. */
module StableSort {
  import opened TimedObjects

  predicate Sorted(s: seq<TimedObject>) {
    forall i, j :: 0 <= i < j < |s| ==> s[i].jsonTime <= s[j].jsonTime
  }

  /** The subsequence of `s` whose objects sit at time `t`. */
  function AtTime(s: seq<TimedObject>, t: real): seq<TimedObject>
    decreases |s|
  {
    if |s| == 0 then []
    else (if s[0].jsonTime == t then [s[0]] else []) + AtTime(s[1..], t)
  }

  /** `r` is what a stable sort of `s` by time produces: `r` is ordered by time
      and, at every time, keeps the objects of `s` at that time in their input
      order. Together these determine `r` (see StableSortUnique). */
  ghost predicate StableSortOf(r: seq<TimedObject>, s: seq<TimedObject>) {
    && Sorted(r)
    && forall t :: AtTime(r, t) == AtTime(s, t)
  }

  lemma AtTimeCons(x: TimedObject, s: seq<TimedObject>, t: real)
    ensures AtTime([x] + s, t) == (if x.jsonTime == t then [x] else []) + AtTime(s, t)
  {
    assert ([x] + s)[1..] == s;
  }

  /** Places `x` after every object strictly earlier than it and before the
      rest, so that it stays ahead of the equal-time objects that followed it
      in the input. */
  function Insert(x: TimedObject, s: seq<TimedObject>): (r: seq<TimedObject>)
    requires Sorted(s)
    ensures Sorted(r)
    ensures multiset(r) == multiset(s) + multiset{x}
    ensures forall t :: AtTime(r, t) == AtTime([x] + s, t)
    decreases |s|
  {
    if |s| == 0 || x.jsonTime <= s[0].jsonTime then
      [x] + s
    else
      var rest := Insert(x, s[1..]);
      InsertStep(x, s, rest);
      [s[0]] + rest
  }

  lemma InsertStep(x: TimedObject, s: seq<TimedObject>, rest: seq<TimedObject>)
    requires Sorted(s) && |s| > 0 && s[0].jsonTime < x.jsonTime
    requires Sorted(rest)
    requires multiset(rest) == multiset(s[1..]) + multiset{x}
    requires forall t :: AtTime(rest, t) == AtTime([x] + s[1..], t)
    ensures Sorted([s[0]] + rest)
    ensures multiset([s[0]] + rest) == multiset(s) + multiset{x}
    ensures forall t :: AtTime([s[0]] + rest, t) == AtTime([x] + s, t)
  {
    assert s == [s[0]] + s[1..];
    InsertStepSorted(x, s, rest);
    forall t
      ensures AtTime([s[0]] + rest, t) == AtTime([x] + s, t)
    {
      InsertStepAt(x, s, rest, t);
    }
  }

  lemma InsertStepSorted(x: TimedObject, s: seq<TimedObject>, rest: seq<TimedObject>)
    requires Sorted(s) && |s| > 0 && s[0].jsonTime < x.jsonTime
    requires Sorted(rest)
    requires multiset(rest) == multiset(s[1..]) + multiset{x}
    ensures Sorted([s[0]] + rest)
  {
    var r := [s[0]] + rest;
    forall j | 0 < j < |r|
      ensures s[0].jsonTime <= r[j].jsonTime
    {
      assert r[j] == rest[j - 1];
      assert r[j] in multiset(rest);
      if r[j] != x {
        assert r[j] in multiset(s[1..]);
        var k :| 0 <= k < |s[1..]| && s[1..][k] == r[j];
        assert s[k + 1] == r[j];
      }
    }
    forall i, j | 0 <= i < j < |r|
      ensures r[i].jsonTime <= r[j].jsonTime
    {
      if i > 0 {
        assert r[i] == rest[i - 1] && r[j] == rest[j - 1];
      }
    }
  }

  lemma InsertStepAt(x: TimedObject, s: seq<TimedObject>, rest: seq<TimedObject>, t: real)
    requires |s| > 0 && s[0].jsonTime < x.jsonTime
    requires AtTime(rest, t) == AtTime([x] + s[1..], t)
    ensures AtTime([s[0]] + rest, t) == AtTime([x] + s, t)
  {
    assert s == [s[0]] + s[1..];
    AtTimeCons(s[0], rest, t);
    AtTimeCons(x, s[1..], t);
    AtTimeCons(x, s, t);
    AtTimeCons(s[0], s[1..], t);
  }

  /** Insertion sort from the back: each object is inserted ahead of the
      equal-time objects that followed it. */
  function SortByTime(s: seq<TimedObject>): (r: seq<TimedObject>)
    ensures StableSortOf(r, s)
    ensures multiset(r) == multiset(s)
    decreases |s|
  {
    if |s| == 0 then []
    else
      var rest := SortByTime(s[1..]);
      var r := Insert(s[0], rest);
      assert s == [s[0]] + s[1..];
      assert forall t :: AtTime(r, t) == AtTime(s, t) by {
        forall t
          ensures AtTime(r, t) == AtTime(s, t)
        {
          AtTimeCons(s[0], rest, t);
          AtTimeCons(s[0], s[1..], t);
        }
      }
      r
  }

  lemma AtTimeAbsent(s: seq<TimedObject>, t: real)
    requires forall i :: 0 <= i < |s| ==> s[i].jsonTime != t
    ensures AtTime(s, t) == []
    decreases |s|
  {
    if |s| > 0 {
      AtTimeAbsent(s[1..], t);
    }
  }

  /** Two time-ordered sequences that agree at every time are equal. */
  lemma {:induction false} SortedAgreeingEqual(a: seq<TimedObject>, b: seq<TimedObject>)
    requires Sorted(a) && Sorted(b)
    requires forall t :: AtTime(a, t) == AtTime(b, t)
    ensures a == b
    decreases |a| + |b|
  {
    if |a| == 0 && |b| == 0 {
      return;
    }
    if |a| == 0 || (|b| > 0 && b[0].jsonTime < a[0].jsonTime) {
      // b's first object has no counterpart at its time in a
      var t := b[0].jsonTime;
      AtTimeCons(b[0], b[1..], t);
      assert b == [b[0]] + b[1..];
      AtTimeAbsent(a, t);
      assert false;
    }
    if |b| == 0 || a[0].jsonTime < b[0].jsonTime {
      var t := a[0].jsonTime;
      AtTimeCons(a[0], a[1..], t);
      assert a == [a[0]] + a[1..];
      AtTimeAbsent(b, t);
      assert false;
    }
    assert a == [a[0]] + a[1..];
    assert b == [b[0]] + b[1..];
    var t0 := a[0].jsonTime;
    assert b[0].jsonTime == t0;
    AtTimeCons(a[0], a[1..], t0);
    AtTimeCons(b[0], b[1..], t0);
    assert AtTime(a, t0)[0] == a[0] && AtTime(b, t0)[0] == b[0];
    assert a[0] == b[0];
    forall t
      ensures AtTime(a[1..], t) == AtTime(b[1..], t)
    {
      AtTimeCons(a[0], a[1..], t);
      AtTimeCons(b[0], b[1..], t);
      var head := if t == t0 then [a[0]] else [];
      assert AtTime(a, t) == head + AtTime(a[1..], t);
      assert AtTime(b, t) == head + AtTime(b[1..], t);
      assert AtTime(a[1..], t) == AtTime(a, t)[|head|..];
      assert AtTime(b[1..], t) == AtTime(b, t)[|head|..];
    }
    SortedAgreeingEqual(a[1..], b[1..]);
  }

  /** A stable sort's output is determined by its input: `StableSortOf` is a
      complete description of OrderBy. */
  lemma StableSortUnique(r1: seq<TimedObject>, r2: seq<TimedObject>, s: seq<TimedObject>)
    requires StableSortOf(r1, s) && StableSortOf(r2, s)
    ensures r1 == r2
  {
    SortedAgreeingEqual(r1, r2);
  }
}
