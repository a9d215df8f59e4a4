/** The editor's timed objects, reduced to what the check runner and the
    wrappers observe: an identity, a kind and two time positions. */
module TimedObjects {

  /** Reference identity of an object in the editor. */
  type ObjId = nat

  /** The object categories a check receives; colour notes and bombs share the
      one note container. */
  datatype Kind = ColorNote | Bomb | Arc | Chain | Wall | Event | CustomEvent | BpmEvent

  /** `jsonTime` is the beat position the object lists are ordered by;
      `songBpmTime` is where the editor seeks to when the object is selected.
      Both stand for float beats and are modelled as an ordered key. */
  datatype TimedObject = TimedObject(id: ObjId, kind: Kind, jsonTime: real, songBpmTime: real)

  /** The objects of `s` of the given kind, in their original order: LINQ's
      `Where(it => it is K)`. */
  function OfKind(s: seq<TimedObject>, k: Kind): (r: seq<TimedObject>)
    ensures forall o :: o in r <==> o in s && o.kind == k
    ensures |r| <= |s|
    decreases |s|
  {
    if |s| == 0 then []
    else (if s[0].kind == k then [s[0]] else []) + OfKind(s[1..], k)
  }

  /** The filter keeps every object of the kind as many times as it occurs,
      and no other object. */
  lemma {:induction false} OfKindCounts(s: seq<TimedObject>, k: Kind)
    ensures forall o :: multiset(OfKind(s, k))[o] == (if o.kind == k then multiset(s)[o] else 0)
    decreases |s|
  {
    if |s| > 0 {
      assert s == [s[0]] + s[1..];
      OfKindCounts(s[1..], k);
    }
  }

  lemma OfKindCons(x: TimedObject, s: seq<TimedObject>, k: Kind)
    ensures OfKind([x] + s, k) == (if x.kind == k then [x] else []) + OfKind(s, k)
  {
    assert ([x] + s)[1..] == s;
  }

  /** Filtering a concatenation filters each part and keeps them in order, so
      the filter keeps the input order of the objects it retains. */
  lemma {:induction false} OfKindAppend(a: seq<TimedObject>, b: seq<TimedObject>, k: Kind)
    ensures OfKind(a + b, k) == OfKind(a, k) + OfKind(b, k)
    decreases |a|
  {
    if |a| == 0 {
      assert a + b == b;
    } else {
      assert a == [a[0]] + a[1..];
      OfKindAppend(a[1..], b, k);
      OfKindAppendStep(a[0], a[1..], b, k);
    }
  }

  lemma OfKindAppendStep(x: TimedObject, rest: seq<TimedObject>, b: seq<TimedObject>, k: Kind)
    requires OfKind(rest + b, k) == OfKind(rest, k) + OfKind(b, k)
    ensures OfKind([x] + rest + b, k) == OfKind([x] + rest, k) + OfKind(b, k)
  {
    ConcatAssoc([x], rest, b);
    OfKindCons(x, rest + b, k);
    OfKindCons(x, rest, k);
    ConcatAssoc(if x.kind == k then [x] else [], OfKind(rest, k), OfKind(b, k));
  }

  lemma ConcatAssoc<T>(a: seq<T>, b: seq<T>, c: seq<T>)
    ensures a + b + c == a + (b + c)
  {
  }
}
