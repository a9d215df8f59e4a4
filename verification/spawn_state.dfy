/** The spawn state machine every object wrapper shares: a wrapped object,
    the `spawned` flag, and the editor's live collection for that object kind.

    The live collection maps an object's identity to the field values it was
    indexed under when it was inserted. A wrapper is consistent when it is
    spawned exactly when its object is in the collection, and a spawned
    object's entry matches its current fields. Removing the object before
    every field write is what keeps the second half true. */
module SpawnState {
  import opened TimedObjects

  type Live<F> = map<ObjId, F>

  datatype Wrapped<F> = Wrapped(id: ObjId, fields: F, spawned: bool, live: Live<F>)

  predicate Consistent<F(==)>(w: Wrapped<F>) {
    && (w.spawned <==> w.id in w.live)
    && (w.spawned ==> w.live[w.id] == w.fields)
  }

  /** A guarded transition: `changed` is the `bool` SpawnObject and
      DeleteObject return. */
  datatype Step<F> = Step(changed: bool, after: Wrapped<F>)

  /** SpawnObject: refuses when already spawned; otherwise inserts the object
      under its current fields and sets `spawned`. */
  function Spawn<F(==)>(w: Wrapped<F>): (s: Step<F>)
    ensures s.changed <==> !w.spawned
    ensures s.after.spawned && s.after.id == w.id && s.after.fields == w.fields
    ensures !s.changed ==> s.after == w
    ensures s.changed ==> w.id in s.after.live && s.after.live[w.id] == w.fields
    ensures s.changed ==> forall i :: i != w.id ==> (i in s.after.live <==> i in w.live)
    ensures s.changed ==> forall i :: i != w.id && i in w.live ==> s.after.live[i] == w.live[i]
    ensures Consistent(w) ==> Consistent(s.after)
  {
    if w.spawned then Step(false, w)
    else Step(true, w.(spawned := true, live := w.live[w.id := w.fields]))
  }

  /** DeleteObject: refuses when not spawned; otherwise removes the object
      and clears `spawned`. */
  function Delete<F(==)>(w: Wrapped<F>): (s: Step<F>)
    ensures s.changed <==> w.spawned
    ensures !s.after.spawned && s.after.id == w.id && s.after.fields == w.fields
    ensures !s.changed ==> s.after == w
    ensures s.changed ==> w.id !in s.after.live
    ensures s.changed ==> forall i :: i != w.id ==> (i in s.after.live <==> i in w.live)
    ensures s.changed ==> forall i :: i != w.id && i in w.live ==> s.after.live[i] == w.live[i]
    ensures Consistent(w) ==> Consistent(s.after) && w.id !in s.after.live
  {
    if !w.spawned then Step(false, w)
    else Step(true, w.(spawned := false, live := w.live - {w.id}))
  }

  /** Where a property setter leaves a wrapper: despawned, the same object,
      and the live collection without it if it was spawned, untouched
      otherwise. */
  ghost predicate SetterEffect<F>(w: Wrapped<F>, r: Wrapped<F>) {
    && !r.spawned && r.id == w.id
    && (w.spawned ==> r.live == w.live - {w.id})
    && (!w.spawned ==> r.live == w.live)
    && (Consistent(w) ==> Consistent(r) && r.id !in r.live)
  }

  /** A property setter: DeleteObject, then store the new field values. */
  function Write<F(==)>(w: Wrapped<F>, fields: F): (r: Wrapped<F>)
    ensures !r.spawned && r.id == w.id && r.fields == fields
    ensures r.live == Delete(w).after.live
    ensures SetterEffect(w, r)
    ensures Consistent(w) ==> Consistent(r) && r.id !in r.live
  {
    Delete(w).after.(fields := fields)
  }

  /** The constructor that wraps an object already in the live collection. */
  function WrapLive<F(==)>(id: ObjId, fields: F, live: Live<F>): (w: Wrapped<F>)
    ensures w.spawned && w.id == id && w.fields == fields && w.live == live
    ensures Consistent(w) <==> id in live && live[id] == fields
  {
    Wrapped(id, fields, true, live)
  }

  /** The constructor that builds a new object: `spawned` starts false and the
      constructor's own DeleteObject call is a no-op. `id !in live` models the
      object being freshly allocated. */
  function Construct<F(==)>(id: ObjId, fields: F, live: Live<F>): (s: Step<F>)
    requires id !in live
    ensures !s.changed
    ensures !s.after.spawned && s.after.id == id && s.after.fields == fields
    ensures s.after.live == live
    ensures Consistent(s.after)
  {
    Delete(Wrapped(id, fields, false, live))
  }

  /** Spawning twice in a row inserts once: the second call returns false
      and changes nothing. */
  lemma SpawnTwice<F>(w: Wrapped<F>)
    ensures !Spawn(Spawn(w).after).changed
    ensures Spawn(Spawn(w).after).after == Spawn(w).after
  {
  }

  lemma DeleteTwice<F>(w: Wrapped<F>)
    ensures !Delete(Delete(w).after).changed
    ensures Delete(Delete(w).after).after == Delete(w).after
  {
  }

  /** From a consistent despawned wrapper, SpawnObject then DeleteObject puts
      the live collection back as it was. */
  lemma SpawnThenDelete<F>(w: Wrapped<F>)
    requires Consistent(w) && !w.spawned
    ensures Delete(Spawn(w).after).changed
    ensures Delete(Spawn(w).after).after == w
  {
    assert w.live[w.id := w.fields] - {w.id} == w.live;
  }

  /** From a consistent spawned wrapper, DeleteObject then SpawnObject restores
      the wrapper and its collection exactly. */
  lemma DeleteThenSpawn<F>(w: Wrapped<F>)
    requires Consistent(w) && w.spawned
    ensures Spawn(Delete(w).after).changed
    ensures Spawn(Delete(w).after).after == w
  {
    assert (w.live - {w.id})[w.id := w.fields] == w.live;
  }

  /** What a script can do to a wrapper. */
  datatype Op<F> = SpawnOp | DeleteOp | WriteOp(fields: F)

  function Apply<F(==)>(w: Wrapped<F>, op: Op<F>): Wrapped<F> {
    match op
    case SpawnOp => Spawn(w).after
    case DeleteOp => Delete(w).after
    case WriteOp(f) => Write(w, f)
  }

  function Run<F(==)>(w: Wrapped<F>, ops: seq<Op<F>>): Wrapped<F>
    decreases |ops|
  {
    if |ops| == 0 then w else Run(Apply(w, ops[0]), ops[1..])
  }

  /** Consistency survives every sequence of spawns, deletes and field writes,
      and none of them changes which object is wrapped. */
  lemma {:induction false} RunKeepsConsistent<F>(w: Wrapped<F>, ops: seq<Op<F>>)
    requires Consistent(w)
    ensures Consistent(Run(w, ops))
    ensures Run(w, ops).id == w.id
    decreases |ops|
  {
    if |ops| > 0 {
      RunKeepsConsistent(Apply(w, ops[0]), ops[1..]);
    }
  }

  /** After any non-empty sequence of field writes the object is despawned
      and out of the live collection. */
  lemma {:induction false} WritesLeaveDespawned<F>(w: Wrapped<F>, ops: seq<Op<F>>)
    requires Consistent(w)
    requires |ops| > 0 && forall i :: 0 <= i < |ops| ==> ops[i].WriteOp?
    ensures !Run(w, ops).spawned && Run(w, ops).id !in Run(w, ops).live
    decreases |ops|
  {
    var next := Apply(w, ops[0]);
    if |ops| > 1 {
      WritesLeaveDespawned(next, ops[1..]);
    } else {
      assert Run(next, ops[1..]) == next;
    }
  }
}
