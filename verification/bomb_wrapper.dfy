/** The script wrapper of a bomb: time and grid position, each read from a
    modern key with a legacy fallback, each setter despawning the bomb first. */
module BombWrapper {
  import opened Outcomes
  import opened Int32
  import opened TimedObjects
  import opened ScriptValues
  import opened SpawnState

  datatype BombData = BombData(
    jsonTime: real,
    posX: int32,
    posY: int32,
    customData: Option<map<string, JsValue>>)

  type Bomb = Wrapped<BombData>

  // Getters `b`, `x`, `y`: pure reads of the wrapped bomb.
  function B(b: Bomb): real { b.fields.jsonTime }
  function X(b: Bomb): int32 { b.fields.posX }
  function Y(b: Bomb): int32 { b.fields.posY }

  function SetB(b: Bomb, v: real): (r: Bomb)
    ensures B(r) == v && X(r) == X(b) && Y(r) == Y(b)
    ensures r.fields.customData == b.fields.customData
    ensures SetterEffect(b, r)
  {
    Write(b, b.fields.(jsonTime := v))
  }

  function SetX(b: Bomb, v: int32): (r: Bomb)
    ensures X(r) == v && B(r) == B(b) && Y(r) == Y(b)
    ensures r.fields.customData == b.fields.customData
    ensures SetterEffect(b, r)
  {
    Write(b, b.fields.(posX := v))
  }

  function SetY(b: Bomb, v: int32): (r: Bomb)
    ensures Y(r) == v && B(r) == B(b) && X(r) == X(b)
    ensures r.fields.customData == b.fields.customData
    ensures SetterEffect(b, r)
  {
    Write(b, b.fields.(posY := v))
  }

  /** Wrapping a bomb that is already in the live collection. */
  function FromLive(id: ObjId, data: BombData, live: Live<BombData>): (b: Bomb)
    ensures b.spawned && b.id == id && b.fields == data && b.live == live
    ensures id in live && live[id] == data ==> Consistent(b)
  {
    WrapLive(id, data, live)
  }

  /** The required fields, in the order the constructor reads them, each with
      its modern key first and its legacy key second. */
  const BombFields: seq<FieldSpec> := [
    FieldSpec(["b", "_time"], FloatField),
    FieldSpec(["x", "_lineIndex"], IntField),
    FieldSpec(["y", "_lineLayer"], IntField)]

  const BombCustomDataKeys: seq<string> := ["customData", "_customData"]

  /** The value under `modern` if present, else under `legacy`. */
  function Preferred(o: ScriptObject, modern: string, legacy: string): JsValue
    requires modern in o || legacy in o
  {
    if modern in o then o[modern] else o[legacy]
  }

  /** A field read through a modern and a legacy alias holds the preferred value. */
  lemma ReadPreferred(o: ScriptObject, modern: string, legacy: string, kind: FieldKind, v: JsValue)
    requires Read(o, FieldSpec([modern, legacy], kind)) == Success(v)
    ensures (modern in o || legacy in o) && Preferred(o, modern, legacy) == v && Fits(v, kind)
  {
    LookupPrefersFirst(o, modern, legacy);
  }

  /** Every field of `d` is the value the script object holds under the
      preferred key of its alias pair. */
  predicate Describes(o: ScriptObject, d: BombData) {
    && ("b" in o || "_time" in o) && Preferred(o, "b", "_time") == JsFloat(d.jsonTime)
    && ("x" in o || "_lineIndex" in o) && Preferred(o, "x", "_lineIndex") == JsInt(d.posX)
    && ("y" in o || "_lineLayer" in o) && Preferred(o, "y", "_lineLayer") == JsInt(d.posY)
    && d.customData == ReadCustomData(o, BombCustomDataKeys)
  }

  /** The bomb data held by the values read for BombFields. */
  function BombOf(o: ScriptObject, vals: seq<JsValue>): (d: BombData)
    requires |vals| == |BombFields|
    requires forall i :: 0 <= i < |BombFields| ==> Read(o, BombFields[i]) == Success(vals[i])
    ensures Describes(o, d)
  {
    assert Read(o, FieldSpec(["b", "_time"], FloatField)) == Success(vals[0]);
    assert Read(o, FieldSpec(["x", "_lineIndex"], IntField)) == Success(vals[1]);
    assert Read(o, FieldSpec(["y", "_lineLayer"], IntField)) == Success(vals[2]);
    ReadPreferred(o, "b", "_time", FloatField, vals[0]);
    ReadPreferred(o, "x", "_lineIndex", IntField, vals[1]);
    ReadPreferred(o, "y", "_lineLayer", IntField, vals[2]);
    BombData(vals[0].f, vals[1].i, vals[2].i, ReadCustomData(o, BombCustomDataKeys))
  }

  /** Building a new bomb from a script object. `id !in live` models the new
      bomb being freshly allocated. */
  function FromScript(o: ScriptObject, id: ObjId, live: Live<BombData>): (r: Result<Bomb, BindingError>)
    requires id !in live
    ensures r.Success? <==> forall i :: 0 <= i < |BombFields| ==> Binds(o, BombFields[i])
    ensures r.Failure? ==> r.error == BindError(o, BombFields[FirstUnbound(o, BombFields).value])
    ensures r.Success? ==> Describes(o, r.value.fields)
    ensures r.Success? ==> !r.value.spawned && r.value.id == id && r.value.live == live
    ensures r.Success? ==> Consistent(r.value)
  {
    var vals :- BindAll(o, BombFields);
    Success(Construct(id, BombOf(o, vals), live).after)
  }

  /** SpawnObject(collection), with the collection being the note collection
      that DeleteObject removes from. */
  function SpawnObject(b: Bomb): (s: Step<BombData>)
    ensures s.changed <==> !b.spawned
    ensures s.after.spawned && s.after.id == b.id && s.after.fields == b.fields
    ensures !s.changed ==> s.after == b
    ensures s.changed ==> s.after.live == b.live[b.id := b.fields]
    ensures Consistent(b) ==> Consistent(s.after)
  {
    Spawn(b)
  }

  /** DeleteObject on the note collection. */
  function DeleteObject(b: Bomb): (s: Step<BombData>)
    ensures s.changed <==> b.spawned
    ensures !s.after.spawned && s.after.id == b.id && s.after.fields == b.fields
    ensures !s.changed ==> s.after == b
    ensures s.changed ==> s.after.live == b.live - {b.id}
    ensures Consistent(b) ==> Consistent(s.after) && b.id !in s.after.live
  {
    Delete(b)
  }

  /** A despawned bomb spawned and then deleted leaves the collection as it
      found it. */
  lemma SpawnThenDeleteRestores(b: Bomb)
    requires Consistent(b) && !b.spawned
    ensures DeleteObject(SpawnObject(b).after).after.live == b.live
  {
    SpawnThenDelete(b);
  }

  /** A bomb whose script value lacks both aliases of its column cannot be
      built, and the error names both aliases. */
  lemma MissingColumnFails(o: ScriptObject, id: ObjId, live: Live<BombData>)
    requires id !in live
    requires Binds(o, BombFields[0])
    requires "x" !in o && "_lineIndex" !in o
    ensures FromScript(o, id, live) == Failure(MissingField(["x", "_lineIndex"]))
  {
    LookupPrefersFirst(o, "x", "_lineIndex");
  }

  /** A script value with only the legacy keys builds the bomb it describes. */
  lemma LegacyKeysSuffice(t: real, x: int32, y: int32, id: ObjId, live: Live<BombData>)
    requires id !in live
    ensures var o := map["_time" := JsFloat(t), "_lineIndex" := JsInt(x), "_lineLayer" := JsInt(y)];
      var r := FromScript(o, id, live);
      r.Success? && B(r.value) == t && X(r.value) == x && Y(r.value) == y && r.value.fields.customData.None?
  {
    var o := map["_time" := JsFloat(t), "_lineIndex" := JsInt(x), "_lineLayer" := JsInt(y)];
    assert "b" !in o && "x" !in o && "y" !in o && "customData" !in o && "_customData" !in o;
    LookupPrefersFirst(o, "b", "_time");
    LookupPrefersFirst(o, "x", "_lineIndex");
    LookupPrefersFirst(o, "y", "_lineLayer");
    LookupPrefersFirst(o, "customData", "_customData");
    assert Binds(o, BombFields[0]) && Binds(o, BombFields[1]) && Binds(o, BombFields[2]);
  }
}
