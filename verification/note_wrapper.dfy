/** The script wrapper of a (format version 2) colour note: five settable
    fields, each of whose setters despawns the note before writing. */
module NoteWrapper {
  import opened Outcomes
  import opened Int32
  import opened TimedObjects
  import opened ScriptValues
  import opened SpawnState

  datatype NoteData = NoteData(
    time: real,
    lineIndex: int32,
    lineLayer: int32,
    cutDirection: int32,
    noteType: int32,
    customData: Option<map<string, JsValue>>)

  type Note = Wrapped<NoteData>

  // Getters: pure reads of the wrapped note.
  function Time(n: Note): real { n.fields.time }
  function LineIndex(n: Note): int32 { n.fields.lineIndex }
  function LineLayer(n: Note): int32 { n.fields.lineLayer }
  function CutDirection(n: Note): int32 { n.fields.cutDirection }
  function NoteType(n: Note): int32 { n.fields.noteType }

  function SetTime(n: Note, v: real): (r: Note)
    ensures Time(r) == v
    ensures LineIndex(r) == LineIndex(n) && LineLayer(r) == LineLayer(n)
    ensures CutDirection(r) == CutDirection(n) && NoteType(r) == NoteType(n)
    ensures r.fields.customData == n.fields.customData
    ensures SetterEffect(n, r)
  {
    Write(n, n.fields.(time := v))
  }

  function SetLineIndex(n: Note, v: int32): (r: Note)
    ensures LineIndex(r) == v
    ensures Time(r) == Time(n) && LineLayer(r) == LineLayer(n)
    ensures CutDirection(r) == CutDirection(n) && NoteType(r) == NoteType(n)
    ensures r.fields.customData == n.fields.customData
    ensures SetterEffect(n, r)
  {
    Write(n, n.fields.(lineIndex := v))
  }

  function SetLineLayer(n: Note, v: int32): (r: Note)
    ensures LineLayer(r) == v
    ensures Time(r) == Time(n) && LineIndex(r) == LineIndex(n)
    ensures CutDirection(r) == CutDirection(n) && NoteType(r) == NoteType(n)
    ensures r.fields.customData == n.fields.customData
    ensures SetterEffect(n, r)
  {
    Write(n, n.fields.(lineLayer := v))
  }

  function SetCutDirection(n: Note, v: int32): (r: Note)
    ensures CutDirection(r) == v
    ensures Time(r) == Time(n) && LineIndex(r) == LineIndex(n)
    ensures LineLayer(r) == LineLayer(n) && NoteType(r) == NoteType(n)
    ensures r.fields.customData == n.fields.customData
    ensures SetterEffect(n, r)
  {
    Write(n, n.fields.(cutDirection := v))
  }

  function SetNoteType(n: Note, v: int32): (r: Note)
    ensures NoteType(r) == v
    ensures Time(r) == Time(n) && LineIndex(r) == LineIndex(n)
    ensures LineLayer(r) == LineLayer(n) && CutDirection(r) == CutDirection(n)
    ensures r.fields.customData == n.fields.customData
    ensures SetterEffect(n, r)
  {
    Write(n, n.fields.(noteType := v))
  }

  /** Wrapping a note that is already in the live collection. */
  function FromLive(id: ObjId, data: NoteData, live: Live<NoteData>): (n: Note)
    ensures n.spawned && n.id == id && n.fields == data && n.live == live
    ensures id in live && live[id] == data ==> Consistent(n)
  {
    WrapLive(id, data, live)
  }

  /** The required fields, in the order the constructor reads them. */
  const NoteFields: seq<FieldSpec> := [
    FieldSpec(["_time"], FloatField),
    FieldSpec(["_lineIndex"], IntField),
    FieldSpec(["_lineLayer"], IntField),
    FieldSpec(["_type"], IntField),
    FieldSpec(["_cutDirection"], IntField)]

  /** The key the note's custom data is read from; GetCustomData's own default
      is not part of this model. */
  const NoteCustomDataKeys: seq<string> := ["_customData"]

  /** Every field of `d` is the value the script object holds under its key. */
  predicate Describes(o: ScriptObject, d: NoteData) {
    && "_time" in o && o["_time"] == JsFloat(d.time)
    && "_lineIndex" in o && o["_lineIndex"] == JsInt(d.lineIndex)
    && "_lineLayer" in o && o["_lineLayer"] == JsInt(d.lineLayer)
    && "_type" in o && o["_type"] == JsInt(d.noteType)
    && "_cutDirection" in o && o["_cutDirection"] == JsInt(d.cutDirection)
    && d.customData == ReadCustomData(o, NoteCustomDataKeys)
  }

  /** The note data held by the values read for NoteFields. */
  function NoteOf(o: ScriptObject, vals: seq<JsValue>): (d: NoteData)
    requires |vals| == |NoteFields|
    requires forall i :: 0 <= i < |NoteFields| ==> Read(o, NoteFields[i]) == Success(vals[i])
    ensures Describes(o, d)
  {
    assert Read(o, FieldSpec(["_time"], FloatField)) == Success(vals[0]);
    assert Read(o, FieldSpec(["_lineIndex"], IntField)) == Success(vals[1]);
    assert Read(o, FieldSpec(["_lineLayer"], IntField)) == Success(vals[2]);
    assert Read(o, FieldSpec(["_type"], IntField)) == Success(vals[3]);
    assert Read(o, FieldSpec(["_cutDirection"], IntField)) == Success(vals[4]);
    ReadSingleKey(o, "_time", FloatField, vals[0]);
    ReadSingleKey(o, "_lineIndex", IntField, vals[1]);
    ReadSingleKey(o, "_lineLayer", IntField, vals[2]);
    ReadSingleKey(o, "_type", IntField, vals[3]);
    ReadSingleKey(o, "_cutDirection", IntField, vals[4]);
    NoteData(vals[0].f, vals[1].i, vals[2].i, vals[4].i, vals[3].i, ReadCustomData(o, NoteCustomDataKeys))
  }

  /** Building a new note from a script object. `id !in live` models the new
      note being freshly allocated. */
  function FromScript(o: ScriptObject, id: ObjId, live: Live<NoteData>): (r: Result<Note, BindingError>)
    requires id !in live
    ensures r.Success? <==> forall i :: 0 <= i < |NoteFields| ==> Binds(o, NoteFields[i])
    ensures r.Failure? ==> r.error == BindError(o, NoteFields[FirstUnbound(o, NoteFields).value])
    ensures r.Success? ==> Describes(o, r.value.fields)
    ensures r.Success? ==> !r.value.spawned && r.value.id == id && r.value.live == live
    ensures r.Success? ==> Consistent(r.value)
  {
    var vals :- BindAll(o, NoteFields);
    Success(Construct(id, NoteOf(o, vals), live).after)
  }

  /** SpawnObject on the note collection. */
  function SpawnObject(n: Note): (s: Step<NoteData>)
    ensures s.changed <==> !n.spawned
    ensures s.after.spawned && s.after.id == n.id && s.after.fields == n.fields
    ensures !s.changed ==> s.after == n
    ensures s.changed ==> s.after.live == n.live[n.id := n.fields]
    ensures Consistent(n) ==> Consistent(s.after)
  {
    Spawn(n)
  }

  /** DeleteObject on the note collection. */
  function DeleteObject(n: Note): (s: Step<NoteData>)
    ensures s.changed <==> n.spawned
    ensures !s.after.spawned && s.after.id == n.id && s.after.fields == n.fields
    ensures !s.changed ==> s.after == n
    ensures s.changed ==> s.after.live == n.live - {n.id}
    ensures Consistent(n) ==> Consistent(s.after) && n.id !in s.after.live
  {
    Delete(n)
  }
}
