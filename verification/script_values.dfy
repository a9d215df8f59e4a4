/** Reading fields of a script object by key, trying a list of aliases in
    priority order (a short modern key first, a legacy `_`-prefixed key second). */
module ScriptValues {
  import opened Outcomes
  import opened Int32

  /** A script value, by the kind of host value it converts to. */
  datatype JsValue =
    | JsFloat(f: real)
    | JsInt(i: int32)
    | JsBool(b: bool)
    | JsString(s: string)
    | JsData(entries: map<string, JsValue>)

  type ScriptObject = map<string, JsValue>

  /** Why a wrapper could not be built from a script value. */
  datatype BindingError =
    | MissingField(aliases: seq<string>)
    | WrongKind(key: string)

  /** The position of the first alias present in `o`. */
  function FirstPresent(o: ScriptObject, aliases: seq<string>): (r: Option<nat>)
    ensures r.Some? ==> r.value < |aliases| && aliases[r.value] in o
    ensures r.Some? ==> forall j :: 0 <= j < r.value ==> aliases[j] !in o
    ensures r.None? <==> forall j :: 0 <= j < |aliases| ==> aliases[j] !in o
    decreases |aliases|
  {
    if |aliases| == 0 then None
    else if aliases[0] in o then Some(0)
    else match FirstPresent(o, aliases[1..])
      case None => None
      case Some(i) => Some(i + 1)
  }

  /** The value under the first present alias, together with that alias. */
  function Lookup(o: ScriptObject, aliases: seq<string>): (r: Result<(string, JsValue), BindingError>)
    ensures r.Failure? <==> forall j :: 0 <= j < |aliases| ==> aliases[j] !in o
    ensures r.Failure? ==> r.error == MissingField(aliases)
    ensures r.Success? ==> r.value.0 in o && r.value.1 == o[r.value.0]
    ensures r.Success? ==>
      exists i :: 0 <= i < |aliases| && aliases[i] == r.value.0 && forall j :: 0 <= j < i ==> aliases[j] !in o
  {
    match FirstPresent(o, aliases)
    case None => Failure(MissingField(aliases))
    case Some(i) => Success((aliases[i], o[aliases[i]]))
  }

  /** The host type a required field is cast to. */
  datatype FieldKind = FloatField | IntField

  /** A required field: its aliases, in priority order, and its type. */
  datatype FieldSpec = FieldSpec(aliases: seq<string>, kind: FieldKind)

  predicate Fits(v: JsValue, kind: FieldKind) {
    match kind
    case FloatField => v.JsFloat?
    case IntField => v.JsInt?
  }

  /** The field can be read: some alias is present and its value has the type. */
  predicate Binds(o: ScriptObject, spec: FieldSpec) {
    Lookup(o, spec.aliases).Success? && Fits(Lookup(o, spec.aliases).value.1, spec.kind)
  }

  /** The error reading an unbindable field raises: the aliases when none is
      present, else the key whose value has the wrong type. */
  function BindError(o: ScriptObject, spec: FieldSpec): BindingError
    requires !Binds(o, spec)
  {
    match Lookup(o, spec.aliases)
    case Failure(e) => e
    case Success((key, _)) => WrongKind(key)
  }

  /** A required field, `(T) GetJsValue(o, aliases)`. */
  function Read(o: ScriptObject, spec: FieldSpec): (r: Result<JsValue, BindingError>)
    ensures r.Success? <==> Binds(o, spec)
    ensures r.Success? ==> Fits(r.value, spec.kind)
    ensures r.Success? ==> Lookup(o, spec.aliases).Success? && r.value == Lookup(o, spec.aliases).value.1
    ensures r.Failure? ==> r.error == BindError(o, spec)
  {
    var (key, v) :- Lookup(o, spec.aliases);
    if Fits(v, spec.kind) then Success(v) else Failure(WrongKind(key))
  }

  function ReadFloat(o: ScriptObject, aliases: seq<string>): (r: Result<real, BindingError>)
    ensures r.Success? <==> Binds(o, FieldSpec(aliases, FloatField))
    ensures r.Success? ==> Read(o, FieldSpec(aliases, FloatField)).value == JsFloat(r.value)
    ensures r.Failure? ==> r.error == BindError(o, FieldSpec(aliases, FloatField))
  {
    var v :- Read(o, FieldSpec(aliases, FloatField));
    Success(v.f)
  }

  function ReadInt(o: ScriptObject, aliases: seq<string>): (r: Result<int32, BindingError>)
    ensures r.Success? <==> Binds(o, FieldSpec(aliases, IntField))
    ensures r.Success? ==> Read(o, FieldSpec(aliases, IntField)).value == JsInt(r.value)
    ensures r.Failure? ==> r.error == BindError(o, FieldSpec(aliases, IntField))
  {
    var v :- Read(o, FieldSpec(aliases, IntField));
    Success(v.i)
  }

  /** The position of the first field that cannot be read, if any. */
  function FirstUnbound(o: ScriptObject, specs: seq<FieldSpec>): (r: Option<nat>)
    ensures r.Some? ==> r.value < |specs| && !Binds(o, specs[r.value])
    ensures r.Some? ==> forall j :: 0 <= j < r.value ==> Binds(o, specs[j])
    ensures r.None? <==> forall j :: 0 <= j < |specs| ==> Binds(o, specs[j])
    decreases |specs|
  {
    if |specs| == 0 then None
    else if !Binds(o, specs[0]) then Some(0)
    else match FirstUnbound(o, specs[1..])
      case None => None
      case Some(i) => Some(i + 1)
  }

  /** The required fields read in order, as a constructor reads them: the
      first field that cannot be read aborts the whole read with its error. */
  function BindAll(o: ScriptObject, specs: seq<FieldSpec>): (r: Result<seq<JsValue>, BindingError>)
    ensures r.Success? <==> FirstUnbound(o, specs).None?
    ensures r.Success? ==> |r.value| == |specs|
    ensures r.Success? ==> forall i :: 0 <= i < |specs| ==> Read(o, specs[i]) == Success(r.value[i])
    ensures r.Failure? ==> r.error == BindError(o, specs[FirstUnbound(o, specs).value])
    decreases |specs|
  {
    if |specs| == 0 then Success([])
    else
      match Read(o, specs[0])
      case Failure(e) => Failure(e)
      case Success(v) =>
        match BindAll(o, specs[1..])
        case Success(rest) => Success([v] + rest)
        case Failure(e) => Failure(e)
  }

  /** A field with a single alias is read from that key. */
  lemma ReadSingleKey(o: ScriptObject, key: string, kind: FieldKind, v: JsValue)
    requires Read(o, FieldSpec([key], kind)) == Success(v)
    ensures key in o && o[key] == v && Fits(v, kind)
  {
  }

  /** Optional custom data: absent data, or data of another kind, is no data. */
  function ReadCustomData(o: ScriptObject, aliases: seq<string>): (r: Option<map<string, JsValue>>)
    ensures r.Some? <==> Lookup(o, aliases).Success? && Lookup(o, aliases).value.1.JsData?
    ensures r.Some? ==> Lookup(o, aliases).value.1 == JsData(r.value)
  {
    match Lookup(o, aliases)
    case Success((_, JsData(d))) => Some(d)
    case _ => None
  }

  /** Lookup prefers the first alias whenever it is present. */
  lemma LookupPrefersFirst(o: ScriptObject, modern: string, legacy: string)
    ensures modern in o ==> Lookup(o, [modern, legacy]) == Success((modern, o[modern]))
    ensures modern !in o && legacy in o ==> Lookup(o, [modern, legacy]) == Success((legacy, o[legacy]))
    ensures modern !in o && legacy !in o ==> Lookup(o, [modern, legacy]) == Failure(MissingField([modern, legacy]))
  {
    var aliases := [modern, legacy];
    if modern !in o && legacy in o {
      assert aliases[1..] == [legacy];
      assert FirstPresent(o, aliases[1..]) == Some(0);
      assert FirstPresent(o, aliases) == Some(1);
    }
  }
}
