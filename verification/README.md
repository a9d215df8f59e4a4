# CM-ErrorChecker core, modelled in Dafny

CM-ErrorChecker is a plugin for the ChroMapper beat-map editor. Users write
checks, many of them as JavaScript files. A check inspects the map's timed
objects (notes, bombs, arcs, chains, walls, events, custom events and BPM
changes) and reports errors and warnings. The editor can then step through
the reported problems and outline them in red or yellow.

This project models two parts of that plugin:

- **The object wrappers** that scripts use to read and write notes and bombs.
  A wrapper holds an object and a `spawned` flag. The flag says whether the
  object is in the editor's live collection. Every field setter removes the
  object from the collection before writing, so the collection never indexes
  an object under stale field values. `SpawnObject` and `DeleteObject` are
  guarded: each returns `false`, and changes nothing, when the object is
  already in the target state. There are two constructors. One wraps a live
  object and starts spawned. The other builds a new object from a script
  value and starts despawned. The second reads each field by key, and the
  bomb wrapper tries a modern key before a legacy one.
- **The check runner** (`CMJS`). One run gathers each container's loaded
  objects and sorts them stably by time. In format version 3 it splits colour
  notes from bombs. In older formats it passes bombs, arcs and chains as empty
  lists. It also pairs UI parameter widgets with parameter names, calls the
  check, commits the result, resets the navigation cursor and writes a
  one-line summary. `NextBlock` moves the cursor circularly over all
  problems, using C# integer arithmetic. `ObjectLoaded` picks an outline
  colour, and errors take priority over warnings. `EmptyCheck`, the
  placeholder check, drives the runner in whole-run scenarios.

Module layout: `Outcomes` (Option/Result), `Int32` (C# `int` wrap-around and
truncating `%`), `Decimal` (C# `ToString` of `int` and `bool`, with parsers),
`TimedObjects`, `StableSort` (LINQ `OrderBy`), `SpawnState` (the spawn state
machine shared by the wrappers), `ScriptValues` (field lookup by alias),
`NoteWrapper`, `BombWrapper`, `Checks`, `EmptyCheck`, `Runner`, `Scenarios`.

How the model represents things:

- The live collection is a map from object identity to the field values the
  collection indexed the object under. `SpawnState.Consistent` is the
  wrapper invariant: `spawned` holds exactly when the object is in the
  collection, and a spawned object's entry matches its current fields.
- Times are modelled as `real`, an abstract ordered key.
- A result the runner holds has at most `int.MaxValue` problems, because a C#
  list's `Count` is an `int`. The type `Runner.Committed` carries this bound.
- The runner's collaborators are parameters and outputs. The selected check is
  a function from its input to a result, where `None` stands for an
  exception. The playback seek is an output of `NextBlock`. The
  problem-info text is a field of the runner state, and `None` means the
  widget is absent. The outline colour is the result of `ObjectLoaded`.

Behaviour of the code that is easy to miss:

- A toggle's value is passed as C#'s `bool.ToString()`, which gives
  `"True"`/`"False"`, not `"true"`/`"false"`.
- Only a positive offset is turned into 0 on the first `NextBlock` after a
  run. A zero or negative offset is applied from index 0, so `NextBlock(-1)`
  lands on the last problem.
- If there are more parameter widgets than declared parameters, the run
  aborts (C# throws index out of range) and the runner state is unchanged.

## Model

| member | source | states |
|---|---|---|
| Int32.Wrap | CMJS.cs:234 | the stored value of an unchecked `int` sum is in 32-bit range, congruent to the true sum modulo 2^32, and equal to it when no overflow occurs |
| Int32.Rem | CMJS.cs:234 | C#'s `%`: the remainder is smaller than the divisor in magnitude, has the dividend's sign, and differs from the dividend by a multiple of the divisor |
| Int32.CorrectedRemIsMod | CMJS.cs:234-239 | taking `%` and then adding the count when the result is negative gives the Euclidean remainder, for every dividend |
| Decimal.NatToString | CMJS.cs:212 | the text of a count is a non-empty string of decimal digits with no leading zero |
| Decimal.ParseNatToString | CMJS.cs:212 | parsing the digits of a number gives back that number |
| Decimal.IntToString | CMJS.cs:156 | `int.ToString()` is non-empty and starts with `-` exactly when the value is negative |
| Decimal.ParseIntToString | CMJS.cs:156 | parsing the text of a dropdown's `int` value gives back that value |
| Decimal.BoolToString | CMJS.cs:158 | a toggle's text is `"True"` exactly when it is on, and `"False"` otherwise |
| Decimal.ParseBoolToString | CMJS.cs:158 | a toggle's `"True"`/`"False"` text reads back as the toggle state |
| TimedObjects.OfKind | CMJS.cs:167-168 | the `Where(it is K)` filter keeps exactly the objects of kind K, and no more objects than it was given |
| TimedObjects.OfKindCounts | CMJS.cs:167-168 | the filter keeps each object of kind K exactly as many times as it occurs in the input, and no other object |
| TimedObjects.OfKindAppend | CMJS.cs:167-168 | filtering a concatenation is the concatenation of the filtered parts, so the filter keeps the input order of what it retains |
| StableSort.Insert | CMJS.cs:167-174 | inserting into a time-ordered list keeps it ordered, adds exactly the one object, and puts it before the equal-time objects that followed it |
| StableSort.SortByTime | CMJS.cs:167-174 | `OrderBy(JsonTime)` returns a permutation of its input that is ordered by time and keeps input order among equal times |
| StableSort.StableSortUnique | CMJS.cs:167-174 | ordered by time and keeping input order at each time together fix the output of a stable sort |
| SpawnState.Spawn | Wrappers/Note.cs:73-82 | spawning refuses (false, nothing changes) when already spawned; otherwise it inserts only this object under its current fields, sets `spawned`, returns true, and keeps the wrapper consistent |
| SpawnState.Delete | Wrappers/Note.cs:84-93 | deleting refuses when despawned; otherwise it removes only this object, clears `spawned`, returns true, and keeps the wrapper consistent |
| SpawnState.Write | Wrappers/Note.cs:8-11 | a setter stores the new fields and leaves the object despawned and out of the live collection, keeping the wrapper consistent |
| SpawnState.WrapLive | Wrappers/Note.cs:54-57 | wrapping an existing object starts spawned, and is consistent exactly when the collection holds that object with those fields |
| SpawnState.Construct | Wrappers/Note.cs:59-71 | a new object starts despawned; the constructor's DeleteObject returns false and leaves the live collection untouched |
| SpawnState.SpawnTwice | Wrappers/Note.cs:73-82 | a second SpawnObject in a row returns false and changes nothing, so the object is inserted once |
| SpawnState.DeleteTwice | Wrappers/Note.cs:84-93 | a second DeleteObject in a row returns false and changes nothing |
| SpawnState.SpawnThenDelete | Wrappers/Note.cs:73-93 | from a consistent despawned wrapper, SpawnObject then DeleteObject restores the wrapper and its collection exactly |
| SpawnState.DeleteThenSpawn | Wrappers/Note.cs:73-93 | from a consistent spawned wrapper, DeleteObject then SpawnObject restores the wrapper and its collection exactly |
| SpawnState.RunKeepsConsistent | Wrappers/Note.cs:6-93 | every sequence of spawns, deletes and field writes keeps `spawned` in step with the live collection |
| SpawnState.WritesLeaveDespawned | Wrappers/Note.cs:6-52 | after any non-empty sequence of field writes, a consistent wrapper is despawned and its object is not in the live collection |
| ScriptValues.FirstPresent | Wrappers/Beatmap/BombNote.cs:15-18 | alias lookup finds the first alias present in the script object, and finds none only when no alias is present |
| ScriptValues.Lookup | Wrappers/Beatmap/BombNote.cs:15-18 | a lookup returns the value under the first alias present in the script object, and fails, naming all aliases, exactly when none is present |
| ScriptValues.Read | Wrappers/Beatmap/BombNote.cs:15-17 | a required field reads successfully exactly when the first present alias holds a value of the required type, and then yields that value; otherwise the error names the missing aliases or the wrongly typed key |
| ScriptValues.ReadFloat | Wrappers/Note.cs:60 | a float field yields the float stored under the first present alias, or the binding error |
| ScriptValues.ReadInt | Wrappers/Note.cs:61-64 | an `int` field yields the `int` stored under the first present alias, or the binding error |
| ScriptValues.ReadCustomData | Wrappers/Beatmap/BombNote.cs:18 | custom data is present exactly when the first present alias holds an object value, and then it is that object |
| ScriptValues.LookupPrefersFirst | Wrappers/Beatmap/BombNote.cs:15-18 | the modern key wins whenever it is present, the legacy key is used only in its absence, and with neither the lookup fails |
| ScriptValues.ReadSingleKey | Wrappers/Note.cs:60-64 | a field with a single key that reads successfully holds exactly the value stored under that key, of the required type |
| ScriptValues.FirstUnbound | Wrappers/Note.cs:59-66 | names the first field, in read order, that cannot be read; every earlier field can be read, and it names none only when every field can be read |
| ScriptValues.BindAll | Wrappers/Note.cs:59-66 | reading the constructor's fields in order succeeds exactly when every field can be read, yields one value per field equal to that field's own read, and otherwise fails with the error of the first field that cannot be read |
| NoteWrapper.SetTime | Wrappers/Note.cs:6-12 | `_time` reads back the assigned value, the other four fields are unchanged, and the note is left despawned and out of the collection |
| NoteWrapper.SetLineIndex | Wrappers/Note.cs:14-22 | `_lineIndex` reads back the assigned value, the other four fields are unchanged, and the note is left despawned |
| NoteWrapper.SetLineLayer | Wrappers/Note.cs:24-32 | `_lineLayer` reads back the assigned value, the other four fields are unchanged, and the note is left despawned |
| NoteWrapper.SetCutDirection | Wrappers/Note.cs:34-42 | `_cutDirection` reads back the assigned value, the other four fields are unchanged, and the note is left despawned |
| NoteWrapper.SetNoteType | Wrappers/Note.cs:44-52 | `_type` reads back the assigned value, the other four fields are unchanged, and the note is left despawned |
| NoteWrapper.Time | Wrappers/Note.cs:7 | the `_time` getter; SetTime's contract is stated through it |
| NoteWrapper.LineIndex | Wrappers/Note.cs:16 | the `_lineIndex` getter; SetLineIndex's contract is stated through it |
| NoteWrapper.LineLayer | Wrappers/Note.cs:26 | the `_lineLayer` getter; SetLineLayer's contract is stated through it |
| NoteWrapper.CutDirection | Wrappers/Note.cs:36 | the `_cutDirection` getter; SetCutDirection's contract is stated through it |
| NoteWrapper.NoteType | Wrappers/Note.cs:46 | the `_type` getter; SetNoteType's contract is stated through it |
| NoteWrapper.FromLive | Wrappers/Note.cs:54-57 | wrapping an existing note starts spawned, and is consistent when the collection holds it |
| NoteWrapper.NoteOf | Wrappers/Note.cs:59-65 | the note built from the values read for the five keys holds, in each field, the value stored under that field's key |
| NoteWrapper.FromScript | Wrappers/Note.cs:59-71 | construction succeeds exactly when all five keys bind. Otherwise the error is that of the first key, in read order, that fails to bind. On success the fields come from `_time`, `_lineIndex`, `_lineLayer`, `_type` and `_cutDirection`, and the note starts despawned with the collection untouched |
| NoteWrapper.SpawnObject | Wrappers/Note.cs:73-82 | guarded insert into the note collection: false with no change when spawned, else inserted, spawned, true; the same note with the same fields either way |
| NoteWrapper.DeleteObject | Wrappers/Note.cs:84-93 | guarded removal from the note collection: false with no change when despawned, else removed, despawned, true; the same object with the same fields either way |
| BombWrapper.SetB | Wrappers/Beatmap/BombNote.cs:26-34 | `b` reads back the assigned JsonTime, `x` and `y` are unchanged, and the bomb is left despawned |
| BombWrapper.SetX | Wrappers/Beatmap/BombNote.cs:36-44 | `x` reads back the assigned PosX, `b` and `y` are unchanged, and the bomb is left despawned |
| BombWrapper.SetY | Wrappers/Beatmap/BombNote.cs:46-54 | `y` reads back the assigned PosY, `b` and `x` are unchanged, and the bomb is left despawned |
| BombWrapper.B | Wrappers/Beatmap/BombNote.cs:28 | the `b` getter; SetB's contract is stated through it |
| BombWrapper.X | Wrappers/Beatmap/BombNote.cs:38 | the `x` getter; SetX's contract is stated through it |
| BombWrapper.Y | Wrappers/Beatmap/BombNote.cs:48 | the `y` getter; SetY's contract is stated through it |
| BombWrapper.FromLive | Wrappers/Beatmap/BombNote.cs:9-12 | wrapping an existing bomb starts spawned, and is consistent when the collection holds it |
| BombWrapper.ReadPreferred | Wrappers/Beatmap/BombNote.cs:15-17 | a field read through a modern and a legacy key holds the value under the modern key when present, and under the legacy key otherwise |
| BombWrapper.BombOf | Wrappers/Beatmap/BombNote.cs:14-18 | the bomb built from the values read for time, column and row holds, in each field, the value under that field's preferred key |
| BombWrapper.FromScript | Wrappers/Beatmap/BombNote.cs:14-24 | construction succeeds exactly when time, column and row bind, and otherwise reports the first field that does not. Each value comes from the modern key when present and from the legacy key otherwise. The bomb starts despawned with the collection untouched |
| BombWrapper.SpawnObject | Wrappers/Beatmap/BombNote.cs:56-64 | guarded insert: false with no change when spawned, else inserted, spawned, true; the same bomb with the same fields either way |
| BombWrapper.DeleteObject | Wrappers/Beatmap/BombNote.cs:66-75 | guarded removal from the note collection: false with no change when despawned, else removed, despawned, true; the same object with the same fields either way |
| BombWrapper.SpawnThenDeleteRestores | Wrappers/Beatmap/BombNote.cs:56-75 | from a consistent despawned bomb, SpawnObject then DeleteObject returns the collection to its prior contents |
| BombWrapper.MissingColumnFails | Wrappers/Beatmap/BombNote.cs:16 | when the time field binds, with neither `x` nor `_lineIndex` present, construction fails naming both aliases |
| BombWrapper.LegacyKeysSuffice | Wrappers/Beatmap/BombNote.cs:15-18 | a script value with only the legacy keys builds the bomb it describes |
| EmptyCheck.New | Checks/EmptyCheck.cs:7-9 | the placeholder check is named "Select a check" and declares no parameters |
| EmptyCheck.PerformCheck | Checks/EmptyCheck.cs:11-17 | the check returns its own result object after clearing it: no errors, no warnings, no problems |
| EmptyCheck.Independent | Checks/EmptyCheck.cs:11-17 | the outcome is the same for any object lists and parameter values |
| EmptyCheck.Idempotent | Checks/EmptyCheck.cs:15-16 | performing the check again gives the same check and the same empty result |
| Runner.Initial | CMJS.cs:33-37 | a runner before its first run holds no result, its cursor at 0 and the moved flag clear, which is a valid state |
| Runner.Harvest | CMJS.cs:149-162 | widget i is paired with parameter i's name, and there is one pair per widget. A widget without a declared parameter aborts the harvest |
| Runner.WidgetValue | CMJS.cs:153-160 | a text field passes its text; only an unrecognised widget passes the null value |
| Runner.HarvestReadsBack | CMJS.cs:153-160 | each harvested value determines its widget's state: a text field's text, a dropdown's value, a toggle's state; an unrecognised widget gives the null value |
| Runner.Gather | CMJS.cs:164-184 | every list handed to the check is a stable time sort of its container's objects. In version 3, colour notes and bombs are split from the one note container. Otherwise the note container is passed whole and bombs, arcs and chains are empty |
| Runner.SummaryRoundTrip | CMJS.cs:206-213 | the summary line reads back as the number of problems: "No problems found" for none, "N problems found" otherwise |
| Runner.Summary | CMJS.cs:206-213 | the summary is "No problems found" exactly when there are no problems, and otherwise ends in " problems found" |
| Runner.CheckErrors | CMJS.cs:129-219 | an aborted harvest or a throwing check leaves the runner unchanged. A completed run commits the check's result, sets the index to 0, clears the moved flag, and shows the summary of the result's problem count |
| Runner.CheckErrorsKeepsValid | CMJS.cs:203-204 | a run leaves the cursor inside the problem list |
| Runner.NextIndex | CMJS.cs:234-239 | the corrected C# remainder of the wrapped sum lies in `[0, Count)` and is the Euclidean `(index + offset) mod Count` whenever the sum does not overflow |
| Runner.NextIndexExact | CMJS.cs:234-239 | for every index and offset, overflowing or not, the new index is the Euclidean remainder of the 32-bit wrapped sum |
| Runner.NextBlock | CMJS.cs:221-253 | always sets the moved flag. The first move after a run turns a positive offset into 0. With no result, or no problems, the index is unchanged and nothing is sought. Otherwise the index lands in range, at `(index + offset) mod Count` whenever the 32-bit sum does not overflow, playback seeks to that problem's object, and the text shows its reason or "...". A state with its cursor inside the problem list keeps it there |
| Runner.Effective | CMJS.cs:223-227 | the first move after a run turns a positive offset into 0; any other offset is applied unchanged |
| Runner.StepFromMoved | CMJS.cs:234-239 | once moved, a step of -1, 0 or 1 moves the cursor by exactly that step modulo the count |
| Runner.AdvanceIndex | CMJS.cs:234-239 | once moved, k calls of NextBlock(1) put the cursor at `(start + k) mod Count` |
| Runner.CycleReturns | CMJS.cs:234-239 | once moved, Count calls of NextBlock(1) return the cursor to its starting index |
| Runner.StepBackUndoes | CMJS.cs:234-239 | once moved, NextBlock(-1) undoes NextBlock(1), and NextBlock(1) undoes NextBlock(-1) |
| Runner.FirstMoveAfterRun | CMJS.cs:223-227 | right after a run with problems, a positive offset lands on the first problem and seeks to it; a non-positive offset is applied from 0 |
| Runner.Mentions | CMJS.cs:260 | true exactly when some problem in the list is about the object |
| Runner.ObjectLoaded | CMJS.cs:255-268 | red exactly when the object is among the errors. Yellow exactly when it is among the warnings and not the errors. Nothing without a result, without object data, or for an object in neither list |
| Scenarios.EmptyCheckRun | Checks/EmptyCheck.cs:15-16 | running the placeholder check reports "No problems found" and leaves navigation at index 0 with no seek |
| Scenarios.ThreeNotesInput | CMJS.cs:178 | notes loaded at beats 3, 1, 2 reach the check in time order |
| Scenarios.ThreeNotesRun | CMJS.cs:203-212 | a check that flags the note at beat 2 leaves that one problem committed, index 0 and "1 problems found" |
| Scenarios.SecondNoteScenario | CMJS.cs:221-249 | the first NextBlock(1) after that run stays at index 0, seeks to the flagged note and shows its reason |

## Left out

- Plugin start-up, script relocation, creating the default script and loading script files (CMJS.cs:42-107): file-system I/O.
- Scene lookup and adding the button to the editor UI (CMJS.cs:109-127), and the font and size changes to the info text (CMJS.cs:214-215, 250-251): Unity glue.
- The Jint patch (CMJS.cs:72-81), the script engine, and the `ExternalJS` script-backed check: foreign runtime. A check is modelled as a function from its input to a result or an exception.
- Outline clearing and colouring during a run, and selection queries (CMJS.cs:134-145, 186-201): rendering. Only `ObjectLoaded`'s requested colour is modelled.
- The playback move `atsc.MoveToSongBpmTime` (CMJS.cs:244): modelled only as the seek target that `NextBlock` returns.
- Float behaviour of times: times are `real`s.
- `VanillaWrapper`, `GetJsValue`, `GetCustomData`, `GetJsBool`, the `Check` base class, `CheckResult.Clear`/`Commit` and `ParamValue` are not part of this model. They are modelled at their interface only. Alias lookup returns the value under the first present key. A value of the wrong type is a binding error. A cleared result has no errors, no warnings and no problems. The result a check returns is taken to be already committed. A parameter value records the text handed to the parameter's parser, and parsing itself is not modelled.
- NoteWrapper.FromScript: the default key list `GetCustomData(o)` uses is not visible. The model reads the note's custom data from `_customData`. Absent custom data, or custom data of another type, is modelled as no custom data.
- NoteWrapper.FromScript: script numbers are split into floats (`JsFloat`) and 32-bit integers (`JsInt`), and a field of the other kind fails to bind. What `GetJsValue` returns for a JavaScript number, and how the `(float)` and `(int)` casts treat it, is not part of this model, so the success condition rests on this classification.
- BombWrapper.FromScript: script numbers are split into floats and 32-bit integers in the same way, with the same consequence for its success condition.
- BombWrapper.FromScript: the `selected` flag read with `GetJsBool(o, "selected")` and passed to the base wrapper is not modelled.
- BombWrapper.SpawnObject: the collection argument is taken to be the note collection, the one `DeleteObject` removes from. Spawning into any other collection is not modelled.
- The batching flags passed to the collection's spawn and delete calls: they only affect re-rendering.
- Exceptions other than an aborted harvest or a throwing check: for example, one thrown by the colouring loops after the new result is assigned. The C# `catch` swallows these, and the model does not represent them. A missing info-text widget is modelled: the run still commits and resets the cursor, and no text is shown.
- Null entries in the problem list (the `?.` at CMJS.cs:241 and 249): entries are never null in the model, so a non-empty list always seeks. A null reason is modelled and shows "...".
- The `errors == null` test at CMJS.cs:206: after a completed run the result is never null in the model.
- Culture-specific number formatting: `int.ToString()` is modelled with the invariant culture's minus sign.
