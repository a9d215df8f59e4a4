/** The check runner: one run of a check over the editor's objects, the
    circular cursor over the problems it found, and the outline colour an
    object gets when its scene representation loads. */
module Runner {
  import opened Outcomes
  import opened Int32
  import opened Decimal
  import opened TimedObjects
  import opened StableSort
  import opened Checks

  // ---------------------------------------------------------------------
  // Parameter harvest

  /** The state of one parameter widget when the run starts. */
  datatype Widget = TextInput(text: string) | Dropdown(value: int32) | Toggle(isOn: bool) | OtherWidget

  /** The text a widget hands to its parameter's parser. */
  function WidgetValue(w: Widget): (v: ParamValue)
    ensures v.NullValue? <==> w.OtherWidget?
    ensures w.TextInput? ==> v == ParsedFrom(w.text)
  {
    match w
    case TextInput(t) => ParsedFrom(t)
    case Dropdown(v) => ParsedFrom(IntToString(v))
    case Toggle(b) => ParsedFrom(BoolToString(b))
    case OtherWidget => NullValue
  }

  /** Pairs the i-th widget with the check's i-th parameter name. A widget
      without a declared parameter is an index out of range, which aborts the
      run (None). */
  function Harvest(params: seq<CheckParam>, widgets: seq<Widget>): (r: Option<seq<(string, ParamValue)>>)
    ensures r.None? <==> |widgets| > |params|
    ensures r.Some? ==> |r.value| == |widgets|
    ensures r.Some? ==> forall i :: 0 <= i < |widgets| ==> r.value[i].0 == params[i].name
  {
    if |widgets| > |params| then None
    else Some(seq(|widgets|, i requires 0 <= i < |widgets| => (params[i].name, WidgetValue(widgets[i]))))
  }

  /** Each harvested value determines the widget state it came from. */
  lemma HarvestReadsBack(params: seq<CheckParam>, widgets: seq<Widget>, i: nat)
    requires |widgets| <= |params| && i < |widgets|
    ensures var v := Harvest(params, widgets).value[i].1;
      && (widgets[i].TextInput? ==> v == ParsedFrom(widgets[i].text))
      && (widgets[i].Dropdown? ==> v.ParsedFrom? && ParseInt(v.text) == Some(widgets[i].value as int))
      && (widgets[i].Toggle? ==> v.ParsedFrom? && ParseBool(v.text) == Some(widgets[i].isOn))
      && (widgets[i].OtherWidget? ==> v == NullValue)
  {
    match widgets[i]
    case Dropdown(d) => ParseIntToString(d);
    case Toggle(b) => ParseBoolToString(b);
    case _ =>
  }

  // ---------------------------------------------------------------------
  // Gathering the object lists

  /** The loaded objects of each editor container. The note container holds
      both colour notes and bombs. */
  datatype Containers = Containers(
    notes: seq<TimedObject>,
    arcs: seq<TimedObject>,
    chains: seq<TimedObject>,
    walls: seq<TimedObject>,
    events: seq<TimedObject>,
    customEvents: seq<TimedObject>,
    bpmEvents: seq<TimedObject>)

  /** The arguments handed to PerformCheck: every list stably sorted by time;
      in format version 3 the note container is split by kind, otherwise it is
      passed whole and bombs, arcs and chains are empty. */
  function Gather(c: Containers, isV3: bool, vals: seq<(string, ParamValue)>): (inp: CheckInput)
    ensures isV3 ==> StableSortOf(inp.notes, OfKind(c.notes, ColorNote))
    ensures isV3 ==> StableSortOf(inp.bombs, OfKind(c.notes, Bomb))
    ensures isV3 ==> StableSortOf(inp.arcs, c.arcs) && StableSortOf(inp.chains, c.chains)
    ensures !isV3 ==> StableSortOf(inp.notes, c.notes)
    ensures !isV3 ==> inp.bombs == [] && inp.arcs == [] && inp.chains == []
    ensures StableSortOf(inp.walls, c.walls) && StableSortOf(inp.events, c.events)
    ensures StableSortOf(inp.customEvents, c.customEvents) && StableSortOf(inp.bpmEvents, c.bpmEvents)
    ensures inp.vals == vals
  {
    var walls := SortByTime(c.walls);
    var events := SortByTime(c.events);
    var customEvents := SortByTime(c.customEvents);
    var bpmEvents := SortByTime(c.bpmEvents);
    if isV3 then
      CheckInput(
        SortByTime(OfKind(c.notes, ColorNote)), SortByTime(OfKind(c.notes, Bomb)),
        SortByTime(c.arcs), SortByTime(c.chains),
        events, walls, customEvents, bpmEvents, vals)
    else
      CheckInput(SortByTime(c.notes), [], [], [], events, walls, customEvents, bpmEvents, vals)
  }

  // ---------------------------------------------------------------------
  // Runner state and the summary line

  /** A result as the runner holds it: its lists are C# lists, so they hold
      at most `int.MaxValue` problems. */
  type Committed = r: CheckResult | |r.all| <= MAX witness Cleared

  /** `errors` is the last committed result (null before the first run);
      `status` is the problem-info text, None when that widget is absent. */
  datatype Runner = Runner(errors: Option<Committed>, index: int32, movedAfterRun: bool, status: Option<string>)

  /** A runner before its first run: no result, the cursor at 0, not moved. */
  function Initial(status: Option<string>): (r: Runner)
    ensures r.errors.None? && r.index == 0 && !r.movedAfterRun && r.status == status
    ensures Valid(r)
  {
    Runner(None, 0, false, status)
  }

  /** The cursor lies inside the problem list whenever there is one. */
  predicate Valid(s: Runner) {
    && 0 <= s.index
    && (s.errors.Some? && |s.errors.value.all| > 0 ==> s.index < |s.errors.value.all|)
  }

  const NoProblems: string := "No problems found"
  const ProblemsSuffix: string := " problems found"

  function Summary(count: nat): (r: string)
    ensures count == 0 <==> r == NoProblems
    ensures count > 0 ==> |r| > |ProblemsSuffix| && r[|r| - |ProblemsSuffix|..] == ProblemsSuffix
  {
    if count < 1 then NoProblems
    else
      var digits := NatToString(count);
      assert (digits + ProblemsSuffix)[0] == digits[0] && NoProblems[0] == 'N';
      digits + ProblemsSuffix
  }

  /** Reads a summary line back into a problem count. */
  function ParseSummary(text: string): Option<nat> {
    if text == NoProblems then Some(0)
    else if |text| > |ProblemsSuffix| && text[|text| - |ProblemsSuffix|..] == ProblemsSuffix then
      ParseNat(text[..|text| - |ProblemsSuffix|])
    else None
  }

  /** The summary names exactly the number of problems. */
  lemma SummaryRoundTrip(count: nat)
    ensures ParseSummary(Summary(count)) == Some(count)
  {
    if count >= 1 {
      var digits := NatToString(count);
      var text := digits + ProblemsSuffix;
      assert text[0] == digits[0];
      assert text != NoProblems by {
        assert IsDigit(digits[0]);
      }
      assert text[|text| - |ProblemsSuffix|..] == ProblemsSuffix;
      assert text[..|text| - |ProblemsSuffix|] == digits;
      ParseNatToString(count);
    }
  }

  // ---------------------------------------------------------------------
  // One run

  /** CheckErrors. `perform` is the selected check's PerformCheck followed by
      Commit; None stands for an exception, which is caught and leaves the
      runner as it was. */
  function CheckErrors(
    s: Runner, check: Check, perform: CheckInput -> Option<Committed>,
    isV3: bool, c: Containers, widgets: seq<Widget>): (r: Runner)
    ensures |widgets| > |check.params| ==> r == s
    ensures |widgets| <= |check.params| ==>
      var input := Gather(c, isV3, Harvest(check.params, widgets).value);
      && (perform(input).None? ==> r == s)
      && (perform(input).Some? ==>
            && r.errors == perform(input)
            && r.index == 0 && !r.movedAfterRun
            && (s.status.Some? ==> r.status == Some(Summary(|perform(input).value.all|)))
            && (s.status.None? ==> r.status.None?))
  {
    match Harvest(check.params, widgets)
    case None => s
    case Some(vals) =>
      match perform(Gather(c, isV3, vals))
      case None => s
      case Some(res) =>
        var status := if s.status.Some? then Some(Summary(|res.all|)) else None;
        Runner(Some(res), 0, false, status)
  }

  /** A run keeps the runner valid. */
  lemma CheckErrorsKeepsValid(
    s: Runner, check: Check, perform: CheckInput -> Option<Committed>,
    isV3: bool, c: Containers, widgets: seq<Widget>)
    requires Valid(s)
    ensures Valid(CheckErrors(s, check, perform, isV3, c, widgets))
  {
  }

  // ---------------------------------------------------------------------
  // Navigation

  /** `(index + offset) % count` with C#'s 32-bit wrap-around and truncating
      `%`, then moved up by `count` when negative. */
  function NextIndex(index: int32, offset: int32, count: int): (r: int32)
    requires 0 < count <= MAX
    ensures 0 <= r < count
    ensures MIN <= index + offset <= MAX ==> r == (index + offset) % count
  {
    var t := Rem(Wrap(index + offset), count);
    CorrectedRemIsMod(Wrap(index + offset), count);
    if t < 0 then t + count else t
  }

  /** For every index and offset, overflowing or not, the new index is the
      Euclidean remainder of the wrapped 32-bit sum. */
  lemma NextIndexExact(index: int32, offset: int32, count: int)
    requires 0 < count <= MAX
    ensures NextIndex(index, offset, count) == Wrap(index + offset) % count
  {
    CorrectedRemIsMod(Wrap(index + offset), count);
  }

  /** The runner after navigating, and the playback time it asked to seek to. */
  datatype Navigation = Navigation(state: Runner, seek: Option<real>)

  /** The offset actually applied: the first move after a run turns a
      positive offset into 0. */
  function Effective(s: Runner, offset: int32): (r: int32)
    ensures !s.movedAfterRun && offset > 0 ==> r == 0
    ensures s.movedAfterRun || offset <= 0 ==> r == offset
  {
    if !s.movedAfterRun && offset > 0 then 0 else offset
  }

  /** NextBlock(offset). */
  function NextBlock(s: Runner, offset: int32): (n: Navigation)
    ensures n.state.movedAfterRun
    ensures n.state.errors == s.errors
    ensures s.errors.None? || |s.errors.value.all| == 0 ==>
      n.state.index == s.index && n.seek.None? && n.state.status == s.status
    ensures s.errors.Some? && |s.errors.value.all| > 0 ==>
      var all := s.errors.value.all;
      && 0 <= n.state.index < |all|
      && (MIN <= s.index + Effective(s, offset) <= MAX ==>
            n.state.index == (s.index + Effective(s, offset)) % |all|)
      && n.seek == Some(all[n.state.index].obj.songBpmTime)
      && (s.status.Some? ==> n.state.status == Some(all[n.state.index].reason.GetOr("...")))
      && (s.status.None? ==> n.state.status.None?)
    ensures Valid(s) ==> Valid(n.state)
  {
    var off := Effective(s, offset);
    if s.errors.None? || |s.errors.value.all| < 1 then
      Navigation(s.(movedAfterRun := true), None)
    else
      var all := s.errors.value.all;
      var index := NextIndex(s.index, off, |all|);
      var status := if s.status.Some? then Some(all[index].reason.GetOr("...")) else None;
      Navigation(Runner(s.errors, index, true, status), Some(all[index].obj.songBpmTime))
  }

  /** Navigating once more from a moved cursor by a small step: the cursor
      moves by exactly that step, modulo the list length. */
  lemma StepFromMoved(s: Runner, offset: int32)
    requires Valid(s) && s.movedAfterRun
    requires s.errors.Some? && |s.errors.value.all| > 0
    requires -1 <= offset <= 1
    ensures NextBlock(s, offset).state.index == (s.index + offset) % |s.errors.value.all|
  {
  }

  lemma ModStep(a: int, n: int)
    requires n > 0
    ensures (a % n + 1) % n == (a + 1) % n
  {
    var q := a / n;
    var m := a % n;
    assert a == q * n + m;
    if m + 1 < n {
      assert a + 1 == q * n + (m + 1);
      ModUnique(a + 1, n, q, m + 1);
      ModUnique(m + 1, n, 0, m + 1);
    } else {
      assert m + 1 == n;
      assert a + 1 == (q + 1) * n + 0;
      ModUnique(a + 1, n, q + 1, 0);
      ModUnique(m + 1, n, 1, 0);
    }
  }

  /** `k` calls of NextBlock(1). */
  function Advance(s: Runner, k: nat): Runner
    decreases k
  {
    if k == 0 then s else Advance(NextBlock(s, 1).state, k - 1)
  }

  lemma {:induction false} AdvanceIndex(s: Runner, k: nat)
    requires Valid(s) && s.movedAfterRun
    requires s.errors.Some? && |s.errors.value.all| > 0
    ensures Advance(s, k).index == (s.index + k) % |s.errors.value.all|
    ensures Advance(s, k).errors == s.errors && Advance(s, k).movedAfterRun
    decreases k
  {
    var n := |s.errors.value.all|;
    if k == 0 {
      ModUnique(s.index, n, 0, s.index);
    } else {
      var next := NextBlock(s, 1).state;
      StepFromMoved(s, 1);
      AdvanceIndex(next, k - 1);
      ModStep(s.index, n);
      assert next.index == (s.index + 1) % n;
      ModAdd(s.index + 1, k - 1, n);
    }
  }

  lemma ModAdd(a: int, b: int, n: int)
    requires n > 0
    ensures (a % n + b) % n == (a + b) % n
  {
    var q := a / n;
    assert a == q * n + a % n;
    var r := (a % n + b) % n;
    var p := (a % n + b) / n;
    assert a % n + b == p * n + r;
    assert a + b == (q + p) * n + r;
    ModUnique(a + b, n, q + p, r);
  }

  /** Once the cursor has moved, as many NextBlock(1) calls as there are
      problems bring it back to where it started. */
  lemma CycleReturns(s: Runner)
    requires Valid(s) && s.movedAfterRun
    requires s.errors.Some? && |s.errors.value.all| > 0
    ensures Advance(s, |s.errors.value.all|).index == s.index
  {
    var n := |s.errors.value.all|;
    assert Advance(s, n).index == (s.index + n) % n by {
      AdvanceIndex(s, n);
    }
    AddModulus(s.index, n);
  }

  lemma AddModulus(i: int, n: int)
    requires 0 <= i < n
    ensures (i + n) % n == i
  {
    ModUnique(i + n, n, 1, i);
  }

  /** Once the cursor has moved, NextBlock(-1) undoes NextBlock(1) and
      NextBlock(1) undoes NextBlock(-1). */
  lemma StepBackUndoes(s: Runner)
    requires Valid(s) && s.movedAfterRun
    requires s.errors.Some? && |s.errors.value.all| > 0
    ensures NextBlock(NextBlock(s, 1).state, -1).state.index == s.index
    ensures NextBlock(NextBlock(s, -1).state, 1).state.index == s.index
  {
    BackAfterForward(s);
    ForwardAfterBack(s);
  }

  lemma BackAfterForward(s: Runner)
    requires Valid(s) && s.movedAfterRun
    requires s.errors.Some? && |s.errors.value.all| > 0
    ensures NextBlock(NextBlock(s, 1).state, -1).state.index == s.index
  {
    var n := |s.errors.value.all|;
    var fwd := NextBlock(s, 1).state;
    StepFromMoved(s, 1);
    StepFromMoved(fwd, -1);
    if s.index + 1 < n {
      ModUnique(s.index + 1, n, 0, s.index + 1);
      ModUnique(s.index, n, 0, s.index);
    } else {
      ModUnique(s.index + 1, n, 1, 0);
      ModUnique(-1, n, -1, n - 1);
    }
  }

  lemma ForwardAfterBack(s: Runner)
    requires Valid(s) && s.movedAfterRun
    requires s.errors.Some? && |s.errors.value.all| > 0
    ensures NextBlock(NextBlock(s, -1).state, 1).state.index == s.index
  {
    var n := |s.errors.value.all|;
    var back := NextBlock(s, -1).state;
    StepFromMoved(s, -1);
    StepFromMoved(back, 1);
    if s.index > 0 {
      ModUnique(s.index - 1, n, 0, s.index - 1);
      ModUnique(s.index, n, 0, s.index);
    } else {
      ModUnique(-1, n, -1, n - 1);
      ModUnique(n, n, 1, 0);
    }
  }

  /** The first NextBlock after a successful run lands on the first problem
      for a positive offset, and applies a non-positive offset from 0. */
  lemma FirstMoveAfterRun(
    s: Runner, check: Check, perform: CheckInput -> Option<Committed>,
    isV3: bool, c: Containers, widgets: seq<Widget>, offset: int32)
    requires Valid(s)
    requires |widgets| <= |check.params|
    requires var input := Gather(c, isV3, Harvest(check.params, widgets).value);
      perform(input).Some? && 0 < |perform(input).value.all|
    ensures var r := CheckErrors(s, check, perform, isV3, c, widgets);
      var all := r.errors.value.all;
      && Valid(r)
      && (offset > 0 ==> NextBlock(r, offset).state.index == 0 && NextBlock(r, offset).seek == Some(all[0].obj.songBpmTime))
      && (offset <= 0 ==> NextBlock(r, offset).state.index == offset % |all|)
  {
  }

  // ---------------------------------------------------------------------
  // Outline colour on load

  datatype Colour = Red | Yellow

  /** Whether some problem in `ps` is about `o`. */
  function Mentions(ps: seq<Problem>, o: TimedObject): (r: bool)
    ensures r <==> exists i :: 0 <= i < |ps| && ps[i].obj == o
    decreases |ps|
  {
    if |ps| == 0 then false
    else ps[0].obj == o || Mentions(ps[1..], o)
  }

  /** ObjectLoaded: errors take priority over warnings; None leaves the
      outline alone. */
  function ObjectLoaded(s: Runner, data: Option<TimedObject>): (r: Option<Colour>)
    ensures r == Some(Red) <==>
      (&& data.Some? && s.errors.Some?
       && exists i :: 0 <= i < |s.errors.value.errors| && s.errors.value.errors[i].obj == data.value)
    ensures r == Some(Yellow) <==>
      (&& data.Some? && s.errors.Some?
       && (forall i :: 0 <= i < |s.errors.value.errors| ==> s.errors.value.errors[i].obj != data.value)
       && exists i :: 0 <= i < |s.errors.value.warnings| && s.errors.value.warnings[i].obj == data.value)
  {
    if data.None? || s.errors.None? then None
    else if Mentions(s.errors.value.errors, data.value) then Some(Red)
    else if Mentions(s.errors.value.warnings, data.value) then Some(Yellow)
    else None
  }
}
