/** Whole runs of the runner with concrete checks. */
module Scenarios {
  import opened Outcomes
  import opened Int32
  import opened Decimal
  import opened TimedObjects
  import opened StableSort
  import opened Checks
  import opened Runner
  import EmptyCheck

  /** The placeholder check as the runner calls it. */
  function RunEmpty(input: CheckInput): Option<Committed> {
    Some(EmptyCheck.PerformCheck(EmptyCheck.New(), input).result)
  }

  /** Running the placeholder check reports no problems, and navigating
      afterwards leaves the cursor at 0 and seeks nowhere. */
  lemma EmptyCheckRun(s: Runner, isV3: bool, c: Containers, offset: int32)
    requires Valid(s)
    ensures var r := CheckErrors(s, EmptyCheck.New(), RunEmpty, isV3, c, []);
      && r.errors == Some(Cleared) && r.index == 0 && !r.movedAfterRun
      && (s.status.Some? ==> r.status == Some("No problems found"))
      && NextBlock(r, offset).state.index == 0
      && NextBlock(r, offset).seek.None?
  {
  }

  /** A check that reports the second note it is given as an error. */
  function SecondNoteIsError(input: CheckInput): Option<Committed> {
    if |input.notes| < 2 then None
    else
      var p := Problem(input.notes[1], Some("bad note"));
      Some(CheckResult([p], [], [p]))
  }

  const N1: TimedObject := TimedObject(1, ColorNote, 1.0, 10.0)
  const N2: TimedObject := TimedObject(2, ColorNote, 2.0, 20.0)
  const N3: TimedObject := TimedObject(3, ColorNote, 3.0, 30.0)

  /** Three notes at beats 1, 2 and 3, loaded out of order. */
  const ThreeNotes: Containers := Containers([N3, N1, N2], [], [], [], [], [], [])

  const SecondNoteResult: CheckResult :=
    CheckResult([Problem(N2, Some("bad note"))], [], [Problem(N2, Some("bad note"))])

  /** The check is handed the notes in time order. */
  lemma ThreeNotesInput()
    ensures Harvest([], []) == Some([])
    ensures Gather(ThreeNotes, false, []) == CheckInput([N1, N2, N3], [], [], [], [], [], [], [], [])
    ensures SecondNoteIsError(Gather(ThreeNotes, false, [])) == Some(SecondNoteResult)
  {
    assert Harvest([], []) == Some([]);
    ThreeNotesSorted(N1, N2, N3);
    assert SortByTime([]) == [];
  }

  /** The run commits the one problem and reports its count. */
  lemma ThreeNotesRun(status: string)
    ensures CheckErrors(Initial(Some(status)), Check("second", [], Cleared), SecondNoteIsError, false, ThreeNotes, [])
      == Runner(Some(SecondNoteResult), 0, false, Some("1 problems found"))
  {
    var r := CheckErrors(Initial(Some(status)), Check("second", [], Cleared), SecondNoteIsError, false, ThreeNotes, []);
    ThreeNotesInput();
    assert r.errors == Some(SecondNoteResult);
    assert r.status == Some(Summary(1));
    SummaryOfOne();
  }

  lemma SummaryOfOne()
    ensures Summary(1) == "1 problems found"
  {
    assert DigitChar(1) == '1';
    assert NatToString(1) == ['1'];
    assert ['1'] + ProblemsSuffix == "1 problems found";
  }

  /** The first NextBlock(1) after the run stays on the problem at beat 2 and
      seeks to it. */
  lemma SecondNoteScenario(status: string)
    ensures
      var r := CheckErrors(Initial(Some(status)), Check("second", [], Cleared), SecondNoteIsError, false, ThreeNotes, []);
      && r.errors == Some(SecondNoteResult)
      && r.status == Some("1 problems found")
      && NextBlock(r, 1).state.index == 0
      && NextBlock(r, 1).seek == Some(N2.songBpmTime)
      && NextBlock(r, 1).state.status == Some("bad note")
  {
    ThreeNotesRun(status);
  }

  lemma ThreeNotesSorted(n1: TimedObject, n2: TimedObject, n3: TimedObject)
    requires n1.jsonTime < n2.jsonTime < n3.jsonTime
    ensures SortByTime([n3, n1, n2]) == [n1, n2, n3]
  {
    assert [n2][1..] == [];
    assert SortByTime([n2]) == [n2];
    assert [n1, n2][1..] == [n2];
    assert SortByTime([n1, n2]) == Insert(n1, [n2]) == [n1, n2];
    assert [n3, n1, n2][1..] == [n1, n2];
    assert [n1, n2][1..] == [n2];
    assert Insert(n3, []) == [n3];
    assert Insert(n3, [n2]) == [n2] + Insert(n3, []) == [n2, n3];
    assert Insert(n3, [n1, n2]) == [n1] + Insert(n3, [n2]) == [n1, n2, n3];
  }
}
