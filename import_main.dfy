/**
 * The counting loop of the import's entry point: every row of the sheet is
 * skipped (no title), counted as a success (its payload was built and
 * accepted), counted as an error (building or submitting raised), or, when
 * the catalogue accepts it with a reply that is not a JSON object, counted as
 * both. The outcome of the HTTP submission is not computed here: it is given,
 * one per row.
 */
module ImportMain {
  import opened Wrappers
  import opened ImportDatasets

  /** What `submit_to_api` and the success line do with one payload. */
  datatype Submission =
    | Rejected             // submit_to_api raises: a status other than 200/201, no JSON body, no connection
    | Created              // accepted, the reply is a JSON object
    | CreatedNotAnObject   // accepted, but the reply has no `.get`: raises after the success is counted

  /** The two counters of the loop. */
  datatype Summary = Summary(success: nat, errors: nat)
  {
    /** The "Total processed" line of the summary. */
    function Total(): nat { success + errors }
  }

  /** A row on which the loop itself raises KeyError, outside the `try`: the
      sheet has no `title` column, or the row has a title and the sheet has no
      `identificator` column (read for the progress line). */
  predicate Fatal(row: Row)
  {
    "title" !in row || (row["title"].Some? && "identificator" !in row)
  }

  /** The row has a title, so it is not skipped as empty. */
  predicate Titled(row: Row)
  {
    "title" in row && row["title"].Some?
  }

  /** A titled row whose payload is built and whose submission is accepted. */
  predicate Succeeds(row: Row, outcome: Submission)
  {
    Titled(row) && Buildable(row) && !outcome.Rejected?
  }

  /** A row counted as a success and then as an error as well. */
  predicate CountedTwice(row: Row, outcome: Submission)
  {
    Succeeds(row, outcome) && outcome.CreatedNotAnObject?
  }

  /** One iteration of the loop: None when it raises outside the `try`. */
  function Step(s: Summary, row: Row, outcome: Submission): (r: Option<Summary>)
    ensures r.None? <==> Fatal(row)
    ensures r.Some? && !Titled(row) ==> r.value == s
    ensures r.Some? && Titled(row) ==>
      && r.value.success == s.success + (if Succeeds(row, outcome) then 1 else 0)
      && r.value.errors == s.errors + (if !Succeeds(row, outcome) || CountedTwice(row, outcome) then 1 else 0)
  {
    if "title" !in row then None
    else if row["title"].None? then Some(s)
    else if "identificator" !in row then None
    else if !Buildable(row) then Some(Summary(s.success, s.errors + 1))
    else match outcome
      case Rejected => Some(Summary(s.success, s.errors + 1))
      case Created => Some(Summary(s.success + 1, s.errors))
      case CreatedNotAnObject => Some(Summary(s.success + 1, s.errors + 1))
  }

  /** The loop over `rows` from the counters `s`: None when it raises. */
  function Run(s: Summary, rows: seq<Row>, outcomes: seq<Submission>): Option<Summary>
    requires |outcomes| == |rows|
    decreases |rows|
  {
    if rows == [] then Some(s)
    else match Step(s, rows[0], outcomes[0])
      case None => None
      case Some(next) => Run(next, rows[1..], outcomes[1..])
  }

  /** The number of titled rows. */
  function CountTitled(rows: seq<Row>): nat
  {
    if rows == [] then 0 else (if Titled(rows[0]) then 1 else 0) + CountTitled(rows[1..])
  }

  /** The number of rows counted twice. */
  function CountTwice(rows: seq<Row>, outcomes: seq<Submission>): nat
    requires |outcomes| == |rows|
  {
    if rows == [] then 0
    else (if CountedTwice(rows[0], outcomes[0]) then 1 else 0) + CountTwice(rows[1..], outcomes[1..])
  }

  /** The number of rows that succeed. */
  function CountSucceeds(rows: seq<Row>, outcomes: seq<Submission>): nat
    requires |outcomes| == |rows|
  {
    if rows == [] then 0
    else (if Succeeds(rows[0], outcomes[0]) then 1 else 0) + CountSucceeds(rows[1..], outcomes[1..])
  }

  /** The loop of `main`, from the read sheet to the summary counters.
      `completed` is false when a KeyError ends the run early. */
  method ImportRows(rows: seq<Row>, outcomes: seq<Submission>, publisher: Json)
    returns (success: nat, errors: nat, completed: bool)
    requires |outcomes| == |rows|
    ensures completed <==> Run(Summary(0, 0), rows, outcomes).Some?
    ensures completed ==> Run(Summary(0, 0), rows, outcomes) == Some(Summary(success, errors))
  {
    success, errors := 0, 0;
    for i := 0 to |rows|
      invariant Run(Summary(0, 0), rows, outcomes) == Run(Summary(success, errors), rows[i..], outcomes[i..])
    {
      assert rows[i..][1..] == rows[i + 1..] && outcomes[i..][1..] == outcomes[i + 1..];
      var row := rows[i];
      if "title" !in row {
        return success, errors, false;
      }
      if row["title"].None? {
        continue;
      }
      if "identificator" !in row {
        return success, errors, false;
      }
      var payload := CreateDatasetPayload(row, publisher);
      if payload.Failure? {
        errors := errors + 1;
      } else {
        match outcomes[i]
        case Rejected =>
          errors := errors + 1;
        case Created =>
          success := success + 1;
        case CreatedNotAnObject =>
          success := success + 1;
          errors := errors + 1;
      }
    }
    assert rows[|rows|..] == [];
    completed := true;
  }

  /** The run raises exactly when some row is fatal; a row that only fails to
      build or to submit never ends the run. */
  lemma {:induction false} RunAborts(s: Summary, rows: seq<Row>, outcomes: seq<Submission>)
    requires |outcomes| == |rows|
    ensures Run(s, rows, outcomes).None? <==> exists i :: 0 <= i < |rows| && Fatal(rows[i])
    decreases |rows|
  {
    if rows != [] {
      var next := Step(s, rows[0], outcomes[0]);
      if next.Some? {
        RunAborts(next.value, rows[1..], outcomes[1..]);
        if exists i :: 0 <= i < |rows| && Fatal(rows[i]) {
          var i :| 0 <= i < |rows| && Fatal(rows[i]);
          assert i != 0;
          assert Fatal(rows[1..][i - 1]);
        }
        if exists i :: 0 <= i < |rows| - 1 && Fatal(rows[1..][i]) {
          var i :| 0 <= i < |rows| - 1 && Fatal(rows[1..][i]);
          assert Fatal(rows[i + 1]);
        }
      } else {
        assert Fatal(rows[0]);
      }
    }
  }

  /** A completed run adds one success per succeeding row and one error per
      other titled row, plus one error per row counted twice: the summary's
      total is the number of titled rows only when no row is counted twice. */
  lemma {:induction false} RunCounts(s: Summary, rows: seq<Row>, outcomes: seq<Submission>)
    requires |outcomes| == |rows|
    requires Run(s, rows, outcomes).Some?
    ensures Run(s, rows, outcomes).value.success == s.success + CountSucceeds(rows, outcomes)
    ensures Run(s, rows, outcomes).value.Total() == s.Total() + CountTitled(rows) + CountTwice(rows, outcomes)
    decreases |rows|
  {
    if rows != [] {
      var next := Step(s, rows[0], outcomes[0]);
      RunCounts(next.value, rows[1..], outcomes[1..]);
    }
  }

  /** Running over `a + b` is running over `a` and then, from its counters,
      over `b`. */
  lemma {:induction false} RunConcat(s: Summary, a: seq<Row>, b: seq<Row>, outA: seq<Submission>, outB: seq<Submission>)
    requires |outA| == |a| && |outB| == |b|
    ensures Run(s, a + b, outA + outB) ==
      match Run(s, a, outA)
      case None => None
      case Some(t) => Run(t, b, outB)
    decreases |a|
  {
    if a != [] {
      assert (a + b)[1..] == a[1..] + b && (outA + outB)[1..] == outA[1..] + outB;
      var next := Step(s, a[0], outA[0]);
      if next.Some? {
        RunConcat(next.value, a[1..], b, outA[1..], outB);
      }
    } else {
      assert a + b == b && outA + outB == outB;
    }
  }

  /** Three titled rows whose payloads build: the first accepted, the second
      rejected, the third accepted with a reply that is not an object. Three
      rows give two successes and two errors. */
  lemma ThreeRows(r1: Row, r2: Row, r3: Row)
    requires Titled(r1) && Titled(r2) && Titled(r3)
    requires Buildable(r1) && Buildable(r2) && Buildable(r3)
    ensures Run(Summary(0, 0), [r1, r2, r3], [Created, Rejected, CreatedNotAnObject]) == Some(Summary(2, 2))
  {
    assert [r3][1..] == [] && [CreatedNotAnObject][1..] == [];
    assert Run(Summary(1, 1), [r3], [CreatedNotAnObject]) == Some(Summary(2, 2));
    assert [r2, r3][1..] == [r3] && [Rejected, CreatedNotAnObject][1..] == [CreatedNotAnObject];
    assert Run(Summary(1, 0), [r2, r3], [Rejected, CreatedNotAnObject]) == Some(Summary(2, 2));
    assert [r1, r2, r3][1..] == [r2, r3] && [Created, Rejected, CreatedNotAnObject][1..] == [Rejected, CreatedNotAnObject];
  }
}
