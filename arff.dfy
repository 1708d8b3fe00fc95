/** Writing the training and testing ARFF files of one walk-forward step
    (`createTrainingArff`, `createTestingArff`).

    The input file is a sequence of rows already cut into fields; row 0 is
    a header and is skipped. Column 0 holds the release ordinal, column 1
    an identifier; a kept row is written as its fields from column 2 on,
    joined by ",". The output file is a sequence of lines. */
module Arff {
  import opened Wrappers
  import opened Text

  /** The Java exceptions that escape the experiment driver uncaught. */
  datatype Exception =
    | IndexOutOfBounds       // `values[0]` or `values[2]` on a row that is too short
    | NumberFormat           // `Integer.parseInt` on column 0
    | MalformedArff          // the learning library cannot read an ARFF file back
    | LibraryError(reason: string)  // any exception thrown by a learner or a filter

  type Row = seq<string>

  const RelationTag := "@relation "
  const AttributeTag := "@attribute "
  const DataTag := "@data"

  function AttributeLines(attributes: seq<string>): seq<string> {
    seq(|attributes|, k requires 0 <= k < |attributes| => AttributeTag + attributes[k])
  }

  /** The ARFF header shared by the training and the testing file. */
  function Header(project: string, attributes: seq<string>): seq<string> {
    [RelationTag + project] + AttributeLines(attributes) + [DataTag]
  }

  /** The rows after the header row, which is read and ignored. */
  function DataRows(file: seq<Row>): seq<Row> {
    if |file| == 0 then [] else file[1..]
  }

  /** `Integer.parseInt(values[0])`, with the exceptions it can raise. */
  function Ordinal(row: Row): (r: Result<int, Exception>)
    ensures r.Success? ==> |row| > 0 && MinInt <= r.value <= MaxInt
    ensures |row| == 0 ==> r == Failure(IndexOutOfBounds)
    ensures |row| > 0 ==> (r.Success? <==> ParseInt(row[0]).Some?)
    ensures r.Success? ==> |row| > 0 && r.value == ParseInt(row[0]).value
    ensures |row| > 0 && r.Failure? ==> r.error == NumberFormat
  {
    if |row| == 0 then Failure(IndexOutOfBounds)
    else match ParseInt(row[0])
      case None => Failure(NumberFormat)
      case Some(v) => Success(v)
  }

  /** A kept row as written: columns 2 to the last, joined by ",". */
  function DataLine(row: Row): string
    requires |row| >= 3
  {
    Join(row[2..], ',')
  }

  /** The data lines of the training file for `release`: the scan stops at
      the first row whose ordinal is `>= release`. */
  function TrainingData(rows: seq<Row>, release: int): Result<seq<string>, Exception> {
    if rows == [] then Success([])
    else
      var ordinal :- Ordinal(rows[0]);
      if ordinal >= release then Success([])
      else if |rows[0]| < 3 then Failure(IndexOutOfBounds)
      else
        var rest :- TrainingData(rows[1..], release);
        Success([DataLine(rows[0])] + rest)
  }

  /** The data lines of the testing file for `release`: rows with a smaller
      ordinal are skipped, rows with ordinal `release` are kept and the scan
      stops at the first row with a larger one. */
  function TestingData(rows: seq<Row>, release: int): Result<seq<string>, Exception> {
    if rows == [] then Success([])
    else
      var ordinal :- Ordinal(rows[0]);
      if ordinal > release then Success([])
      else if ordinal < release then TestingData(rows[1..], release)
      else if |rows[0]| < 3 then Failure(IndexOutOfBounds)
      else
        var rest :- TestingData(rows[1..], release);
        Success([DataLine(rows[0])] + rest)
  }

  function TrainingArff(project: string, attributes: seq<string>, file: seq<Row>, release: int)
    : Result<seq<string>, Exception>
  {
    Prefixed(Header(project, attributes), TrainingData(DataRows(file), release))
  }

  function TestingArff(project: string, attributes: seq<string>, file: seq<Row>, release: int)
    : Result<seq<string>, Exception>
  {
    Prefixed(Header(project, attributes), TestingData(DataRows(file), release))
  }

  /** One step of the training scan, case by case. */
  lemma TrainingStep(rows: seq<Row>, release: int)
    requires rows != []
    ensures Ordinal(rows[0]).Failure? ==> TrainingData(rows, release) == Failure(Ordinal(rows[0]).error)
    ensures Ordinal(rows[0]).Success? && Ordinal(rows[0]).value >= release ==> TrainingData(rows, release) == Success([])
    ensures Ordinal(rows[0]).Success? && Ordinal(rows[0]).value < release && |rows[0]| < 3 ==>
      TrainingData(rows, release) == Failure(IndexOutOfBounds)
    ensures Ordinal(rows[0]).Success? && Ordinal(rows[0]).value < release && |rows[0]| >= 3 ==>
      TrainingData(rows, release) == Prefixed([DataLine(rows[0])], TrainingData(rows[1..], release))
  {
  }

  /** One step of the testing scan, case by case. */
  lemma TestingStep(rows: seq<Row>, release: int)
    requires rows != []
    ensures Ordinal(rows[0]).Failure? ==> TestingData(rows, release) == Failure(Ordinal(rows[0]).error)
    ensures Ordinal(rows[0]).Success? && Ordinal(rows[0]).value > release ==> TestingData(rows, release) == Success([])
    ensures Ordinal(rows[0]).Success? && Ordinal(rows[0]).value < release ==>
      TestingData(rows, release) == TestingData(rows[1..], release)
    ensures Ordinal(rows[0]).Success? && Ordinal(rows[0]).value == release && |rows[0]| < 3 ==>
      TestingData(rows, release) == Failure(IndexOutOfBounds)
    ensures Ordinal(rows[0]).Success? && Ordinal(rows[0]).value == release && |rows[0]| >= 3 ==>
      TestingData(rows, release) == Prefixed([DataLine(rows[0])], TestingData(rows[1..], release))
  {
  }

  // ---------------------------------------------------------------------
  // The writers, line by line as the source prints them.

  method WriteHeader(project: string, attributes: seq<string>) returns (printed: seq<string>)
    ensures printed == Header(project, attributes)
  {
    printed := [RelationTag + project];
    for i := 0 to |attributes|
      invariant printed == [RelationTag + project] + AttributeLines(attributes[..i])
    {
      assert AttributeLines(attributes[..i + 1]) == AttributeLines(attributes[..i]) + [AttributeTag + attributes[i]];
      printed := printed + [AttributeTag + attributes[i]];
    }
    assert attributes[..|attributes|] == attributes;
    printed := printed + [DataTag];
  }

  /** Builds `newLine` by repeated concatenation, as the source does. */
  method JoinFields(values: Row) returns (line: string)
    requires |values| >= 3
    ensures line == DataLine(values)
  {
    line := values[2];
    for i := 3 to |values|
      invariant line == Join(values[2..i], ',')
    {
      assert values[2..i + 1][..i - 2] == values[2..i];
      line := line + "," + values[i];
    }
    assert values[2..|values|] == values[2..];
  }

  method CreateTrainingArff(project: string, file: seq<Row>, attributes: seq<string>, release: int)
    returns (res: Result<seq<string>, Exception>)
    ensures res == TrainingArff(project, attributes, file, release)
  {
    var printed := WriteHeader(project, attributes);
    var rows := DataRows(file);
    var j := 0;
    while j < |rows|
      invariant j <= |rows|
      invariant TrainingArff(project, attributes, file, release) == Prefixed(printed, TrainingData(rows[j..], release))
    {
      var values := rows[j];
      assert rows[j..][0] == values && rows[j..][1..] == rows[j + 1..];
      TrainingStep(rows[j..], release);
      var ordinal := Ordinal(values);
      if ordinal.Failure? {
        return Failure(ordinal.error);
      }
      if ordinal.value >= release {
        break;
      }
      if |values| < 3 {
        return Failure(IndexOutOfBounds);
      }
      var line := JoinFields(values);
      PrefixedTwice(printed, [line], TrainingData(rows[j + 1..], release));
      printed := printed + [line];
      j := j + 1;
    }
    assert j == |rows| ==> rows[j..] == [];
    assert printed + [] == printed;
    return Success(printed);
  }

  method CreateTestingArff(project: string, file: seq<Row>, attributes: seq<string>, release: int)
    returns (res: Result<seq<string>, Exception>)
    ensures res == TestingArff(project, attributes, file, release)
  {
    var printed := WriteHeader(project, attributes);
    var rows := DataRows(file);
    var j := 0;
    while j < |rows|
      invariant j <= |rows|
      invariant TestingArff(project, attributes, file, release) == Prefixed(printed, TestingData(rows[j..], release))
    {
      var values := rows[j];
      assert rows[j..][0] == values && rows[j..][1..] == rows[j + 1..];
      TestingStep(rows[j..], release);
      var ordinal := Ordinal(values);
      if ordinal.Failure? {
        return Failure(ordinal.error);
      }
      var current := ordinal.value;
      if current > release {
        break;
      } else if current == release {
        if |values| < 3 {
          return Failure(IndexOutOfBounds);
        }
        var line := JoinFields(values);
        PrefixedTwice(printed, [line], TestingData(rows[j + 1..], release));
        printed := printed + [line];
      }
      j := j + 1;
    }
    assert j == |rows| ==> rows[j..] == [];
    assert printed + [] == printed;
    return Success(printed);
  }

  // ---------------------------------------------------------------------
  // What the scans select.

  /** A row the scans can process wherever they meet it. */
  predicate RowOk(row: Row) {
    |row| >= 3 && Ordinal(row).Success?
  }

  function Ord(row: Row): int
    requires Ordinal(row).Success?
  {
    Ordinal(row).value
  }

  predicate WellFormed(rows: seq<Row>) {
    forall k :: 0 <= k < |rows| ==> RowOk(rows[k])
  }

  /** Rows in non-decreasing release order, as the source assumes. */
  predicate SortedByRelease(rows: seq<Row>) {
    WellFormed(rows) && forall i, j :: 0 <= i <= j < |rows| ==> Ord(rows[i]) <= Ord(rows[j])
  }

  /** Every row long enough to be written. */
  predicate LongRows(rows: seq<Row>) {
    forall k :: 0 <= k < |rows| ==> |rows[k]| >= 3
  }

  function DataLines(rows: seq<Row>): seq<string>
    requires LongRows(rows)
  {
    seq(|rows|, k requires 0 <= k < |rows| => DataLine(rows[k]))
  }

  /** The rows of an earlier release, in input order. */
  function RowsBelow(rows: seq<Row>, release: int): (kept: seq<Row>)
    requires WellFormed(rows)
    ensures LongRows(kept) && |kept| <= |rows|
  {
    if rows == [] then []
    else if Ord(rows[0]) < release then [rows[0]] + RowsBelow(rows[1..], release)
    else RowsBelow(rows[1..], release)
  }

  /** Every row's ordinal parses: all the testing scan needs of the rows
      it skips. */
  predicate Parses(rows: seq<Row>) {
    forall k :: 0 <= k < |rows| ==> Ordinal(rows[k]).Success?
  }

  /** Every row of `release` is long enough to be written. */
  predicate LongAt(rows: seq<Row>, release: int)
    requires Parses(rows)
  {
    forall k :: 0 <= k < |rows| && Ord(rows[k]) == release ==> |rows[k]| >= 3
  }

  /** The rows of exactly `release`, in input order. */
  function RowsAt(rows: seq<Row>, release: int): (kept: seq<Row>)
    requires Parses(rows)
    ensures |kept| <= |rows|
    ensures LongAt(rows, release) ==> LongRows(kept)
  {
    if rows == [] then []
    else
      assert Parses(rows[1..]) by {
        assert forall k :: 0 <= k < |rows[1..]| ==> rows[1..][k] == rows[k + 1];
      }
      if Ord(rows[0]) == release then [rows[0]] + RowsAt(rows[1..], release)
      else RowsAt(rows[1..], release)
  }

  /** The rows of a later release, in input order. */
  function RowsAbove(rows: seq<Row>, release: int): (kept: seq<Row>)
    requires WellFormed(rows)
    ensures LongRows(kept) && |kept| <= |rows|
  {
    if rows == [] then []
    else if Ord(rows[0]) > release then [rows[0]] + RowsAbove(rows[1..], release)
    else RowsAbove(rows[1..], release)
  }

  lemma DataLinesAppend(a: seq<Row>, b: seq<Row>)
    requires LongRows(a) && LongRows(b)
    ensures LongRows(a + b) && DataLines(a + b) == DataLines(a) + DataLines(b)
  {
    assert LongRows(a + b) by {
      forall k | 0 <= k < |a + b| ensures |(a + b)[k]| >= 3 {
        if k >= |a| { assert (a + b)[k] == b[k - |a|]; }
      }
    }
  }

  /** Each written data line splits back into the row's columns 2 to the
      last, in order, when no field holds a comma. */
  lemma DataLineFields(row: Row)
    requires |row| >= 3
    requires forall k :: 2 <= k < |row| ==> ',' !in row[k]
    ensures Split(DataLine(row), ',') == row[2..]
  {
    SplitJoin(row[2..], ',');
  }

  /** Training keeps the leading run of rows below `release` and nothing
      after the first row at or above it, whatever follows that row. */
  lemma {:induction false} TrainingStopsAtLaterRow(rows: seq<Row>, release: int, n: nat)
    requires n <= |rows|
    requires forall k :: 0 <= k < n ==> RowOk(rows[k]) && Ord(rows[k]) < release
    requires n < |rows| ==> Ordinal(rows[n]).Success? && Ord(rows[n]) >= release
    ensures LongRows(rows[..n])
    ensures TrainingData(rows, release) == Success(DataLines(rows[..n]))
  {
    if n == 0 {
      assert DataLines(rows[..0]) == [];
    } else {
      TrainingStopsAtLaterRow(rows[1..], release, n - 1);
      TrainingStep(rows, release);
      assert rows[..n] == [rows[0]] + rows[1..][..n - 1];
      DataLinesAppend([rows[0]], rows[1..][..n - 1]);
      assert DataLines([rows[0]]) == [DataLine(rows[0])];
      assert TrainingData(rows, release) == Prefixed([DataLine(rows[0])], TrainingData(rows[1..], release));
    }
  }

  /** A bad row inside the leading run aborts the whole file. */
  lemma {:induction false} TrainingRejectsBadRow(rows: seq<Row>, release: int, n: nat)
    requires n < |rows|
    requires forall k :: 0 <= k < n ==> RowOk(rows[k]) && Ord(rows[k]) < release
    requires Ordinal(rows[n]).Failure? || (Ord(rows[n]) < release && |rows[n]| < 3)
    ensures TrainingData(rows, release)
         == Failure(if Ordinal(rows[n]).Failure? then Ordinal(rows[n]).error else IndexOutOfBounds)
  {
    if n > 0 {
      TrainingRejectsBadRow(rows[1..], release, n - 1);
    }
  }

  /** Testing keeps the rows of exactly `release` met before the first row of
      a later release, and skips the earlier ones, whose ordinal is the only
      field it reads. */
  lemma {:induction false} TestingStopsAtLaterRow(rows: seq<Row>, release: int, n: nat)
    requires n <= |rows|
    requires forall k :: 0 <= k < n ==>
      Ordinal(rows[k]).Success? && Ord(rows[k]) <= release && (Ord(rows[k]) == release ==> |rows[k]| >= 3)
    requires n < |rows| ==> Ordinal(rows[n]).Success? && Ord(rows[n]) > release
    ensures Parses(rows[..n]) && LongRows(RowsAt(rows[..n], release))
    ensures TestingData(rows, release) == Success(DataLines(RowsAt(rows[..n], release)))
  {
    PrefixParses(rows, release, n);
    if n == 0 {
      assert DataLines(RowsAt(rows[..0], release)) == [];
    } else {
      var tail := rows[1..][..n - 1];
      TailBeforeLater(rows, release, n);
      TestingStopsAtLaterRow(rows[1..], release, n - 1);
      TestingStep(rows, release);
      assert rows[..n][0] == rows[0] && rows[..n][1..] == tail;
      AtStep(rows[..n], release);
      if Ord(rows[0]) == release {
        assert RowsAt(rows[..n], release) == [rows[0]] + RowsAt(tail, release);
        DataLinesAppend([rows[0]], RowsAt(tail, release));
        assert DataLines([rows[0]]) == [DataLine(rows[0])];
      } else {
        assert RowsAt(rows[..n], release) == RowsAt(tail, release);
      }
    }
  }

  lemma PrefixParses(rows: seq<Row>, release: int, n: nat)
    requires n <= |rows|
    requires forall k :: 0 <= k < n ==>
      Ordinal(rows[k]).Success? && Ord(rows[k]) <= release && (Ord(rows[k]) == release ==> |rows[k]| >= 3)
    ensures Parses(rows[..n]) && LongAt(rows[..n], release)
  {
    assert forall k :: 0 <= k < n ==> rows[..n][k] == rows[k];
  }

  lemma TailBeforeLater(rows: seq<Row>, release: int, n: nat)
    requires 0 < n <= |rows|
    requires forall k :: 0 <= k < n ==>
      Ordinal(rows[k]).Success? && Ord(rows[k]) <= release && (Ord(rows[k]) == release ==> |rows[k]| >= 3)
    requires n < |rows| ==> Ordinal(rows[n]).Success? && Ord(rows[n]) > release
    ensures forall k :: 0 <= k < n - 1 ==>
      Ordinal(rows[1..][k]).Success? && Ord(rows[1..][k]) <= release &&
      (Ord(rows[1..][k]) == release ==> |rows[1..][k]| >= 3)
    ensures n - 1 < |rows[1..]| ==> Ordinal(rows[1..][n - 1]).Success? && Ord(rows[1..][n - 1]) > release
  {
    assert forall k :: 0 <= k < n - 1 ==> rows[1..][k] == rows[k + 1];
  }

  /** A bad row met before the first row of a later release aborts the
      testing file: an ordinal that does not parse, or a row of exactly
      `release` with fewer than three fields. A short row of an earlier
      release is skipped without being read. */
  lemma {:induction false} TestingRejectsBadRow(rows: seq<Row>, release: int, n: nat)
    requires n < |rows|
    requires forall k :: 0 <= k < n ==>
      Ordinal(rows[k]).Success? && Ord(rows[k]) <= release && (Ord(rows[k]) == release ==> |rows[k]| >= 3)
    requires Ordinal(rows[n]).Failure? || (Ord(rows[n]) == release && |rows[n]| < 3)
    ensures TestingData(rows, release)
         == Failure(if Ordinal(rows[n]).Failure? then Ordinal(rows[n]).error else IndexOutOfBounds)
  {
    TestingStep(rows, release);
    if n > 0 {
      TestingRejectsBadRow(rows[1..], release, n - 1);
    }
  }

  lemma SortedTail(rows: seq<Row>)
    requires SortedByRelease(rows) && rows != []
    ensures SortedByRelease(rows[1..])
    ensures forall k :: 0 <= k < |rows[1..]| ==> Ord(rows[0]) <= Ord(rows[1..][k])
  {
    forall k | 0 <= k < |rows[1..]| ensures Ord(rows[0]) <= Ord(rows[1..][k]) {
      assert rows[1..][k] == rows[k + 1];
    }
  }

  lemma {:induction false} NoneBelow(rows: seq<Row>, release: int)
    requires SortedByRelease(rows)
    requires rows != [] ==> Ord(rows[0]) >= release
    ensures RowsBelow(rows, release) == []
  {
    if rows != [] {
      SortedTail(rows);
      NoneBelow(rows[1..], release);
    }
  }

  lemma {:induction false} NoneAt(rows: seq<Row>, release: int)
    requires SortedByRelease(rows)
    requires rows != [] ==> Ord(rows[0]) > release
    ensures RowsAt(rows, release) == []
  {
    if rows != [] {
      SortedTail(rows);
      NoneAt(rows[1..], release);
    }
  }

  lemma WellFormedTail(rows: seq<Row>)
    requires WellFormed(rows) && rows != []
    ensures WellFormed(rows[1..])
  {
    assert forall k :: 0 <= k < |rows[1..]| ==> rows[1..][k] == rows[k + 1];
  }

  /** The kept rows of each filter are the rows of an earlier release, of
      exactly `release`, and of a later one. */
  lemma {:induction false} KeptOrdinals(rows: seq<Row>, release: int)
    requires WellFormed(rows)
    ensures forall k :: 0 <= k < |RowsBelow(rows, release)| ==>
      RowOk(RowsBelow(rows, release)[k]) && Ord(RowsBelow(rows, release)[k]) < release
    ensures forall k :: 0 <= k < |RowsAt(rows, release)| ==>
      RowOk(RowsAt(rows, release)[k]) && Ord(RowsAt(rows, release)[k]) == release
    ensures forall k :: 0 <= k < |RowsAbove(rows, release)| ==>
      RowOk(RowsAbove(rows, release)[k]) && Ord(RowsAbove(rows, release)[k]) > release
  {
    if rows != [] {
      WellFormedTail(rows);
      KeptOrdinals(rows[1..], release);
      assert RowOk(rows[0]);
    }
  }

  /** On sorted input, no row goes both to the training file and to the
      testing file of the same release. */
  lemma TrainingTestingDisjoint(rows: seq<Row>, release: int)
    requires SortedByRelease(rows)
    ensures TrainingData(rows, release) == Success(DataLines(RowsBelow(rows, release)))
    ensures TestingData(rows, release) == Success(DataLines(RowsAt(rows, release)))
    ensures forall a, b :: 0 <= a < |RowsBelow(rows, release)| && 0 <= b < |RowsAt(rows, release)| ==>
      RowsBelow(rows, release)[a] != RowsAt(rows, release)[b]
  {
    TrainingIsRowsBelow(rows, release);
    TestingIsRowsAt(rows, release);
    KeptOrdinals(rows, release);
  }

  /** On release-sorted input the training file holds exactly the rows of
      the earlier releases, in input order. */
  lemma {:induction false} TrainingIsRowsBelow(rows: seq<Row>, release: int)
    requires SortedByRelease(rows)
    ensures TrainingData(rows, release) == Success(DataLines(RowsBelow(rows, release)))
  {
    if rows == [] {
      assert DataLines([]) == [];
    } else {
      var tail := rows[1..];
      SortedTail(rows);
      if Ord(rows[0]) >= release {
        NoneBelow(rows, release);
        assert RowsBelow(rows, release) == [];
        assert DataLines([]) == [];
      } else {
        TrainingIsRowsBelow(tail, release);
        DataLinesAppend([rows[0]], RowsBelow(tail, release));
        assert DataLines([rows[0]]) == [DataLine(rows[0])];
        assert RowsBelow(rows, release) == [rows[0]] + RowsBelow(tail, release);
        assert TrainingData(rows, release) == Prefixed([DataLine(rows[0])], TrainingData(tail, release));
      }
    }
  }

  /** On release-sorted input the testing file holds exactly the rows of
      `release`, in input order. */
  lemma {:induction false} TestingIsRowsAt(rows: seq<Row>, release: int)
    requires SortedByRelease(rows)
    ensures TestingData(rows, release) == Success(DataLines(RowsAt(rows, release)))
  {
    if rows == [] {
      assert DataLines([]) == [];
    } else {
      var tail := rows[1..];
      SortedTail(rows);
      if Ord(rows[0]) > release {
        NoneAt(rows, release);
        assert RowsAt(rows, release) == [];
        assert DataLines([]) == [];
      } else {
        TestingIsRowsAt(tail, release);
        if Ord(rows[0]) == release {
          DataLinesAppend([rows[0]], RowsAt(tail, release));
          assert DataLines([rows[0]]) == [DataLine(rows[0])];
          assert RowsAt(rows, release) == [rows[0]] + RowsAt(tail, release);
          assert TestingData(rows, release) == Prefixed([DataLine(rows[0])], TestingData(tail, release));
        } else {
          assert RowsAt(rows, release) == RowsAt(tail, release);
          assert TestingData(rows, release) == TestingData(tail, release);
        }
      }
    }
  }

  /** On release-sorted input every row lands in exactly one of earlier,
      current and later releases, and the three blocks are contiguous. */
  lemma {:induction false} SortedPartition(rows: seq<Row>, release: int)
    requires SortedByRelease(rows)
    ensures rows == RowsBelow(rows, release) + RowsAt(rows, release) + RowsAbove(rows, release)
  {
    if rows != [] {
      var head, tail := rows[0], rows[1..];
      HeadTail(rows);
      SortedTail(rows);
      SortedPartition(tail, release);
      var below, at, above := RowsBelow(tail, release), RowsAt(tail, release), RowsAbove(tail, release);
      Regroup(head, below, at, above);
      if Ord(head) >= release {
        NoneBelow(rows, release);
      }
      if Ord(head) > release {
        NoneAt(rows, release);
      }
    }
  }

  lemma HeadTail<T>(s: seq<T>)
    requires s != []
    ensures s == [s[0]] + s[1..]
  {
  }

  /** Where a leading element joins one of three consecutive blocks. */
  lemma Regroup<T>(h: T, a: seq<T>, b: seq<T>, c: seq<T>)
    ensures [h] + (a + b + c) == ([h] + a) + b + c
    ensures a == [] ==> [h] + (a + b + c) == a + ([h] + b) + c
    ensures a == [] && b == [] ==> [h] + (a + b + c) == a + b + ([h] + c)
  {
  }

  /** On release-sorted input the rows before `release + 1` are the rows
      before `release` followed by the rows of `release`. */
  lemma {:induction false} RowsBelowNext(rows: seq<Row>, release: int)
    requires SortedByRelease(rows)
    ensures RowsBelow(rows, release + 1) == RowsBelow(rows, release) + RowsAt(rows, release)
  {
    if rows != [] {
      SortedTail(rows);
      RowsBelowNext(rows[1..], release);
      if Ord(rows[0]) < release {
        NextWithEarlierHead(rows, release);
      } else if Ord(rows[0]) == release {
        NextWithCurrentHead(rows, release);
      } else {
        NoneBelow(rows, release);
        NoneBelow(rows, release + 1);
        NoneAt(rows, release);
      }
    }
  }

  lemma NextWithEarlierHead(rows: seq<Row>, release: int)
    requires WellFormed(rows) && rows != [] && Ord(rows[0]) < release
    requires WellFormed(rows[1..]) &&
      RowsBelow(rows[1..], release + 1) == RowsBelow(rows[1..], release) + RowsAt(rows[1..], release)
    ensures RowsBelow(rows, release + 1) == RowsBelow(rows, release) + RowsAt(rows, release)
  {
    var head, tail := rows[0], rows[1..];
    BelowStep(rows, release);
    BelowStep(rows, release + 1);
    AtStep(rows, release);
    assert RowsBelow(rows, release + 1) == [head] + RowsBelow(tail, release + 1);
    assert RowsBelow(rows, release) == [head] + RowsBelow(tail, release);
    assert RowsAt(rows, release) == RowsAt(tail, release);
    AppendAssoc([head], RowsBelow(tail, release), RowsAt(tail, release));
  }

  lemma NextWithCurrentHead(rows: seq<Row>, release: int)
    requires SortedByRelease(rows) && rows != [] && Ord(rows[0]) == release
    requires WellFormed(rows[1..]) &&
      RowsBelow(rows[1..], release + 1) == RowsBelow(rows[1..], release) + RowsAt(rows[1..], release)
    ensures RowsBelow(rows, release + 1) == RowsBelow(rows, release) + RowsAt(rows, release)
  {
    var head, tail := rows[0], rows[1..];
    BelowStep(rows, release);
    BelowStep(rows, release + 1);
    AtStep(rows, release);
    NoneBelow(rows, release);
    assert RowsBelow(tail, release) == [];
    assert RowsBelow(rows, release + 1) == [head] + RowsBelow(tail, release + 1);
    assert RowsAt(rows, release) == [head] + RowsAt(tail, release);
  }

  /** One step of the earlier-release filter. */
  lemma BelowStep(rows: seq<Row>, release: int)
    requires WellFormed(rows) && rows != []
    ensures WellFormed(rows[1..])
    ensures RowsBelow(rows, release)
         == if Ord(rows[0]) < release then [rows[0]] + RowsBelow(rows[1..], release) else RowsBelow(rows[1..], release)
  {
    WellFormedTail(rows);
  }

  /** One step of the filter for exactly `release`. */
  lemma AtStep(rows: seq<Row>, release: int)
    requires Parses(rows) && rows != []
    ensures Parses(rows[1..])
    ensures RowsAt(rows, release)
         == if Ord(rows[0]) == release then [rows[0]] + RowsAt(rows[1..], release) else RowsAt(rows[1..], release)
  {
    assert forall k :: 0 <= k < |rows[1..]| ==> rows[1..][k] == rows[k + 1];
  }

  /** Walking forward one release: the next training file's data is this
      training file's data followed by this testing file's data. */
  lemma TrainingNextRelease(rows: seq<Row>, release: int)
    requires SortedByRelease(rows)
    ensures TrainingData(rows, release).Success? && TestingData(rows, release).Success?
    ensures TrainingData(rows, release + 1)
         == Success(TrainingData(rows, release).value + TestingData(rows, release).value)
  {
    TrainingIsRowsBelow(rows, release);
    TrainingIsRowsBelow(rows, release + 1);
    TestingIsRowsAt(rows, release);
    RowsBelowNext(rows, release);
    DataLinesAppend(RowsBelow(rows, release), RowsAt(rows, release));
  }

  /** The training data for a release is a prefix of the training data for
      any later release, sorted input or not: training never shrinks. */
  lemma {:induction false} TrainingGrows(rows: seq<Row>, release: int, later: int)
    requires WellFormed(rows) && release <= later
    ensures TrainingData(rows, release).Success? && TrainingData(rows, later).Success?
    ensures TrainingData(rows, release).value <= TrainingData(rows, later).value
  {
    if rows != [] {
      assert WellFormed(rows[1..]);
      TrainingGrows(rows[1..], release, later);
    }
  }

  /** Without sorted input the leading-run scan is not the set of rows below
      the release: a row of release 1 after a row of release 3 is lost. */
  lemma UnsortedInputLosesRows()
    ensures var rows := [["1", "A", "x"], ["3", "B", "y"], ["1", "C", "z"]];
      WellFormed(rows) && !SortedByRelease(rows) &&
      TrainingData(rows, 2) == Success(["x"]) && |RowsBelow(rows, 2)| == 2
  {
    var rows := [["1", "A", "x"], ["3", "B", "y"], ["1", "C", "z"]];
    assert DigitsValue("1") == DigitsValue("") * 10 + 1;
    assert DigitsValue("3") == DigitsValue("") * 10 + 3;
    assert Ordinal(rows[0]) == Success(1) && Ordinal(rows[2]) == Success(1);
    assert Ordinal(rows[1]) == Success(3);
    assert Ord(rows[1]) > Ord(rows[2]);
    assert rows[1..][1..] == [rows[2]] && [rows[2]][1..] == [];
    assert DataLine(rows[0]) == "x";
    assert TrainingData(rows[1..], 2) == Success([]);
    assert RowsBelow([rows[2]], 2) == [rows[2]];
    assert RowsBelow(rows[1..], 2) == [rows[2]];
    assert RowsBelow(rows, 2) == [rows[0]] + RowsBelow(rows[1..], 2);
    assert TrainingData(rows, 2) == Prefixed(["x"], TrainingData(rows[1..], 2));
    assert ["x"] + [] == ["x"];
  }
}
