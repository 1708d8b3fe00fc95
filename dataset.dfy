/** The data set the learning library builds when `walkForward` reads a
    freshly written ARFF file back (`new DataSource(file).getDataSet()`),
    and the attribute-selection filter applied to it.

    Only the text this program writes is modelled: a relation line,
    attribute lines, the data marker and comma-separated data lines. The
    library's real reader (quoting, comments, typed values) is not. */
module Dataset {
  import opened Wrappers
  import opened Text
  import opened Arff

  /** Relation name, attribute declarations, the data rows cut into values,
      and the class index (-1 until it is set). */
  datatype Instances = Instances(relation: string, attributes: seq<string>, rows: seq<seq<string>>, classIndex: int)

  /** Every row has exactly `width` values. */
  predicate Rectangular(rows: seq<seq<string>>, width: nat) {
    forall k :: 0 <= k < |rows| ==> |rows[k]| == width
  }

  /** The attribute declarations at the front of `lines`, and how many
      lines they take. */
  function ReadAttributes(lines: seq<string>): (r: (seq<string>, nat))
    ensures r.1 <= |lines| && |r.0| == r.1
  {
    if |lines| > 0 && AttributeTag <= lines[0] then
      var rest := ReadAttributes(lines[1..]);
      ([lines[0][|AttributeTag|..]] + rest.0, rest.1 + 1)
    else ([], 0)
  }

  function SplitAll(lines: seq<string>): seq<seq<string>> {
    seq(|lines|, k requires 0 <= k < |lines| => Split(lines[k], ','))
  }

  /** Reading an ARFF text back. Every data line becomes one instance, and
      a data line with the wrong number of values is rejected. */
  function LoadArff(text: seq<string>): (r: Result<Instances, Exception>)
    ensures r.Success? ==> |r.value.attributes| + 2 <= |text|
    ensures r.Success? ==> |r.value.rows| == |text| - 2 - |r.value.attributes|
    ensures r.Success? ==> Rectangular(r.value.rows, |r.value.attributes|) && r.value.classIndex == -1
  {
    if |text| == 0 || !(RelationTag <= text[0]) then Failure(MalformedArff)
    else
      var (attributes, n) := ReadAttributes(text[1..]);
      if 1 + n >= |text| || text[1 + n] != DataTag then Failure(MalformedArff)
      else
        var rows := SplitAll(text[2 + n..]);
        if Rectangular(rows, |attributes|) then Success(Instances(text[0][|RelationTag|..], attributes, rows, -1))
        else Failure(MalformedArff)
  }

  lemma {:induction false} ReadWrittenAttributes(attributes: seq<string>, rest: seq<string>)
    requires rest != [] && rest[0] == DataTag
    ensures ReadAttributes(AttributeLines(attributes) + rest) == (attributes, |attributes|)
  {
    var lines := AttributeLines(attributes) + rest;
    if attributes == [] {
      assert lines == rest;
      assert !(AttributeTag <= DataTag) by {
        assert |DataTag| < |AttributeTag|;
      }
    } else {
      ReadWrittenAttributes(attributes[1..], rest);
      assert lines[0] == AttributeTag + attributes[0];
      assert (AttributeTag + attributes[0])[|AttributeTag|..] == attributes[0];
      assert lines[1..] == AttributeLines(attributes[1..]) + rest;
      assert [attributes[0]] + attributes[1..] == attributes;
    }
  }

  /** Reading back a file written with `Header`: the relation and the
      attributes come back unchanged, and the data lines become rows, or the
      file is rejected when some line does not have one value per attribute. */
  lemma LoadWrittenArff(project: string, attributes: seq<string>, lines: seq<string>)
    ensures LoadArff(Header(project, attributes) + lines)
         == if Rectangular(SplitAll(lines), |attributes|)
            then Success(Instances(project, attributes, SplitAll(lines), -1))
            else Failure(MalformedArff)
  {
    var text := Header(project, attributes) + lines;
    var n := |attributes|;
    assert text[0] == RelationTag + project;
    assert (RelationTag + project)[|RelationTag|..] == project;
    assert text[1..] == AttributeLines(attributes) + ([DataTag] + lines);
    ReadWrittenAttributes(attributes, [DataTag] + lines);
    assert text[1 + n] == DataTag;
    assert text[2 + n..] == lines;
  }

  /** The values of each row from column 2 on: what a data line carries. */
  function Columns(rows: seq<Row>): seq<seq<string>>
    requires LongRows(rows)
  {
    seq(|rows|, k requires 0 <= k < |rows| => rows[k][2..])
  }

  predicate CommaFree(rows: seq<Row>) {
    forall k, j :: 0 <= k < |rows| && 2 <= j < |rows[k]| ==> ',' !in rows[k][j]
  }

  /** The file `createTrainingArff` or `createTestingArff` writes reads back
      as exactly the kept rows without their first two columns, one
      instance per row, provided each kept row has one value per attribute
      and no value holds a comma. */
  lemma LoadWrittenRows(project: string, attributes: seq<string>, rows: seq<Row>)
    requires LongRows(rows) && CommaFree(rows)
    requires forall k :: 0 <= k < |rows| ==> |rows[k]| == |attributes| + 2
    ensures LoadArff(Header(project, attributes) + DataLines(rows))
         == Success(Instances(project, attributes, Columns(rows), -1))
  {
    var lines := DataLines(rows);
    forall k | 0 <= k < |rows|
      ensures SplitAll(lines)[k] == Columns(rows)[k]
    {
      DataLineFields(rows[k]);
    }
    assert SplitAll(lines) == Columns(rows);
    LoadWrittenArff(project, attributes, lines);
  }

  /** Every row has one value per attribute after its first two columns,
      and none of those values holds a comma. */
  predicate RowsFit(rows: seq<Row>, width: nat) {
    forall k :: 0 <= k < |rows| ==>
      |rows[k]| == width + 2 && forall j :: 2 <= j < |rows[k]| ==> ',' !in rows[k][j]
  }

  lemma RowsFitTail(rows: seq<Row>, width: nat)
    requires rows != [] && WellFormed(rows) && RowsFit(rows, width)
    ensures WellFormed(rows[1..]) && RowsFit(rows[1..], width)
    ensures |Split(DataLine(rows[0]), ',')| == width
  {
    assert forall k :: 0 <= k < |rows[1..]| ==> rows[1..][k] == rows[k + 1];
    DataLineFields(rows[0]);
  }

  /** A data line in front of lines that read back with `width` values
      each gives lines that read back the same way. */
  lemma RectangularCons(line: string, rest: seq<string>, width: nat)
    requires |Split(line, ',')| == width && Rectangular(SplitAll(rest), width)
    ensures Rectangular(SplitAll([line] + rest), width)
  {
    SplitAllCons(line, rest);
    RectangularPrepend(Split(line, ','), SplitAll(rest), width);
  }

  lemma SplitAllCons(line: string, rest: seq<string>)
    ensures SplitAll([line] + rest) == [Split(line, ',')] + SplitAll(rest)
  {
    var lines := [line] + rest;
    forall m | 0 <= m < |lines|
      ensures SplitAll(lines)[m] == ([Split(line, ',')] + SplitAll(rest))[m]
    {
      if m > 0 {
        assert lines[m] == rest[m - 1];
      }
    }
  }

  lemma RectangularPrepend(first: seq<string>, more: seq<seq<string>>, width: nat)
    requires |first| == width && Rectangular(more, width)
    ensures Rectangular([first] + more, width)
  {
  }

  /** On rows that fit the schema, the training scan completes and every
      line it writes reads back with one value per attribute. */
  lemma {:induction false} TrainingFits(rows: seq<Row>, release: int, width: nat)
    requires WellFormed(rows) && RowsFit(rows, width)
    ensures TrainingData(rows, release).Success?
    ensures Rectangular(SplitAll(TrainingData(rows, release).value), width)
  {
    if rows != [] {
      TrainingStep(rows, release);
      RowsFitTail(rows, width);
      if Ord(rows[0]) < release {
        TrainingFits(rows[1..], release, width);
        RectangularCons(DataLine(rows[0]), TrainingData(rows[1..], release).value, width);
      }
    }
  }

  /** The same for the testing scan. */
  lemma {:induction false} TestingFits(rows: seq<Row>, release: int, width: nat)
    requires WellFormed(rows) && RowsFit(rows, width)
    ensures TestingData(rows, release).Success?
    ensures Rectangular(SplitAll(TestingData(rows, release).value), width)
  {
    if rows != [] {
      TestingStep(rows, release);
      RowsFitTail(rows, width);
      if Ord(rows[0]) <= release {
        TestingFits(rows[1..], release, width);
        if Ord(rows[0]) == release {
          RectangularCons(DataLine(rows[0]), TestingData(rows[1..], release).value, width);
        }
      }
    }
  }

  predicate ValidIndices(indices: seq<nat>, width: nat) {
    forall k :: 0 <= k < |indices| ==> indices[k] < width
  }

  function Pick(values: seq<string>, indices: seq<nat>): seq<string>
    requires ValidIndices(indices, |values|)
  {
    seq(|indices|, k requires 0 <= k < |indices| => values[indices[k]])
  }

  /** The attribute-selection filter applied with a selection already
      derived: every row and the schema are projected onto `indices`, in
      that order. An index outside the schema raises an exception. */
  function SelectAttributes(data: Instances, indices: seq<nat>): (r: Result<Instances, Exception>)
    requires Rectangular(data.rows, |data.attributes|)
    ensures r.Success? <==> ValidIndices(indices, |data.attributes|)
    ensures r.Success? ==> |r.value.rows| == |data.rows|
    ensures r.Success? ==> |r.value.attributes| == |indices| && Rectangular(r.value.rows, |indices|)
    ensures r.Success? ==> r.value.relation == data.relation && r.value.classIndex == data.classIndex
    ensures r.Success? ==> forall k :: 0 <= k < |indices| ==> r.value.attributes[k] == data.attributes[indices[k]]
    ensures r.Success? ==> forall i, k :: 0 <= i < |data.rows| && 0 <= k < |indices| ==>
              r.value.rows[i][k] == data.rows[i][indices[k]]
  {
    if ValidIndices(indices, |data.attributes|) then
      var rows := seq(|data.rows|, i requires 0 <= i < |data.rows| => Pick(data.rows[i], indices));
      Success(Instances(data.relation, Pick(data.attributes, indices), rows, data.classIndex))
    else Failure(LibraryError("attribute index out of range"))
  }

  /** A selection derived once and applied to both slices gives them the
      same attributes in the same order, and keeps every instance. */
  lemma SelectionSharedSchema(training: Instances, testing: Instances, indices: seq<nat>)
    requires Rectangular(training.rows, |training.attributes|)
    requires Rectangular(testing.rows, |testing.attributes|)
    requires training.attributes == testing.attributes
    ensures SelectAttributes(training, indices).Success? == SelectAttributes(testing, indices).Success?
    ensures SelectAttributes(training, indices).Success? ==>
      SelectAttributes(training, indices).value.attributes == SelectAttributes(testing, indices).value.attributes &&
      |SelectAttributes(training, indices).value.rows| == |training.rows| &&
      |SelectAttributes(testing, indices).value.rows| == |testing.rows|
  {
  }
}
