/** The walk-forward experiment (`classifier`, `balancing`, `walkForward`).

    For every release `i` from 2 to the last one, the data of the earlier
    releases trains and the data of release `i` tests. Each release yields
    two blocks of twelve records, one for the full attribute set and one
    after attribute selection; each block runs the three learners under
    four balancing labels. The learning library is a parameter. */
module Experiment {
  import opened Wrappers
  import opened Text
  import opened Arff
  import opened Dataset
  import opened Records

  const Selections: seq<string> := ["No selection", "Best first"]
  const Balancings: seq<string> := ["No sampling", "Oversampling", "Undersampling", "SMOTE"]
  const Classifiers: seq<string> := ["RandomForest", "NaiveBayes", "Ibk"]

  /** What the experiment asks of the learning library.
      `learn(c, training, testing)`: build learner `c` (0 RandomForest,
      1 NaiveBayes, 2 IBk) on `training`, evaluate it on `testing`.
      `select(training)`: the attributes the subset search keeps.
      `prepare(filter, training)`: whether `setInputFormat` of the named
      balancing filter raises an exception. */
  datatype Library = Library(
    learn: (nat, Instances, Instances) -> Result<Metrics, Exception>,
    select: Instances -> Result<seq<nat>, Exception>,
    prepare: (string, Instances) -> Option<Exception>)

  /** The arguments of one `balancing` call. */
  datatype Stage = Stage(project: string, releases: int, featureSel: string,
                         training: Instances, testing: Instances)

  /** The share of the instances used for training, as `classifier` stores it. */
  function TrainShare(training: Instances, testing: Instances): Fraction {
    Fraction(|training.rows|, |training.rows| + |testing.rows|)
  }

  /** `classifier(training, testing, fc, r, c)`: names learner `c` in the
      record, runs it, and stores the training share and the figures. The
      record's other fields are left as they were. */
  function Classifier(training: Instances, testing: Instances, rec: Record, c: nat, lib: Library)
    : (r: Result<Record, Exception>)
    requires c < |Classifiers|
    ensures r.Success? <==> lib.learn(c, training, testing).Success?
    ensures r.Failure? ==> r.error == lib.learn(c, training, testing).error
    ensures r.Success? ==>
      r.value.dataset == rec.dataset && r.value.trainRel == rec.trainRel &&
      r.value.featureSel == rec.featureSel && r.value.balancing == rec.balancing &&
      r.value.trainDef == rec.trainDef && r.value.testDef == rec.testDef
    ensures r.Success? ==> r.value.classifier == Classifiers[c] && r.value.metrics == lib.learn(c, training, testing).value
    ensures r.Success? ==> r.value.train.part == |training.rows| && r.value.train.whole - r.value.train.part == |testing.rows|
  {
    var metrics :- lib.learn(c, training, testing);
    Success(rec.(classifier := Classifiers[c], train := TrainShare(training, testing), metrics := metrics))
  }

  /** The share stored by `classifier` lies in [0, 1]; it has no value
      (`NaN` in the report) only when both slices are empty. */
  lemma TrainShareBounds(training: Instances, testing: Instances)
    ensures TrainShare(training, testing).whole == 0 <==> |training.rows| == 0 && |testing.rows| == 0
    ensures TrainShare(training, testing).whole > 0 ==>
      0.0 <= FractionValue(TrainShare(training, testing)) <= 1.0
    ensures |testing.rows| == 0 && |training.rows| > 0 ==> FractionValue(TrainShare(training, testing)) == 1.0
    ensures |training.rows| == 0 && |testing.rows| > 0 ==> FractionValue(TrainShare(training, testing)) == 0.0
  {
  }

  /** What record number `c` of a balancing block labelled `bal` holds. */
  predicate Describes(rec: Record, st: Stage, bal: string, c: nat, lib: Library)
    requires c < |Classifiers|
  {
    lib.learn(c, st.training, st.testing).Success? &&
    rec.dataset == st.project && rec.trainRel == st.releases &&
    rec.featureSel == st.featureSel && rec.balancing == bal &&
    rec.classifier == Classifiers[c] && rec.train == TrainShare(st.training, st.testing) &&
    rec.metrics == lib.learn(c, st.training, st.testing).value
  }

  /** The records of the first `n` learners of one balancing loop. */
  function Cells(st: Stage, bal: string, lib: Library, n: nat): Result<seq<Record>, Exception>
    requires n <= |Classifiers|
  {
    if n == 0 then Success([])
    else
      var front :- Cells(st, bal, lib, n - 1);
      var rec :- Classifier(st.training, st.testing, NewRecord(st.project, st.releases, st.featureSel, bal), n - 1, lib);
      Success(front + [rec])
  }

  /** Once a learner has raised an exception, the loop raises that
      exception whatever comes after it. */
  lemma {:induction false} CellsFailure(st: Stage, bal: string, lib: Library, m: nat, n: nat)
    requires m <= n <= |Classifiers|
    requires Cells(st, bal, lib, m).Failure?
    ensures Cells(st, bal, lib, n) == Cells(st, bal, lib, m)
    decreases n
  {
    if n > m {
      CellsFailure(st, bal, lib, m, n - 1);
    }
  }

  /** Loop `n` of a balancing block succeeds exactly when the first `n`
      learners do, and then record `c` is learner `c`'s. */
  lemma {:induction false} CellsLayout(st: Stage, bal: string, lib: Library, n: nat)
    requires n <= |Classifiers|
    ensures Cells(st, bal, lib, n).Success? <==>
      forall c :: 0 <= c < n ==> lib.learn(c, st.training, st.testing).Success?
    ensures Cells(st, bal, lib, n).Success? ==>
      |Cells(st, bal, lib, n).value| == n &&
      forall c :: 0 <= c < n ==> Describes(Cells(st, bal, lib, n).value[c], st, bal, c, lib)
  {
    if n > 0 {
      CellsLayout(st, bal, lib, n - 1);
      var front := Cells(st, bal, lib, n - 1);
      if front.Failure? {
        var c :| 0 <= c < n - 1 && lib.learn(c, st.training, st.testing).Failure?;
        assert !(forall c :: 0 <= c < n ==> lib.learn(c, st.training, st.testing).Success?);
      }
    }
  }

  /** `Raised(e)` fails with `e` when there is one. */
  function Raised(e: Option<Exception>): Result<(), Exception> {
    match e
    case None => Success(())
    case Some(x) => Failure(x)
  }

  /** The twelve records of one `balancing` call, in the order the four
      loops append them, or the first exception raised. */
  function BlockRecords(st: Stage, lib: Library): Result<seq<Record>, Exception> {
    var none :- Cells(st, Balancings[0], lib, 3);
    var resample :- Raised(lib.prepare("Resample", st.training));
    var over :- Cells(st, Balancings[1], lib, 3);
    var under :- Cells(st, Balancings[2], lib, 3);
    var smote :- Raised(lib.prepare("SMOTE", st.training));
    var synthetic :- Cells(st, Balancings[3], lib, 3);
    Success(none + over + under + synthetic)
  }

  predicate LearnersSucceed(st: Stage, lib: Library) {
    lib.learn(0, st.training, st.testing).Success? &&
    lib.learn(1, st.training, st.testing).Success? &&
    lib.learn(2, st.training, st.testing).Success?
  }

  /** One loop of three records: it completes exactly when the three
      learners do, and then record `c` is learner `c`'s. */
  lemma CellsOfBlock(st: Stage, bal: string, lib: Library)
    ensures Cells(st, bal, lib, 3).Success? <==> LearnersSucceed(st, lib)
    ensures Cells(st, bal, lib, 3).Success? ==>
      |Cells(st, bal, lib, 3).value| == 3 &&
      forall c :: 0 <= c < 3 ==> Describes(Cells(st, bal, lib, 3).value[c], st, bal, c, lib)
  {
    CellsLayout(st, bal, lib, 3);
    assert LearnersSucceed(st, lib) <==> forall c :: 0 <= c < 3 ==> lib.learn(c, st.training, st.testing).Success?;
  }

  /** A balancing block step by step: the first exception raised, or the
      four loops' records in order. */
  lemma BlockSteps(st: Stage, lib: Library)
    ensures var none := Cells(st, Balancings[0], lib, 3);
      var resample := lib.prepare("Resample", st.training);
      var over := Cells(st, Balancings[1], lib, 3);
      var under := Cells(st, Balancings[2], lib, 3);
      var smote := lib.prepare("SMOTE", st.training);
      var synthetic := Cells(st, Balancings[3], lib, 3);
      BlockRecords(st, lib) ==
        if none.Failure? then Failure(none.error)
        else if resample.Some? then Failure(resample.value)
        else if over.Failure? then Failure(over.error)
        else if under.Failure? then Failure(under.error)
        else if smote.Some? then Failure(smote.value)
        else if synthetic.Failure? then Failure(synthetic.error)
        else Success(none.value + over.value + under.value + synthetic.value)
  {
  }

  /** A balancing block completes exactly when the three learners and the
      two filter set-ups raise nothing, and then record `k` is learner
      `k % 3` under balancing label `k / 3`. */
  lemma BlockLayout(st: Stage, lib: Library)
    ensures BlockRecords(st, lib).Success? <==>
      LearnersSucceed(st, lib) && lib.prepare("Resample", st.training).None? && lib.prepare("SMOTE", st.training).None?
    ensures BlockRecords(st, lib).Success? ==>
      |BlockRecords(st, lib).value| == 12 &&
      forall k :: 0 <= k < 12 ==> Describes(BlockRecords(st, lib).value[k], st, Balancings[k / 3], k % 3, lib)
  {
    BlockSteps(st, lib);
    CellsOfBlock(st, Balancings[0], lib);
    CellsOfBlock(st, Balancings[1], lib);
    CellsOfBlock(st, Balancings[2], lib);
    CellsOfBlock(st, Balancings[3], lib);
    var r := BlockRecords(st, lib);
    if r.Success? {
      var none := Cells(st, Balancings[0], lib, 3).value;
      var over := Cells(st, Balancings[1], lib, 3).value;
      var under := Cells(st, Balancings[2], lib, 3).value;
      var synthetic := Cells(st, Balancings[3], lib, 3).value;
      forall k | 0 <= k < 12
        ensures Describes(r.value[k], st, Balancings[k / 3], k % 3, lib)
      {
        if k < 3 {
          assert k / 3 == 0 && k % 3 == k;
          assert r.value[k] == none[k];
        } else if k < 6 {
          assert k / 3 == 1 && k % 3 == k - 3;
          assert r.value[k] == over[k - 3];
        } else if k < 9 {
          assert k / 3 == 2 && k % 3 == k - 6;
          assert r.value[k] == under[k - 6];
        } else {
          assert k / 3 == 3 && k % 3 == k - 9;
          assert r.value[k] == synthetic[k - 9];
        }
      }
    }
  }

  /** The balancing label changes nothing but the label: every learner
      gets the same training and testing data under all four, so records
      of the same learner carry the same training share and figures. */
  lemma BalancingIsLabelOnly(st: Stage, lib: Library)
    requires BlockRecords(st, lib).Success?
    ensures var v := BlockRecords(st, lib).value;
      |v| == 12 &&
      (forall k, k' :: 0 <= k < 12 && 0 <= k' < 12 && k % 3 == k' % 3 ==>
         v[k].metrics == v[k'].metrics && v[k].train == v[k'].train) &&
      (forall k :: 0 <= k < 12 ==> lib.learn(k % 3, st.training, st.testing) == Success(v[k].metrics))
  {
    BlockLayout(st, lib);
  }

  /** The first half of a `walkForward` pass for release `i`: write both
      files, read them back and make the last attribute of the training
      data the class of both slices. */
  function Prepared(project: string, file: seq<Row>, attributes: seq<string>, i: int)
    : (r: Result<Stage, Exception>)
    ensures r.Success? ==> r.value.project == project && r.value.releases == i - 1 && r.value.featureSel == Selections[0]
    ensures r.Success? ==> Rectangular(r.value.training.rows, |r.value.training.attributes|)
    ensures r.Success? ==> Rectangular(r.value.testing.rows, |r.value.testing.attributes|)
  {
    var trainText :- TrainingArff(project, attributes, file, i);
    var testText :- TestingArff(project, attributes, file, i);
    var trainAll :- LoadArff(trainText);
    var testAll :- LoadArff(testText);
    var n := |trainAll.attributes|;
    Success(Stage(project, i - 1, Selections[0], trainAll.(classIndex := n - 1), testAll.(classIndex := n - 1)))
  }

  /** The attribute selection of a `walkForward` pass: search on the
      training slice, apply the result to both slices, and make the last
      attribute the training slice keeps the class of both. */
  function Selected(st: Stage, lib: Library): (r: Result<Stage, Exception>)
    requires Rectangular(st.training.rows, |st.training.attributes|)
    requires Rectangular(st.testing.rows, |st.testing.attributes|)
    ensures r.Success? ==> r.value.project == st.project && r.value.releases == st.releases && r.value.featureSel == Selections[1]
    ensures r.Success? ==> |r.value.training.rows| == |st.training.rows| && |r.value.testing.rows| == |st.testing.rows|
    ensures r.Success? ==>
      lib.select(st.training).Success? &&
      ValidIndices(lib.select(st.training).value, |st.training.attributes|) &&
      r.value.training.attributes == Pick(st.training.attributes, lib.select(st.training).value)
    ensures r.Success? && st.training.attributes == st.testing.attributes ==>
      r.value.testing.attributes == r.value.training.attributes
    ensures r.Success? ==>
      r.value.training.classIndex == |r.value.training.attributes| - 1 &&
      r.value.testing.classIndex == |r.value.training.attributes| - 1
  {
    var indices :- lib.select(st.training);
    var trainSel :- SelectAttributes(st.training, indices);
    var testSel :- SelectAttributes(st.testing, indices);
    var n := |trainSel.attributes|;
    Success(Stage(st.project, st.releases, Selections[1], trainSel.(classIndex := n - 1), testSel.(classIndex := n - 1)))
  }

  /** Both slices of a release share one schema: the prepared slices carry
      the attributes both files were written with, the selected slices the
      attributes picked on the training slice, and in each stage the class
      is the last attribute. */
  lemma PreparedSchema(project: string, file: seq<Row>, attributes: seq<string>, i: int, lib: Library)
    ensures var first := Prepared(project, file, attributes, i);
      first.Success? ==>
        first.value.training.attributes == attributes && first.value.testing.attributes == attributes &&
        first.value.training.classIndex == |attributes| - 1 && first.value.testing.classIndex == |attributes| - 1
    ensures var first := Prepared(project, file, attributes, i);
      first.Success? && Selected(first.value, lib).Success? ==>
        var second := Selected(first.value, lib).value;
        second.training.attributes == second.testing.attributes &&
        second.training.classIndex == |second.training.attributes| - 1 &&
        second.testing.classIndex == |second.training.attributes| - 1
  {
    var rows := DataRows(file);
    if TrainingData(rows, i).Success? {
      LoadWrittenArff(project, attributes, TrainingData(rows, i).value);
    }
    if TestingData(rows, i).Success? {
      LoadWrittenArff(project, attributes, TestingData(rows, i).value);
    }
  }

  /** The two blocks of one release: one on all attributes, then one on
      the selected ones. */
  function ReleaseBlocks(first: Stage, lib: Library): Result<seq<Record>, Exception>
    requires Rectangular(first.training.rows, |first.training.attributes|)
    requires Rectangular(first.testing.rows, |first.testing.attributes|)
  {
    var plain :- BlockRecords(first, lib);
    var second :- Selected(first, lib);
    var best :- BlockRecords(second, lib);
    Success(plain + best)
  }

  /** One pass of the `walkForward` loop for release `i`. */
  function ReleaseRecords(project: string, file: seq<Row>, attributes: seq<string>, i: int, lib: Library)
    : Result<seq<Record>, Exception>
  {
    var first :- Prepared(project, file, attributes, i);
    ReleaseBlocks(first, lib)
  }

  /** The 24 records of one release: selection `k / 12`, balancing
      `(k % 12) / 3`, learner `k % 3`, all with the name, the training
      release and the training share of the first stage. */
  lemma BlocksLayout(first: Stage, lib: Library)
    requires Rectangular(first.training.rows, |first.training.attributes|)
    requires Rectangular(first.testing.rows, |first.testing.attributes|)
    requires first.featureSel == Selections[0]
    requires ReleaseBlocks(first, lib).Success?
    ensures var v := ReleaseBlocks(first, lib).value;
      |v| == 24 &&
      forall k :: 0 <= k < 24 ==>
        v[k].dataset == first.project && v[k].trainRel == first.releases &&
        v[k].featureSel == Selections[k / 12] && v[k].balancing == Balancings[(k % 12) / 3] &&
        v[k].classifier == Classifiers[k % 3] && v[k].train == TrainShare(first.training, first.testing)
  {
    BlockLayout(first, lib);
    var plain := BlockRecords(first, lib).value;
    var second := Selected(first, lib).value;
    BlockLayout(second, lib);
    var best := BlockRecords(second, lib).value;
    var v := ReleaseBlocks(first, lib).value;
    assert v == plain + best;
    assert TrainShare(second.training, second.testing) == TrainShare(first.training, first.testing);
    forall k | 0 <= k < 24
      ensures v[k].dataset == first.project && v[k].trainRel == first.releases
      ensures v[k].featureSel == Selections[k / 12] && v[k].balancing == Balancings[(k % 12) / 3]
      ensures v[k].classifier == Classifiers[k % 3] && v[k].train == TrainShare(first.training, first.testing)
    {
      if k < 12 {
        FirstHalf(k);
        assert v[k] == plain[k];
        assert Describes(plain[k], first, Balancings[k / 3], k % 3, lib);
      } else {
        SecondHalf(k);
        assert v[k] == best[k - 12];
        assert Describes(best[k - 12], second, Balancings[(k - 12) / 3], (k - 12) % 3, lib);
      }
    }
  }

  lemma FirstHalf(k: int)
    requires 0 <= k < 12
    ensures k / 12 == 0 && k % 12 == k
  {
  }

  lemma SecondHalf(k: int)
    requires 12 <= k < 24
    ensures k / 12 == 1 && k % 12 == k - 12 && k % 3 == (k - 12) % 3
  {
  }

  /** Record `k` of a walk whose first training release is `rel`: it is for
      training release `rel + k / 24`, selection `(k % 24) / 12`, balancing
      `(k % 12) / 3` and learner `k % 3`. */
  predicate Placed(rec: Record, project: string, rel: int, k: nat) {
    rec.dataset == project && rec.trainRel == rel + k / 24 &&
    rec.featureSel == Selections[(k % 24) / 12] && rec.balancing == Balancings[(k % 12) / 3] &&
    rec.classifier == Classifiers[k % 3]
  }

  /** Placing a record one release further along. */
  lemma PlacedShift(rec: Record, project: string, rel: int, k: nat)
    requires k >= 24 && Placed(rec, project, rel + 1, k - 24)
    ensures Placed(rec, project, rel, k)
  {
    ReleaseShift(k);
  }

  lemma ReleaseShift(k: int)
    requires k >= 24
    ensures (k - 24) / 24 == k / 24 - 1 && (k - 24) % 24 == k % 24
    ensures (k - 24) % 12 == k % 12 && (k - 24) % 3 == k % 3
  {
    DivShift(k);
    ModShift24(k);
    ModShift12(k);
    ModShift3(k);
  }

  lemma DivShift(k: int)
    requires k >= 24
    ensures (k - 24) / 24 == k / 24 - 1
  {
  }

  lemma ModShift24(k: int)
    ensures (k - 24) % 24 == k % 24
  {
  }

  lemma ModShift12(k: int)
    ensures (k - 24) % 12 == k % 12
  {
  }

  lemma ModShift3(k: int)
    ensures (k - 24) % 3 == k % 3
  {
  }

  /** The 24 records of release `i`, all for training release `i - 1`. */
  lemma ReleaseLayout(project: string, file: seq<Row>, attributes: seq<string>, i: int, lib: Library)
    requires ReleaseRecords(project, file, attributes, i, lib).Success?
    ensures var v := ReleaseRecords(project, file, attributes, i, lib).value;
      |v| == 24 && forall k :: 0 <= k < 24 ==> Placed(v[k], project, i - 1, k)
  {
    var first := Prepared(project, file, attributes, i).value;
    BlocksLayout(first, lib);
    var v := ReleaseRecords(project, file, attributes, i, lib).value;
    forall k | 0 <= k < 24
      ensures Placed(v[k], project, i - 1, k)
    {
      assert k / 24 == 0 && k % 24 == k && (k % 12) == k % 12;
    }
  }

  /** The slices of a release hold one instance per data line written. */
  lemma PreparedSizes(project: string, file: seq<Row>, attributes: seq<string>, i: int)
    requires Prepared(project, file, attributes, i).Success?
    ensures TrainingData(DataRows(file), i).Success? && TestingData(DataRows(file), i).Success?
    ensures |Prepared(project, file, attributes, i).value.training.rows| == |TrainingData(DataRows(file), i).value|
    ensures |Prepared(project, file, attributes, i).value.testing.rows| == |TestingData(DataRows(file), i).value|
  {
    var rows := DataRows(file);
    LoadWrittenArff(project, attributes, TrainingData(rows, i).value);
    LoadWrittenArff(project, attributes, TestingData(rows, i).value);
  }

  /** Every record of a release stores the share of the rows written to
      the training file among all rows written; for input sorted by
      release, that is the rows of earlier releases over those of the
      releases up to and including `i`. */
  lemma ReleaseTrainingShare(project: string, file: seq<Row>, attributes: seq<string>, i: int, lib: Library)
    requires ReleaseRecords(project, file, attributes, i, lib).Success?
    ensures TrainingData(DataRows(file), i).Success? && TestingData(DataRows(file), i).Success?
    ensures var v := ReleaseRecords(project, file, attributes, i, lib).value;
      var trained := |TrainingData(DataRows(file), i).value|;
      var tested := |TestingData(DataRows(file), i).value|;
      |v| == 24 && forall k :: 0 <= k < 24 ==> v[k].train == Fraction(trained, trained + tested)
    ensures SortedByRelease(DataRows(file)) ==>
      var v := ReleaseRecords(project, file, attributes, i, lib).value;
      var below := |RowsBelow(DataRows(file), i)|;
      var at := |RowsAt(DataRows(file), i)|;
      |v| == 24 && forall k :: 0 <= k < 24 ==> v[k].train == Fraction(below, below + at)
  {
    BlocksLayout(Prepared(project, file, attributes, i).value, lib);
    PreparedSizes(project, file, attributes, i);
    if SortedByRelease(DataRows(file)) {
      TrainingIsRowsBelow(DataRows(file), i);
      TestingIsRowsAt(DataRows(file), i);
    }
  }

  /** A library that raises no exception and selects only attributes that
      exist. */
  ghost predicate Reliable(lib: Library) {
    (forall c, training, testing :: lib.learn(c, training, testing).Success?) &&
    (forall data :: lib.select(data).Success? && ValidIndices(lib.select(data).value, |data.attributes|)) &&
    (forall filter, data :: lib.prepare(filter, data).None?)
  }

  /** Both files of a release are written and read back, with the schema
      given, when the input rows are well formed and fit that schema. */
  lemma PreparedSucceeds(project: string, file: seq<Row>, attributes: seq<string>, i: int)
    requires WellFormed(DataRows(file)) && RowsFit(DataRows(file), |attributes|)
    ensures Prepared(project, file, attributes, i).Success?
    ensures Prepared(project, file, attributes, i).value.training.attributes == attributes
    ensures Prepared(project, file, attributes, i).value.testing.attributes == attributes
  {
    var rows := DataRows(file);
    TrainingFits(rows, i, |attributes|);
    TestingFits(rows, i, |attributes|);
    LoadWrittenArff(project, attributes, TrainingData(rows, i).value);
    LoadWrittenArff(project, attributes, TestingData(rows, i).value);
  }

  /** With well-formed input rows that fit the schema and a library that
      raises nothing, a release completes. */
  lemma ReleaseSucceeds(project: string, file: seq<Row>, attributes: seq<string>, i: int, lib: Library)
    requires WellFormed(DataRows(file)) && RowsFit(DataRows(file), |attributes|) && Reliable(lib)
    ensures ReleaseRecords(project, file, attributes, i, lib).Success?
  {
    PreparedSucceeds(project, file, attributes, i);
    StagesSucceed(Prepared(project, file, attributes, i).value, lib);
  }

  lemma StagesSucceed(first: Stage, lib: Library)
    requires Rectangular(first.training.rows, |first.training.attributes|)
    requires Rectangular(first.testing.rows, |first.testing.attributes|)
    requires first.training.attributes == first.testing.attributes && Reliable(lib)
    ensures ReleaseBlocks(first, lib).Success?
  {
    BlockLayout(first, lib);
    var indices := lib.select(first.training).value;
    assert Selected(first, lib).Success?;
    BlockLayout(Selected(first, lib).value, lib);
  }

  /** The records of releases `i` to `maxRelease`, in loop order; the first
      exception ends the whole experiment. */
  function WalkFrom(project: string, file: seq<Row>, attributes: seq<string>, i: int, maxRelease: int, lib: Library)
    : Result<seq<Record>, Exception>
    decreases maxRelease - i + 1
  {
    if i > maxRelease then Success([])
    else
      var records :- ReleaseRecords(project, file, attributes, i, lib);
      Prefixed(records, WalkFrom(project, file, attributes, i + 1, maxRelease, lib))
  }

  /** The walk from release `i` yields 24 records per release, record `k`
      placed as `Placed` says. */
  lemma {:induction false} WalkLayout(project: string, file: seq<Row>, attributes: seq<string>, i: int, maxRelease: int, lib: Library)
    requires WalkFrom(project, file, attributes, i, maxRelease, lib).Success?
    ensures var v := WalkFrom(project, file, attributes, i, maxRelease, lib).value;
      |v| == (if i <= maxRelease then 24 * (maxRelease - i + 1) else 0) &&
      forall k :: 0 <= k < |v| ==> Placed(v[k], project, i - 1, k)
    decreases maxRelease - i + 1
  {
    if i <= maxRelease {
      var head := ReleaseRecords(project, file, attributes, i, lib).value;
      ReleaseLayout(project, file, attributes, i, lib);
      WalkLayout(project, file, attributes, i + 1, maxRelease, lib);
      var tail := WalkFrom(project, file, attributes, i + 1, maxRelease, lib).value;
      var v := WalkFrom(project, file, attributes, i, maxRelease, lib).value;
      assert v == head + tail;
      forall k | 0 <= k < |v|
        ensures Placed(v[k], project, i - 1, k)
      {
        if k < 24 {
          assert v[k] == head[k];
        } else {
          assert v[k] == tail[k - 24];
          PlacedShift(v[k], project, i - 1, k);
        }
      }
    }
  }

  /** Under the same conditions the whole walk completes, so the layout
      above describes every run on such input. */
  lemma {:induction false} WalkSucceeds(project: string, file: seq<Row>, attributes: seq<string>, i: int, maxRelease: int, lib: Library)
    requires WellFormed(DataRows(file)) && RowsFit(DataRows(file), |attributes|) && Reliable(lib)
    ensures WalkFrom(project, file, attributes, i, maxRelease, lib).Success?
    decreases maxRelease - i + 1
  {
    if i <= maxRelease {
      ReleaseSucceeds(project, file, attributes, i, lib);
      WalkSucceeds(project, file, attributes, i + 1, maxRelease, lib);
    }
  }

  // ---------------------------------------------------------------------
  // The driver, step by step as the source runs it.

  /** One loop of `balancing`: learners 0, 1 and 2 under one label, each
      record appended to `records` as soon as it is filled in. */
  method RunClassifiers(st: Stage, bal: string, lib: Library, records: RecordList) returns (err: Option<Exception>)
    modifies records
    ensures err.None? <==> Cells(st, bal, lib, 3).Success?
    ensures err.Some? ==> err.value == Cells(st, bal, lib, 3).error
    ensures err.None? ==> records.items == old(records.items) + Cells(st, bal, lib, 3).value
    ensures old(records.items) <= records.items
  {
    for c := 0 to 3
      invariant Cells(st, bal, lib, c).Success?
      invariant records.items == old(records.items) + Cells(st, bal, lib, c).value
    {
      var rec := Classifier(st.training, st.testing, NewRecord(st.project, st.releases, st.featureSel, bal), c, lib);
      if rec.Failure? {
        CellsFailure(st, bal, lib, c + 1, 3);
        return Some(rec.error);
      }
      records.Add(rec.value);
    }
    return None;
  }

  /** `balancing`: the four loops, with the set-up of the oversampling and
      SMOTE filters between them. */
  method Balancing(st: Stage, lib: Library, records: RecordList) returns (err: Option<Exception>)
    modifies records
    ensures err.None? <==> BlockRecords(st, lib).Success?
    ensures err.Some? ==> err.value == BlockRecords(st, lib).error
    ensures err.None? ==> records.items == old(records.items) + BlockRecords(st, lib).value
    ensures old(records.items) <= records.items
  {
    BlockSteps(st, lib);
    var start := records.items;
    err := RunClassifiers(st, Balancings[0], lib, records);
    if err.Some? {
      return;
    }
    ghost var done := Cells(st, Balancings[0], lib, 3).value;
    err := lib.prepare("Resample", st.training);
    if err.Some? {
      return;
    }
    err := RunClassifiers(st, Balancings[1], lib, records);
    if err.Some? {
      return;
    }
    AppendAssoc(start, done, Cells(st, Balancings[1], lib, 3).value);
    done := done + Cells(st, Balancings[1], lib, 3).value;
    err := RunClassifiers(st, Balancings[2], lib, records);
    if err.Some? {
      return;
    }
    AppendAssoc(start, done, Cells(st, Balancings[2], lib, 3).value);
    done := done + Cells(st, Balancings[2], lib, 3).value;
    err := lib.prepare("SMOTE", st.training);
    if err.Some? {
      return;
    }
    err := RunClassifiers(st, Balancings[3], lib, records);
    if err.Some? {
      return;
    }
    AppendAssoc(start, done, Cells(st, Balancings[3], lib, 3).value);
  }

  /** The first half of a `walkForward` pass: `createTrainingArff`,
      `createTestingArff`, reading both files back, setting the class. */
  method PrepareRelease(project: string, file: seq<Row>, attributes: seq<string>, i: int)
    returns (res: Result<Stage, Exception>)
    ensures res == Prepared(project, file, attributes, i)
  {
    var trainText := CreateTrainingArff(project, file, attributes, i);
    if trainText.Failure? {
      return Failure(trainText.error);
    }
    var testText := CreateTestingArff(project, file, attributes, i);
    if testText.Failure? {
      return Failure(testText.error);
    }
    var trainAll := LoadArff(trainText.value);
    if trainAll.Failure? {
      return Failure(trainAll.error);
    }
    var testAll := LoadArff(testText.value);
    if testAll.Failure? {
      return Failure(testAll.error);
    }
    var n := |trainAll.value.attributes|;
    var training := trainAll.value.(classIndex := n - 1);
    var testing := testAll.value.(classIndex := n - 1);
    return Success(Stage(project, i - 1, Selections[0], training, testing));
  }

  /** `walkForward`: for every release from 2 to `maxRelease`, write both
      files, read them back, run both blocks; then write the report. An
      exception anywhere ends the run without a report. */
  method WalkForward(project: string, file: seq<Row>, attributes: seq<string>, maxRelease: int,
                     lib: Library, show: real -> string)
    returns (res: Result<seq<string>, Exception>)
    ensures WalkFrom(project, file, attributes, 2, maxRelease, lib).Failure? ==>
      res == Failure(WalkFrom(project, file, attributes, 2, maxRelease, lib).error)
    ensures WalkFrom(project, file, attributes, 2, maxRelease, lib).Success? ==>
      res.Success? && IsReport(res.value, WalkFrom(project, file, attributes, 2, maxRelease, lib).value, show)
  {
    var records := new RecordList();
    PrefixedNothing(WalkFrom(project, file, attributes, 2, maxRelease, lib));
    var i := 2;
    while i <= maxRelease
      invariant WalkFrom(project, file, attributes, 2, maxRelease, lib)
             == Prefixed(records.items, WalkFrom(project, file, attributes, i, maxRelease, lib))
      decreases maxRelease - i
    {
      var done := records.items;
      var first := PrepareRelease(project, file, attributes, i);
      if first.Failure? {
        return Failure(first.error);
      }
      var err := Balancing(first.value, lib, records);
      if err.Some? {
        return Failure(err.value);
      }
      var second := Selected(first.value, lib);
      if second.Failure? {
        return Failure(second.error);
      }
      err := Balancing(second.value, lib, records);
      if err.Some? {
        return Failure(err.value);
      }
      AppendAssoc(done, BlockRecords(first.value, lib).value, BlockRecords(second.value, lib).value);
      var release := ReleaseRecords(project, file, attributes, i, lib);
      assert release.Success? && records.items == done + release.value;
      PrefixedTwice(done, release.value, WalkFrom(project, file, attributes, i + 1, maxRelease, lib));
      i := i + 1;
    }
    assert records.items + [] == records.items;
    var lines := CreateCsv(records.items, show);
    return Success(lines);
  }
}
