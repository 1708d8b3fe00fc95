/** One line of the result table (`Record`), its serialisation in the CSV
    report written by `createCsv`, and the list the experiment appends its
    records to. */
module Records {
  import opened Wrappers
  import opened Text

  /** The evaluation figures of one run, for the positive class: uninterpreted
      numbers produced by the learning library. */
  datatype Metrics = Metrics(tp: real, fp: real, tn: real, fn: real,
                             precision: real, recall: real, roc: real, kappa: real)

  const NoMetrics := Metrics(0.0, 0.0, 0.0, 0.0, 0.0, 0.0, 0.0, 0.0)

  /** `(float) part / whole`, kept exact: the size of the training slice over
      the size of both slices. */
  datatype Fraction = Fraction(part: nat, whole: nat)

  function FractionValue(f: Fraction): (v: real)
    requires f.whole > 0
    ensures f.part <= f.whole ==> 0.0 <= v <= 1.0
  {
    f.part as real / f.whole as real
  }

  /** One experiment: which project, which training release, how the data
      was filtered and balanced, which learner ran, and what it scored. */
  datatype Record = Record(dataset: string, trainRel: int, train: Fraction,
                           trainDef: real, testDef: real, classifier: string,
                           balancing: string, featureSel: string, metrics: Metrics)

  /** `new Record(project, releases, featureSel, balancing)`: the fields the
      constructor is given, every other field still at its initial value. */
  function NewRecord(project: string, releases: int, featureSel: string, balancing: string): (r: Record)
    ensures r.dataset == project && r.trainRel == releases
    ensures r.featureSel == featureSel && r.balancing == balancing
  {
    Record(project, releases, Fraction(0, 1), 0.0, 0.0, "", balancing, featureSel, NoMetrics)
  }

  /** The sixteen columns of the report, in order. */
  const CsvColumns: seq<string> := [
    "Dataset", "Training release", "%Training", "%Defective in training",
    "%Defective in testing", "Classifier", "Balancing", "Feature selection",
    "TP", "FP", "TN", "FN", "Precision", "Recall", "ROC Area", "Kappa"]

  /** The first line of the report as `createCsv` prints it: the column
      names separated by `;`. */
  const CsvHeader: string := Join(CsvColumns, ';')

  /** The header line splits back into the sixteen column names. */
  lemma HeaderColumns()
    ensures Split(CsvHeader, ';') == CsvColumns
  {
    forall k | 0 <= k < |CsvColumns|
      ensures ';' !in CsvColumns[k]
    {
    }
    SplitJoin(CsvColumns, ';');
  }

  /** How a training fraction appears in the report; a float division by
      zero gives `NaN`. The decimal rendering of a real is `show`. */
  function FractionText(f: Fraction, show: real -> string): string {
    if f.whole == 0 then "NaN" else show(FractionValue(f))
  }

  /** The sixteen values of a record's report line, column by column. */
  function CsvFields(r: Record, show: real -> string): seq<string> {
    [r.dataset, Show(r.trainRel), FractionText(r.train, show), show(r.trainDef), show(r.testDef),
     r.classifier, r.balancing, r.featureSel,
     show(r.metrics.tp), show(r.metrics.fp), show(r.metrics.tn), show(r.metrics.fn),
     show(r.metrics.precision), show(r.metrics.recall), show(r.metrics.roc), show(r.metrics.kappa)]
  }

  function CsvLine(r: Record, show: real -> string): string {
    Join(CsvFields(r, show), ';')
  }

  /** A report line splits back into one value per column: the record's
      name, its training release (which parses back to the same number),
      its labels and its figures, provided no value holds a `;`. */
  lemma CsvLineFields(r: Record, show: real -> string)
    requires forall k :: 0 <= k < 16 ==> ';' !in CsvFields(r, show)[k]
    ensures |Split(CsvLine(r, show), ';')| == |CsvColumns|
    ensures Split(CsvLine(r, show), ';') == CsvFields(r, show)
    ensures var f := Split(CsvLine(r, show), ';');
      f[0] == r.dataset && f[5] == r.classifier && f[6] == r.balancing && f[7] == r.featureSel
    ensures MinInt <= r.trainRel <= MaxInt ==> ParseInt(Split(CsvLine(r, show), ';')[1]) == Some(r.trainRel)
  {
    SplitJoin(CsvFields(r, show), ';');
    if MinInt <= r.trainRel <= MaxInt {
      ParseShow(r.trainRel);
    }
  }

  /** `lines` is the report for `records`: the header, then one line per
      record in list order. */
  predicate IsReport(lines: seq<string>, records: seq<Record>, show: real -> string) {
    |lines| == |records| + 1 && lines[0] == CsvHeader &&
    forall k :: 0 <= k < |records| ==> lines[k + 1] == CsvLine(records[k], show)
  }

  /** `createCsv`: prints the header, then each record's line. */
  method CreateCsv(records: seq<Record>, show: real -> string) returns (lines: seq<string>)
    ensures |lines| == |records| + 1 && lines[0] == CsvHeader
    ensures forall k :: 0 <= k < |records| ==> lines[k + 1] == CsvLine(records[k], show)
  {
    lines := [CsvHeader];
    for i := 0 to |records|
      invariant |lines| == i + 1 && lines[0] == CsvHeader
      invariant forall k :: 0 <= k < i ==> lines[k + 1] == CsvLine(records[k], show)
    {
      lines := lines + [CsvLine(records[i], show)];
    }
  }

  /** Reading a report back: the first line gives the sixteen column names
      and every other line the sixteen values of its record. */
  lemma ReadReport(lines: seq<string>, records: seq<Record>, show: real -> string)
    requires IsReport(lines, records, show)
    requires forall k, j :: 0 <= k < |records| && 0 <= j < 16 ==> ';' !in CsvFields(records[k], show)[j]
    ensures Split(lines[0], ';') == CsvColumns
    ensures forall k :: 1 <= k < |lines| ==> Split(lines[k], ';') == CsvFields(records[k - 1], show)
  {
    HeaderColumns();
    forall k | 1 <= k < |lines|
      ensures Split(lines[k], ';') == CsvFields(records[k - 1], show)
    {
      CsvLineFields(records[k - 1], show);
    }
  }

  /** The list of records the experiment appends to (`List<Record>`). */
  class RecordList {
    var items: seq<Record>

    constructor ()
      ensures items == []
    {
      items := [];
    }

    /** `records.add(r)`. */
    method Add(r: Record)
      modifies this
      ensures items == old(items) + [r]
    {
      items := items + [r];
    }
  }
}
