# Walk-forward defect-prediction experiment, modelled in Dafny

`AnalyzeData` drives a walk-forward evaluation of defect-prediction learners
on a per-release data set. The input is a table whose lines are cut into
fields by a configured separator pattern: one header row, then one row per
class and release. Column 0 holds the release ordinal,
column 1 an identifier, and the remaining columns the attributes, with the
defect label last.

For every release `i` from 2 to the last one, the driver does the following:

- It writes a training ARFF file from the leading rows of earlier releases.
- It writes a testing ARFF file from the rows of release `i`.
- It reads both files back.
- It runs three learners under four balancing labels, first on all
  attributes and then after attribute selection.

Every run becomes one record of a CSV report.

The model has six modules:

- `Wrappers` (`wrappers.dfy`): `Option`, `Result`, and `Prefixed`, the
  output of a scan whose remainder may raise an exception.
- `Text` (`text.dfy`): `Integer.parseInt`, integer rendering, and joining
  and splitting on one separator character, proved inverse to each other.
- `Arff` (`arff.dfy`): `createTrainingArff` and `createTestingArff`.
  - Each is a method that prints line by line.
  - Each is proved equal to a specification function that scans the rows.
  - Lemmas relate the scans to the set of rows of earlier releases and of
    the release itself on sorted input. They also show what the scans do on
    unsorted input.
- `Dataset` (`dataset.dfy`): reading a written ARFF text back into
  instances, and the attribute-selection projection.
- `Records` (`records.dfy`): the `Record` value, the CSV report
  (`createCsv`) and the shared record list.
- `Experiment` (`experiment.dfy`): `classifier`, `balancing` and
  `walkForward`.
  - The order in which records are appended is proved.
  - So is the training share each record stores.
  - So is the fact that the balancing label changes nothing but the label.

The learning library is a parameter: `Experiment.Library` gives the
outcome of building and evaluating a learner, of the attribute-subset
search, and of setting up a balancing filter. Each is a deterministic
function of its arguments: a learner's figures depend only on which learner
runs and on the two slices. The learners run with the library's fixed
default seeds, so this holds of the program. The "same figures" half of
`Experiment.BalancingIsLabelOnly` rests on it.

Behaviour of the code that the model keeps:

- Any uncaught exception aborts the whole experiment, and no report is
  written. This covers a non-numeric ordinal, a row with fewer than three
  fields, or any exception raised by the library. Runs are not isolated
  from one another.
- The training scan stops at the first row whose release is not earlier.
  The testing scan stops at the first row of a later release. On unsorted
  input, rows after such a row are silently dropped rather than rejected
  (`Arff.UnsortedInputLosesRows`).
- Each balancing loop hands a fresh, unconfigured filtered classifier to
  `classifier`. The Resample, SpreadSubsample and SMOTE filters that
  `balancing` configures are therefore never applied, and the four
  balancing blocks train and test on the same data.
- The stored training share is `trainSize / (trainSize + testSize)`. It is
  1 when release `i` has no rows, 0 when there are no earlier rows, and
  `NaN` when both slices are empty.

## Model

| member | source | states |
|---|---|---|
| Text.ParseInt | src/main/java/AnalyzeData.java:72 | a parsed release ordinal lies within the Java `int` range and starts with a sign or a digit |
| Text.ParseIntMeaning | src/main/java/AnalyzeData.java:72 | a string is accepted exactly when it is an optional sign followed by one or more digits whose value fits in an `int`, and it is read as that signed decimal number |
| Text.ParseShow | src/main/java/AnalyzeData.java:174 | the rendering of an `int` in the report parses back to the same number |
| Text.SplitJoin | src/main/java/AnalyzeData.java:76-80 | cutting a line built by joining fields with a separator gives back exactly those fields, when no field contains the separator |
| Arff.Ordinal | src/main/java/AnalyzeData.java:72 | reading column 0 succeeds exactly when the row is non-empty and its first field parses, and yields that parsed number; an empty row is an index exception, a non-number a number-format exception |
| Arff.WriteHeader | src/main/java/AnalyzeData.java:53-60 | the header printed is `@relation` + project, one `@attribute` line per attribute in list order, then `@data` |
| Arff.JoinFields | src/main/java/AnalyzeData.java:76-80 | building `newLine` field by field gives fields 2 to the last joined by `,` |
| Arff.DataLineFields | src/main/java/AnalyzeData.java:76-80 | a written data line splits back into the row's fields from column 2 on, in order; columns 0 and 1 are dropped |
| Arff.CreateTrainingArff | src/main/java/AnalyzeData.java:51-84 | the printed file is the header followed by the training scan's lines, or the exception the scan raises |
| Arff.CreateTestingArff | src/main/java/AnalyzeData.java:106-143 | the printed file is the header followed by the testing scan's lines, or the exception the scan raises |
| Arff.TrainingStopsAtLaterRow | src/main/java/AnalyzeData.java:64-84 | training keeps exactly the leading run of rows below the release; nothing after the first row at or above it is written, whatever it holds |
| Arff.TrainingRejectsBadRow | src/main/java/AnalyzeData.java:70-76 | a row in the leading run whose ordinal does not parse, or that has fewer than three fields, aborts the file with that exception |
| Arff.TestingStopsAtLaterRow | src/main/java/AnalyzeData.java:119-143 | testing skips earlier rows, of which only the ordinal is read, keeps the rows of exactly the release in order, and writes nothing after the first row of a later release |
| Arff.TestingRejectsBadRow | src/main/java/AnalyzeData.java:127-133 | before the first row of a later release, an ordinal that does not parse, or a row of exactly the release with fewer than three fields, aborts the file with that exception; short rows of earlier releases are skipped |
| Arff.KeptOrdinals | src/main/java/AnalyzeData.java:127-141 | the rows kept as earlier, equal and later have ordinals below, equal to and above the release |
| Arff.TrainingIsRowsBelow | src/main/java/AnalyzeData.java:64-84 | on release-sorted input the training data is the lines of all rows of earlier releases |
| Arff.TestingIsRowsAt | src/main/java/AnalyzeData.java:119-143 | on release-sorted input the testing data is the lines of all rows of the release |
| Arff.TrainingTestingDisjoint | src/main/java/AnalyzeData.java:66-143 | on sorted input no row goes to both the training and the testing file of one release |
| Arff.SortedPartition | src/main/java/AnalyzeData.java:127-132 | sorted rows are exactly the earlier rows, then the rows of the release, then the later rows |
| Arff.RowsBelowNext | src/main/java/AnalyzeData.java:72-74 | on sorted input the rows below `r + 1` are the rows below `r` followed by the rows of `r` |
| Arff.TrainingNextRelease | src/main/java/AnalyzeData.java:66-143 | on sorted input the training data for `r + 1` is the training data for `r` followed by the testing data for `r` |
| Arff.TrainingGrows | src/main/java/AnalyzeData.java:72-74 | for any well-formed input the training data for a release is a prefix of that for every later release, so training never shrinks |
| Arff.UnsortedInputLosesRows | src/main/java/AnalyzeData.java:72-74 | on an unsorted three-row input the scan writes one line although two rows belong to earlier releases |
| Dataset.LoadArff | src/main/java/AnalyzeData.java:317-321 | reading an ARFF text back yields one instance per data line, each with one value per declared attribute, and no class set |
| Dataset.LoadWrittenArff | src/main/java/AnalyzeData.java:53-60 | a written header reads back as the same relation and attributes; the data lines become the instances, or the file is rejected if a line has the wrong number of values |
| Dataset.LoadWrittenRows | src/main/java/AnalyzeData.java:76-82 | the kept rows read back as exactly their columns from 2 on, one instance per row, when they fit the schema and hold no comma |
| Dataset.TrainingFits | src/main/java/AnalyzeData.java:66-84 | on well-formed rows that fit the schema the training scan completes and every line reads back with one value per attribute |
| Dataset.TestingFits | src/main/java/AnalyzeData.java:121-143 | the same for the testing scan |
| Dataset.SelectAttributes | src/main/java/AnalyzeData.java:339-342 | applying a selection keeps the relation name and every instance; attribute `k` of the result is the `k`-th selected attribute, and so is value `k` of every row; an index outside the schema raises an exception |
| Dataset.SelectionSharedSchema | src/main/java/AnalyzeData.java:339-342 | one selection applied to two slices with the same schema gives both the same attributes and keeps their sizes |
| Records.FractionValue | src/main/java/AnalyzeData.java:231 | a share whose part is at most its whole lies in [0, 1] |
| Records.NewRecord | src/main/java/AnalyzeData.java:255 | a new record carries the project, training release, selection and balancing label it was built with |
| Records.HeaderColumns | src/main/java/AnalyzeData.java:166-167 | the report header splits into the sixteen column names in order |
| Records.CsvLineFields | src/main/java/AnalyzeData.java:174-176 | a record's line splits back into sixteen values: name, training release (which parses back), share, rates, learner, labels and figures |
| Records.CreateCsv | src/main/java/AnalyzeData.java:166-178 | the report is the header followed by exactly one line per record, in list order |
| Records.ReadReport | src/main/java/AnalyzeData.java:166-176 | reading a report back gives the column names and each record's sixteen values |
| Records.RecordList.constructor | src/main/java/AnalyzeData.java:308 | the record list starts empty |
| Records.RecordList.Add | src/main/java/AnalyzeData.java:257 | adding a record appends it at the end and changes nothing else |
| Experiment.Classifier | src/main/java/AnalyzeData.java:186-239 | fills in learner `c`'s name, the training share and the learner's figures, leaves the other fields unchanged, and raises what the learner raises |
| Experiment.TrainShareBounds | src/main/java/AnalyzeData.java:231 | the stored share lies in [0, 1]; it is undefined only when both slices are empty, 1 with an empty test slice, 0 with an empty training slice |
| Experiment.CellsFailure | src/main/java/AnalyzeData.java:254-258 | once a learner raises an exception, the rest of the loop does not run and that exception is raised |
| Experiment.CellsLayout | src/main/java/AnalyzeData.java:254-258 | a loop over the first `n` learners succeeds exactly when those learners do, and record `c` is learner `c`'s |
| Experiment.BlockLayout | src/main/java/AnalyzeData.java:245-299 | a balancing call succeeds exactly when the three learners and the two filter set-ups raise nothing; it yields 12 records, record `k` being learner `k % 3` under label `k / 3` |
| Experiment.BalancingIsLabelOnly | src/main/java/AnalyzeData.java:254-297 | records of the same learner under different balancing labels carry the same share and figures, namely the learner's result on the unmodified slices |
| Experiment.Prepared | src/main/java/AnalyzeData.java:314-326 | a prepared release is for training release `i - 1`, labelled "No selection", with every instance having one value per attribute |
| Experiment.Selected | src/main/java/AnalyzeData.java:331-347 | the selected slices keep the project, the training release and every instance, labelled "Best first"; the training slice's attributes are those the search picks on the training slice; slices that shared a schema still share one; the class of both is the last selected attribute |
| Experiment.PreparedSchema | src/main/java/AnalyzeData.java:314-347 | both prepared slices carry exactly the attributes the files were written with and have the last one as class; after selection both slices again have the same attributes, with the last as class |
| Experiment.BlocksLayout | src/main/java/AnalyzeData.java:328-349 | the 24 records of a release: selection `k / 12`, balancing `(k % 12) / 3`, learner `k % 3`, all with the same share |
| Experiment.ReleaseLayout | src/main/java/AnalyzeData.java:312-351 | every one of the 24 records of release `i` is for training release `i - 1`, placed as in the walk |
| Experiment.PreparedSizes | src/main/java/AnalyzeData.java:317-321 | the slices read back hold one instance per line the scans wrote |
| Experiment.ReleaseTrainingShare | src/main/java/AnalyzeData.java:231 | every record of a release stores lines written for training over all lines written; on sorted input, rows of earlier releases over rows up to release `i` |
| Experiment.PreparedSucceeds | src/main/java/AnalyzeData.java:314-321 | on well-formed rows that fit the schema both files are written and read back with that schema |
| Experiment.StagesSucceed | src/main/java/AnalyzeData.java:328-349 | with a library that raises nothing, both blocks of a release complete |
| Experiment.ReleaseSucceeds | src/main/java/AnalyzeData.java:312-349 | with well-formed rows and a library that raises nothing, a release completes |
| Experiment.WalkLayout | src/main/java/AnalyzeData.java:312-351 | the walk yields `24 * (maxRelease - 1)` records, none when `maxRelease < 2`; record `k` is for training release `k / 24 + 1`, selection `(k % 24) / 12`, balancing `(k % 12) / 3`, learner `k % 3` |
| Experiment.WalkSucceeds | src/main/java/AnalyzeData.java:312-351 | with well-formed rows and a library that raises nothing, the whole walk completes |
| Experiment.RunClassifiers | src/main/java/AnalyzeData.java:254-258 | one balancing loop appends learners 0, 1, 2's records in order, or stops with the first exception; records already in the list are never lost |
| Experiment.Balancing | src/main/java/AnalyzeData.java:245-299 | the four loops and two filter set-ups append the block's 12 records in order, or report the first exception; records already in the list are never lost |
| Experiment.PrepareRelease | src/main/java/AnalyzeData.java:314-326 | writing, reading back and setting the class computes the prepared release or its first exception |
| Experiment.WalkForward | src/main/java/AnalyzeData.java:303-357 | the run returns the report for the walk's records when the walk completes, and otherwise the first exception without a report |

## Left out

- The learning library's internals are not modelled. This covers building
  and evaluating RandomForest, NaiveBayes and IBk, and the CfsSubsetEval /
  GreedyStepwise search. Their outcomes are the `learn` and `select`
  functions of `Experiment.Library`. The figures (TP, FP, TN, FN,
  precision, recall, ROC area, kappa) are uninterpreted reals.
- The balancing filters are modelled only through `prepare`, which says
  whether `setInputFormat` of Resample or SMOTE raises an exception.
  `SpreadSubsample.setOptions` with its fixed options is taken never to
  raise. Since the filters are never applied, nothing else of them matters.
- Floating point is not modelled.
  - The training share is exact (`Records.Fraction`) rather than a rounded
    `float`.
  - The decimal rendering of a real in the report is the parameter `show`.
  - `NaN` is the text written for an empty denominator.
- File and stream I/O is not modelled: file names, `PrintStream`,
  `BufferedReader`, and the logged and swallowed `IOException` /
  `FileNotFoundException`. The input file is a sequence of rows and each
  output file a sequence of lines. An input file that cannot be read is not
  modelled.
- `String.split` with a regular-expression separator is not modelled. Rows
  arrive already cut into fields, so Java's dropping of trailing empty
  fields is not reflected.
- `Dataset.LoadArff` reads only the shape this program writes. Attribute
  types, nominal value checks, quoting, comments and blank lines of the
  ARFF format are not modelled.
- `Text.ParseInt` accepts ASCII digits only, while `Integer.parseInt` also
  accepts other Unicode decimal digits.
- Sizes are unbounded naturals. A `trainSize + testSize` overflowing a
  Java `int` is not modelled.
- Experiment.WalkForward: the release counter is an unbounded integer, so
  the walk always ends. In Java the `int` counter of the release loop wraps
  when `maxRelease` is `Integer.MAX_VALUE`, and that loop never ends. This
  non-termination is not modelled.
- The `Record` class is not part of this model.
  - `Records.NewRecord` sets the fields the shown code never assigns
    (`trainDef`, `testDef`) to 0, and the unassigned share and figures to
    0.
  - A record is a value rather than a mutable object. Each one is created,
    filled in by `classifier` and added to the list before anything else
    sees it, so updating it in place and replacing it are the same.
- `Experiment.Classifier` requires a learner number below 3. The switch
  in `classifier` has no default branch, and every caller passes 0, 1 or 2.
- `main`, the JSON configuration, the logger set-up and `JSONReader` are
  outside the modelled core.
