/** The training data the app collects, as the app uses GRT's
    TimeSeriesClassificationData: a configured row width and an ordered
    sequence of labelled samples, with a per-label count derived from it. */
module LabelledData {

  /** One sensor reading, a GRT vector<double>. */
  type Row = seq<real>

  /** A recording, a GRT MatrixDouble, one row per reading. */
  type Matrix = seq<Row>

  datatype LabeledSample = LabeledSample(classLabel: nat, data: Matrix)

  datatype Dataset = Dataset(numDimensions: nat, samples: seq<LabeledSample>)

  /** The column count of a MatrixDouble built from empty by push_back: the
      width of its rows, and 0 for a matrix with no rows (a cleared one). */
  function Columns(m: Matrix): nat
  {
    if |m| == 0 then 0 else |m[0]|
  }

  /** GRT's test in addSample: the sample has as many columns as the dataset
      has dimensions, and every row has that width. A recording without rows
      has no columns, so it fits only a dataset of width 0. */
  predicate Fits(d: nat, m: Matrix)
  {
    Columns(m) == d && forall i | 0 <= i < |m| :: |m[i]| == d
  }

  /** addSample: the sample is appended exactly when it fits the dataset's
      width; the flag reports which happened. */
  function AddSample(ds: Dataset, classLabel: nat, m: Matrix): (r: (Dataset, bool))
    ensures r.1 <==> Fits(ds.numDimensions, m)
    ensures r.0.numDimensions == ds.numDimensions
    ensures r.1 ==> r.0.samples == ds.samples + [LabeledSample(classLabel, m)]
    ensures !r.1 ==> r.0 == ds
  {
    if Fits(ds.numDimensions, m) then
      (ds.(samples := ds.samples + [LabeledSample(classLabel, m)]), true)
    else
      (ds, false)
  }

  /** setNumDimensions: a positive width clears the data and takes the new
      width; a width of 0 is refused and leaves the data as it was. */
  function SetNumDimensions(ds: Dataset, d: nat): (r: (Dataset, bool))
    ensures r.1 <==> d > 0
    ensures r.1 ==> r.0.numDimensions == d && |r.0.samples| == 0
    ensures r.1 ==> forall classLabel: nat :: ClassCount(r.0.samples, classLabel) == 0
    ensures !r.1 ==> r.0 == ds
  {
    if d > 0 then (Dataset(d, []), true) else (ds, false)
  }

  /** After a successful setNumDimensions, a recording is accepted exactly
      when it fits the new width, and it is then the only sample. */
  lemma AddAfterResize(ds: Dataset, d: nat, classLabel: nat, m: Matrix)
    requires d > 0
    ensures var (sized, _) := SetNumDimensions(ds, d);
      && (AddSample(sized, classLabel, m).1 <==> Fits(d, m))
      && (Fits(d, m) ==> AddSample(sized, classLabel, m).0.samples == [LabeledSample(classLabel, m)])
  {
  }

  /** The class tracker's counter for one label. */
  function ClassCount(samples: seq<LabeledSample>, classLabel: nat): (n: nat)
    ensures n <= |samples|
    ensures n == 0 <==> forall i | 0 <= i < |samples| :: samples[i].classLabel != classLabel
  {
    if samples == [] then 0
    else ClassCount(samples[..|samples| - 1], classLabel) + (if samples[|samples| - 1].classLabel == classLabel then 1 else 0)
  }

  /** Counting over a concatenation adds the counts of the parts. */
  lemma {:induction false} ClassCountAppend(a: seq<LabeledSample>, b: seq<LabeledSample>, classLabel: nat)
    ensures ClassCount(a + b, classLabel) == ClassCount(a, classLabel) + ClassCount(b, classLabel)
  {
    if b != [] {
      ClassCountAppend(a, b[..|b| - 1], classLabel);
      assert (a + b)[..|a + b| - 1] == a + b[..|b| - 1];
    } else {
      assert a + b == a;
    }
  }

  /** An accepted sample raises its own label's count by exactly one and
      leaves every other count alone; a rejected one changes no count. */
  lemma AddSampleCounts(ds: Dataset, classLabel: nat, m: Matrix, other: nat)
    ensures ClassCount(AddSample(ds, classLabel, m).0.samples, other)
            == ClassCount(ds.samples, other) + (if AddSample(ds, classLabel, m).1 && other == classLabel then 1 else 0)
  {
    if Fits(ds.numDimensions, m) {
      ClassCountAppend(ds.samples, [LabeledSample(classLabel, m)], other);
      assert [LabeledSample(classLabel, m)][..0] == [];
    }
  }

  /** A recording without rows is refused by a dataset of positive width. */
  lemma EmptyRecordingRefused(ds: Dataset, classLabel: nat)
    requires ds.numDimensions > 0
    ensures AddSample(ds, classLabel, []) == (ds, false)
  {
  }
}
