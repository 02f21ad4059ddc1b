/** The recording session of the SmartSensors app
    (Xcode/SmartSensors/src/ofApp.cpp). Key presses start a recording under
    a digit label and issue commands; every update tick feeds the buffered
    input rows to the recording and, once the pipeline is trained, to the
    classifier; a key release ends the recording and adds it to the training
    data. Setup sizes the plots from the pipeline's stages.

    The pure functions below say what each handler does to the app's state;
    the class App further down holds that state in fields and is proved to
    follow them. */
module SessionApp {
  import opened LabelledData
  import opened Colors

  /** The visible tab, fragment_. */
  datatype Fragment = PIPELINE | TRAINING | ANALYSIS

  /** What the classifier reports after predicting one reading:
      predicted_label_, predicted_class_distances_,
      predicted_class_likelihoods_ and predicted_class_labels_. */
  datatype Prediction = Prediction(classLabel: nat, distances: seq<real>, likelihoods: seq<real>, classLabels: seq<nat>)

  /** The results of the foreign calls a key press can make: whether
      pipeline_->train succeeded, and the dataset object that
      loadTrainingData's load left behind (successful or not). */
  datatype Outcomes = Outcomes(trainSucceeds: bool, loaded: Dataset)

  /** The part of ofApp's state that the key and update handlers touch. */
  datatype Session = Session(
    isRecording: bool,
    currentLabel: nat,          // label_
    sampleData: Matrix,         // sample_data_
    trainingData: Dataset,      // training_data_
    fragment: Fragment,         // fragment_
    guiHide: bool,              // gui_hide_
    shouldSaveTrainingData: bool,
    pipelineTrained: bool,      // pipeline_->getTrained()
    streamStarted: bool,        // istream_->hasStarted()
    inputData: Matrix,          // input_data_
    prediction: Prediction)

  /** The keys '1' to '9'. */
  predicate IsDigitKey(key: int)
  {
    '1' as int <= key <= '9' as int
  }

  // ---------------------------------------------------------------------
  // The handlers as functions of the state

  /** loadTrainingData: the loaded object replaces the training data even
      when the load reported failure, and nothing is left unsaved. */
  function LoadedTrainingData(s: Session, loaded: Dataset): Session
  {
    s.(trainingData := loaded, shouldSaveTrainingData := false)
  }

  /** The command switch of keyPressed. Training runs synchronously; the
      pipeline's trained flag is what train reported. */
  function Command(s: Session, key: int, out: Outcomes): Session
  {
    if key == 't' as int then
      s.(pipelineTrained := out.trainSucceeds,
         fragment := if out.trainSucceeds then TRAINING else s.fragment)
    else if key == 'l' as int then LoadedTrainingData(s, out.loaded)
    else if key == 'h' as int then s.(guiHide := !s.guiHide)
    else if key == 's' as int then s.(streamStarted := true)
    else if key == 'e' as int then s.(streamStarted := false, inputData := [])
    else if key == 'P' as int then s.(fragment := PIPELINE)
    else if key == 'T' as int then s.(fragment := TRAINING)
    else if key == 'A' as int then s.(fragment := ANALYSIS)
    else s
  }

  /** keyPressed: a digit starts a recording when none is running, then the
      key is looked up among the commands. */
  function Pressed(s: Session, key: int, out: Outcomes): Session
  {
    Command(Started(s, key), key, out)
  }

  /** The recording step of keyPressed, before the command switch. */
  function Started(s: Session, key: int): Session
  {
    if IsDigitKey(key) && !s.isRecording then
      s.(isRecording := true, currentLabel := key - '0' as int, sampleData := [])
    else s
  }

  /** keyReleased: any key ends the recording; a digit also adds label_ and
      the recorded rows to the training data and marks it unsaved. */
  function Released(s: Session, key: int): Session
  {
    var stopped := s.(isRecording := false);
    if IsDigitKey(key) then
      stopped.(trainingData := AddSample(s.trainingData, s.currentLabel, s.sampleData).0,
               shouldSaveTrainingData := true)
    else
      stopped
  }

  /** The per-row work of update over rows, in order: a recording takes the
      row, and a trained pipeline's prediction for it replaces the last one.
      predictions[i] is what the classifier reports for rows[i]. */
  function UpdateRows(s: Session, rows: Matrix, predictions: seq<Prediction>): Session
    requires |predictions| == |rows|
    decreases |rows|
  {
    if rows == [] then s
    else
      var before := UpdateRows(s, rows[..|rows| - 1], predictions[..|rows| - 1]);
      var recorded :=
        if before.isRecording then before.(sampleData := before.sampleData + [rows[|rows| - 1]])
        else before;
      if recorded.pipelineTrained then recorded.(prediction := predictions[|rows| - 1])
      else recorded
  }

  /** update: one pass over the buffered input rows, which it does not clear. */
  function Updated(s: Session, predictions: seq<Prediction>): Session
    requires |predictions| == |s.inputData|
  {
    UpdateRows(s, s.inputData, predictions)
  }

  /** onDataIn: the new batch replaces the buffered rows. */
  function DataIn(s: Session, input: Matrix): Session
  {
    s.(inputData := input)
  }

  // ---------------------------------------------------------------------
  // Properties of the handlers

  /** A digit pressed while idle starts recording under the digit's value,
      with an empty buffer; nothing else changes. */
  lemma DigitPressStartsRecording(s: Session, key: int, out: Outcomes)
    requires IsDigitKey(key) && !s.isRecording
    ensures Pressed(s, key, out) == s.(isRecording := true, currentLabel := key - '0' as int, sampleData := [])
    ensures 1 <= Pressed(s, key, out).currentLabel <= 9
  {
  }

  /** A digit pressed during a recording changes nothing at all. */
  lemma DigitPressWhileRecordingIgnored(s: Session, key: int, out: Outcomes)
    requires IsDigitKey(key) && s.isRecording
    ensures Pressed(s, key, out) == s
  {
  }

  /** Releasing any key ends the recording. Only a digit adds a sample, under
      the label chosen when the recording started rather than the released
      key, and marks the data unsaved; any other key changes nothing else. */
  lemma ReleaseEndsRecording(s: Session, key: int)
    ensures !Released(s, key).isRecording
    ensures IsDigitKey(key) ==>
      Released(s, key) == s.(isRecording := false,
                             trainingData := AddSample(s.trainingData, s.currentLabel, s.sampleData).0,
                             shouldSaveTrainingData := true)
    ensures !IsDigitKey(key) ==> Released(s, key) == s.(isRecording := false)
  {
  }

  /** 't' trains: the tab switches to TRAINING only when training succeeds
      and is left as it was when it fails. */
  lemma TrainCommand(s: Session, out: Outcomes)
    ensures Pressed(s, 't' as int, out) ==
      s.(pipelineTrained := out.trainSucceeds,
         fragment := if out.trainSucceeds then TRAINING else s.fragment)
  {
  }

  /** 'l' replaces the training data with the loaded object and clears the
      unsaved flag, whatever the load reported. */
  lemma LoadCommand(s: Session, out: Outcomes)
    ensures Pressed(s, 'l' as int, out) == s.(trainingData := out.loaded, shouldSaveTrainingData := false)
  {
  }

  /** 'h' flips the GUI-hidden flag, so pressing it twice restores the state. */
  lemma HideToggleTwice(s: Session, out: Outcomes)
    ensures Pressed(s, 'h' as int, out).guiHide == !s.guiHide
    ensures Pressed(Pressed(s, 'h' as int, out), 'h' as int, out) == s
  {
  }

  /** 'P', 'T' and 'A' select their tab and change nothing else. */
  lemma TabKeys(s: Session, out: Outcomes)
    ensures Pressed(s, 'P' as int, out) == s.(fragment := PIPELINE)
    ensures Pressed(s, 'T' as int, out) == s.(fragment := TRAINING)
    ensures Pressed(s, 'A' as int, out) == s.(fragment := ANALYSIS)
  {
  }

  /** 's' starts the stream; 'e' stops it and drops the buffered rows. */
  lemma StreamKeys(s: Session, out: Outcomes)
    ensures Pressed(s, 's' as int, out) == s.(streamStarted := true)
    ensures Pressed(s, 'e' as int, out) == s.(streamStarted := false, inputData := [])
  {
  }

  /** One pass over rows: the buffer gains exactly the rows, in order, when
      recording and is untouched otherwise; the prediction becomes the last
      row's only when the pipeline is trained; nothing else changes. */
  lemma UpdateRowsEffect(s: Session, rows: Matrix, predictions: seq<Prediction>)
    requires |predictions| == |rows|
    ensures UpdateRows(s, rows, predictions) ==
      s.(sampleData := if s.isRecording then s.sampleData + rows else s.sampleData,
         prediction := if s.pipelineTrained && |rows| > 0 then predictions[|rows| - 1] else s.prediction)
  {
    UpdateRowsFrame(s, rows, predictions);
    UpdateRowsSamples(s, rows, predictions);
    UpdateRowsPrediction(s, rows, predictions);
  }

  /** Only the buffer and the prediction move. */
  lemma {:induction false} UpdateRowsFrame(s: Session, rows: Matrix, predictions: seq<Prediction>)
    requires |predictions| == |rows|
    ensures UpdateRows(s, rows, predictions).(sampleData := s.sampleData, prediction := s.prediction) == s
  {
    if rows != [] {
      var n := |rows| - 1;
      UpdateRowsFrame(s, rows[..n], predictions[..n]);
    }
  }

  /** The buffer gains exactly the rows, in order, when recording. */
  lemma {:induction false} UpdateRowsSamples(s: Session, rows: Matrix, predictions: seq<Prediction>)
    requires |predictions| == |rows|
    ensures UpdateRows(s, rows, predictions).sampleData
            == if s.isRecording then s.sampleData + rows else s.sampleData
  {
    if rows != [] {
      var n := |rows| - 1;
      UpdateRowsFrame(s, rows[..n], predictions[..n]);
      UpdateRowsSamples(s, rows[..n], predictions[..n]);
      assert rows[..n] + [rows[n]] == rows;
      assert s.sampleData + rows[..n] + [rows[n]] == s.sampleData + rows;
    }
  }

  /** The prediction becomes the last row's exactly when trained. */
  lemma {:induction false} UpdateRowsPrediction(s: Session, rows: Matrix, predictions: seq<Prediction>)
    requires |predictions| == |rows|
    ensures UpdateRows(s, rows, predictions).prediction
            == if s.pipelineTrained && |rows| > 0 then predictions[|rows| - 1] else s.prediction
  {
    if rows != [] {
      var n := |rows| - 1;
      UpdateRowsFrame(s, rows[..n], predictions[..n]);
      UpdateRowsPrediction(s, rows[..n], predictions[..n]);
    }
  }

  /** update does not consume input_data_: two ticks with no new batch in
      between record the same rows twice. */
  lemma UpdateTwiceRecordsTwice(s: Session, p1: seq<Prediction>, p2: seq<Prediction>)
    requires s.isRecording && |p1| == |s.inputData| && |p2| == |s.inputData|
    ensures Updated(s, p1).inputData == s.inputData
    ensures Updated(Updated(s, p1), p2).sampleData == s.sampleData + s.inputData + s.inputData
  {
    UpdateRowsEffect(s, s.inputData, p1);
    UpdateRowsEffect(Updated(s, p1), s.inputData, p2);
  }

  /** A digit press, one update tick and a digit release add one sample: the
      buffered rows under the pressed digit's value, whichever digit is
      released. Its label's count rises by one and no other count moves;
      rows of the wrong width are refused and leave the data as it was. */
  lemma RecordOneSample(s: Session, press: int, release: int, out: Outcomes,
                        predictions: seq<Prediction>, other: nat)
    requires !s.isRecording && IsDigitKey(press) && IsDigitKey(release)
    requires |predictions| == |s.inputData|
    ensures Pressed(s, press, out).inputData == s.inputData
    ensures var after := Released(Updated(Pressed(s, press, out), predictions), release);
      && !after.isRecording
      && after.shouldSaveTrainingData
      && (Fits(s.trainingData.numDimensions, s.inputData) ==>
            after.trainingData.samples
              == s.trainingData.samples + [LabeledSample(press - '0' as int, s.inputData)])
      && (!Fits(s.trainingData.numDimensions, s.inputData) ==> after.trainingData == s.trainingData)
      && ClassCount(after.trainingData.samples, other)
         == ClassCount(s.trainingData.samples, other)
            + (if other == press - '0' as int && Fits(s.trainingData.numDimensions, s.inputData) then 1 else 0)
  {
    PressThenTick(s, press, out, predictions);
    AddSampleCounts(s.trainingData, press - '0' as int, s.inputData, other);
  }

  /** After a digit press from idle, a tick leaves the input rows in the
      buffer under the pressed digit's value. */
  lemma PressThenTick(s: Session, press: int, out: Outcomes, predictions: seq<Prediction>)
    requires !s.isRecording && IsDigitKey(press)
    requires |predictions| == |s.inputData|
    ensures Pressed(s, press, out) == s.(isRecording := true, currentLabel := press - '0' as int, sampleData := [])
    ensures var updated := Updated(Pressed(s, press, out), predictions);
      && updated.sampleData == s.inputData
      && updated.currentLabel == press - '0' as int
      && updated.trainingData == s.trainingData
  {
    var pressed := s.(isRecording := true, currentLabel := press - '0' as int, sampleData := []);
    DigitPressStartsRecording(s, press, out);
    UpdateRowsEffect(pressed, pressed.inputData, predictions);
    assert [] + s.inputData == s.inputData;
  }

  /** A digit pressed and released with no update tick in between leaves an
      empty recording, which a dataset of positive width refuses. */
  lemma PressReleaseWithoutTick(s: Session, press: int, release: int, out: Outcomes)
    requires !s.isRecording && IsDigitKey(press) && IsDigitKey(release)
    requires s.trainingData.numDimensions > 0
    ensures Released(Pressed(s, press, out), release).trainingData == s.trainingData
    ensures Released(Pressed(s, press, out), release).shouldSaveTrainingData
  {
    DigitPressStartsRecording(s, press, out);
    EmptyRecordingRefused(s.trainingData, press - '0' as int);
  }

  /** Releasing another key during a recording ends it early but keeps the
      buffer: the next digit release still adds the cut-short recording under
      the label it started with. */
  lemma CutShortRecordingStillAdded(s: Session, other: int, digit: int)
    requires s.isRecording && !IsDigitKey(other) && IsDigitKey(digit)
    requires Fits(s.trainingData.numDimensions, s.sampleData)
    ensures !Released(s, other).isRecording && Released(s, other).sampleData == s.sampleData
    ensures Released(Released(s, other), digit).trainingData.samples
      == s.trainingData.samples + [LabeledSample(s.currentLabel, s.sampleData)]
  {
  }

  /** Every digit release adds a sample, recording or not: releasing two
      digits that were held together adds the same recording twice. */
  lemma SecondReleaseAddsAgain(s: Session, k1: int, k2: int)
    requires IsDigitKey(k1) && IsDigitKey(k2)
    requires Fits(s.trainingData.numDimensions, s.sampleData)
    ensures Released(Released(s, k1), k2).trainingData.samples
      == s.trainingData.samples + [LabeledSample(s.currentLabel, s.sampleData), LabeledSample(s.currentLabel, s.sampleData)]
  {
  }

  // ---------------------------------------------------------------------
  // Plot bookkeeping in setup

  /** kTooManyFeaturesThreshold. */
  const TooManyFeaturesThreshold: nat := 32

  /** A time-series plot as setup configures it: its buffer length, the
      dimensions it draws and the number of colours it was given. */
  datatype PlotShape = PlotShape(bufferSize: nat, dimensions: nat, paletteSize: nat)

  /** The plots of one feature-extraction stage of output dimension dim. */
  function FeatureStagePlots(bufferSize: nat, dim: nat): seq<PlotShape>
  {
    if dim < TooManyFeaturesThreshold then seq(dim, _ => PlotShape(bufferSize, 1, dim))
    else [PlotShape(dim, 1, dim)]
  }

  /** One plot per pre-processing stage, drawing all its output dimensions. */
  function PreProcessingPlots(bufferSize: nat, dims: seq<nat>): seq<PlotShape>
  {
    if dims == [] then []
    else PreProcessingPlots(bufferSize, dims[..|dims| - 1]) + [PlotShape(bufferSize, dims[|dims| - 1], dims[|dims| - 1])]
  }

  /** The plots of every feature-extraction stage, stage by stage. */
  function FeaturePlots(bufferSize: nat, dims: seq<nat>): seq<seq<PlotShape>>
  {
    if dims == [] then []
    else FeaturePlots(bufferSize, dims[..|dims| - 1]) + [FeatureStagePlots(bufferSize, dims[|dims| - 1])]
  }

  /** A stage narrower than the threshold gets one single-dimension plot per
      feature; a wider one gets exactly one plot, buffered over its features.
      Every plot is given as many colours as the stage has features. */
  lemma FeatureStagePlotCount(bufferSize: nat, dim: nat)
    ensures |FeatureStagePlots(bufferSize, dim)| == if dim < TooManyFeaturesThreshold then dim else 1
    ensures forall p | p in FeatureStagePlots(bufferSize, dim) :: p.dimensions == 1 && p.paletteSize == dim
    ensures dim >= TooManyFeaturesThreshold ==> FeatureStagePlots(bufferSize, dim) == [PlotShape(dim, 1, dim)]
  {
  }

  /** Stage i of the feature plots is the plot set of the i-th stage's dimension. */
  lemma {:induction false} FeaturePlotsAt(bufferSize: nat, dims: seq<nat>, i: nat)
    requires i < |dims|
    ensures |FeaturePlots(bufferSize, dims)| == |dims|
    ensures FeaturePlots(bufferSize, dims)[i] == FeatureStagePlots(bufferSize, dims[i])
  {
    var n := |dims| - 1;
    FeaturePlotsLength(bufferSize, dims[..n]);
    if i < n {
      FeaturePlotsAt(bufferSize, dims[..n], i);
    }
  }

  lemma {:induction false} FeaturePlotsLength(bufferSize: nat, dims: seq<nat>)
    ensures |FeaturePlots(bufferSize, dims)| == |dims|
  {
    if dims != [] {
      FeaturePlotsLength(bufferSize, dims[..|dims| - 1]);
    }
  }

  /** Pre-processing plot i draws all dims[i] outputs of stage i. */
  lemma {:induction false} PreProcessingPlotsAt(bufferSize: nat, dims: seq<nat>, i: nat)
    requires i < |dims|
    ensures |PreProcessingPlots(bufferSize, dims)| == |dims|
    ensures PreProcessingPlots(bufferSize, dims)[i] == PlotShape(bufferSize, dims[i], dims[i])
  {
    var n := |dims| - 1;
    PreProcessingPlotsLength(bufferSize, dims[..n]);
    if i < n {
      PreProcessingPlotsAt(bufferSize, dims[..n], i);
    }
  }

  lemma {:induction false} PreProcessingPlotsLength(bufferSize: nat, dims: seq<nat>)
    ensures |PreProcessingPlots(bufferSize, dims)| == |dims|
  {
    if dims != [] {
      PreProcessingPlotsLength(bufferSize, dims[..|dims| - 1]);
    }
  }

  /** The check update makes, in debug builds, before it hands a wide
      feature stage's output to that stage's plot, as written: it tests the
      number of feature stages. */
  predicate WideStageCheckAsWritten(plots: seq<seq<PlotShape>>)
  {
    |plots| == 1
  }

  /** The evidently intended check: the wide stage j has exactly one plot. */
  predicate WideStageCheck(plots: seq<seq<PlotShape>>, j: nat)
    requires j < |plots|
  {
    |plots[j]| == 1
  }

  /** A wide feature stage followed by a narrow one: setup gives the wide
      stage its single plot, yet the check as written fails, since there are
      two stages. */
  lemma WideStageCheckAsWrittenRejectsTwoStages(bufferSize: nat)
    ensures |FeaturePlots(bufferSize, [40, 2])| == 2
    ensures WideStageCheck(FeaturePlots(bufferSize, [40, 2]), 0)
    ensures !WideStageCheckAsWritten(FeaturePlots(bufferSize, [40, 2]))
  {
    FeaturePlotsAt(bufferSize, [40, 2], 0);
  }

  /** The intended check holds for every wide stage that setup configures. */
  lemma WideStageCheckHolds(bufferSize: nat, dims: seq<nat>, j: nat)
    requires j < |dims| && dims[j] >= TooManyFeaturesThreshold
    ensures j < |FeaturePlots(bufferSize, dims)|
    ensures WideStageCheck(FeaturePlots(bufferSize, dims), j)
  {
    FeaturePlotsAt(bufferSize, dims, j);
    FeatureStagePlotCount(bufferSize, dims[j]);
  }

  // ---------------------------------------------------------------------
  // The app object

  class App {
    var isRecording: bool
    var currentLabel: nat
    var sampleData: Matrix
    var trainingData: Dataset
    var fragment: Fragment
    var guiHide: bool
    var shouldSaveTrainingData: bool
    var pipelineTrained: bool
    var streamStarted: bool
    var inputData: Matrix
    var prediction: Prediction
    var numPipelineStages: nat
    var plotPreProcessed: seq<PlotShape>
    var plotFeatures: seq<seq<PlotShape>>

    ghost function Snapshot(): Session
      reads this
    {
      Session(isRecording, currentLabel, sampleData, trainingData, fragment, guiHide,
              shouldSaveTrainingData, pipelineTrained, streamStarted, inputData, prediction)
    }

    /** The fields only setup writes. */
    ghost function Layout(): (nat, seq<PlotShape>, seq<seq<PlotShape>>)
      reads this
    {
      (numPipelineStages, plotPreProcessed, plotFeatures)
    }

    /** ofApp(): the pipeline tab, no stages counted, nothing to save. The
        fields the constructor does not initialise are left unspecified. */
    constructor ()
      ensures fragment == PIPELINE && numPipelineStages == 0 && !shouldSaveTrainingData
      ensures plotPreProcessed == [] && plotFeatures == []
    {
      fragment := PIPELINE;
      numPipelineStages := 0;
      shouldSaveTrainingData := false;
      plotPreProcessed, plotFeatures := [], [];
    }

    /** The state part of setup: recording off, the stage count raised by the
        number of pre-processing and feature-extraction modules, one plot per
        pre-processing stage and the feature plots of each feature stage, the
        dataset cleared and sized to the stream's width (a width of 0 is
        refused and changes nothing), the predicted label zeroed and
        the GUI hidden. Each plot takes its colours from one palette. */
    method Setup(inputDimensions: nat, bufferSize: nat, preProcessingDims: seq<nat>, featureDims: seq<nat>)
      modifies this
      ensures Snapshot() == old(Snapshot()).(
        isRecording := false,
        trainingData := SetNumDimensions(old(trainingData), inputDimensions).0,
        prediction := old(prediction).(classLabel := 0),
        guiHide := true)
      ensures numPipelineStages == old(numPipelineStages) + |preProcessingDims| + |featureDims|
      ensures plotPreProcessed == old(plotPreProcessed) + PreProcessingPlots(bufferSize, preProcessingDims)
      ensures plotFeatures == old(plotFeatures) + FeaturePlots(bufferSize, featureDims)
    {
      var palette := new Palette();
      var pre := PreProcessingStages(palette, bufferSize, preProcessingDims);
      var features := FeatureStages(palette, bufferSize, featureDims);
      isRecording := false;
      numPipelineStages := numPipelineStages + |preProcessingDims| + |featureDims|;
      plotPreProcessed := plotPreProcessed + pre;
      plotFeatures := plotFeatures + features;
      trainingData := SetNumDimensions(trainingData, inputDimensions).0;
      prediction := prediction.(classLabel := 0);
      guiHide := true;
    }

    /** One plot per pre-processing stage, each coloured from the palette. */
    static method PreProcessingStages(palette: Palette, bufferSize: nat, dims: seq<nat>) returns (plots: seq<PlotShape>)
      requires palette.Valid()
      modifies palette
      ensures palette.Valid()
      ensures plots == PreProcessingPlots(bufferSize, dims)
    {
      plots := [];
      var i := 0;
      while i < |dims|
        invariant 0 <= i <= |dims| && palette.Valid()
        invariant plots == PreProcessingPlots(bufferSize, dims[..i])
      {
        var dim := dims[i];
        var colors := palette.Generate(dim);
        assert dims[..i + 1][..i] == dims[..i];
        plots := plots + [PlotShape(bufferSize, dim, |colors|)];
        i := i + 1;
      }
      assert dims[..i] == dims;
    }

    /** The plots of every feature stage, stage by stage. */
    static method FeatureStages(palette: Palette, bufferSize: nat, dims: seq<nat>) returns (plots: seq<seq<PlotShape>>)
      requires palette.Valid()
      modifies palette
      ensures palette.Valid()
      ensures plots == FeaturePlots(bufferSize, dims)
    {
      plots := [];
      var j := 0;
      while j < |dims|
        invariant 0 <= j <= |dims| && palette.Valid()
        invariant plots == FeaturePlots(bufferSize, dims[..j])
      {
        var stage := FeatureStage(palette, bufferSize, dims[j]);
        assert dims[..j + 1][..j] == dims[..j];
        plots := plots + [stage];
        j := j + 1;
      }
      assert dims[..j] == dims;
    }

    /** The plots of one feature stage, each coloured from the palette. */
    static method FeatureStage(palette: Palette, bufferSize: nat, dim: nat) returns (stage: seq<PlotShape>)
      requires palette.Valid()
      modifies palette
      ensures palette.Valid()
      ensures stage == FeatureStagePlots(bufferSize, dim)
    {
      if dim < TooManyFeaturesThreshold {
        stage := [];
        var k := 0;
        while k < dim
          invariant 0 <= k <= dim && palette.Valid()
          invariant stage == seq(k, _ => PlotShape(bufferSize, 1, dim))
        {
          var colors := palette.Generate(dim);
          stage := stage + [PlotShape(bufferSize, 1, |colors|)];
          k := k + 1;
        }
      } else {
        var colors := palette.Generate(dim);
        stage := [PlotShape(dim, 1, |colors|)];
      }
    }

    /** keyPressed. */
    method KeyPressed(key: int, out: Outcomes)
      modifies this
      ensures Snapshot() == Pressed(old(Snapshot()), key, out)
      ensures Layout() == old(Layout())
    {
      ghost var before := Snapshot();
      if IsDigitKey(key) {
        if !isRecording {
          isRecording := true;
          currentLabel := key - '0' as int;
          sampleData := [];
        }
      }
      assert Snapshot() == Started(before, key);
      RunCommand(key, out);
    }

    /** The command switch of keyPressed. */
    method RunCommand(key: int, out: Outcomes)
      modifies this
      ensures Snapshot() == Command(old(Snapshot()), key, out)
      ensures Layout() == old(Layout())
    {
      if key == 't' as int {
        pipelineTrained := out.trainSucceeds;
        if out.trainSucceeds {
          fragment := TRAINING;
        }
      } else if key == 'l' as int {
        LoadTrainingData(out.loaded);
      } else if key == 'h' as int {
        guiHide := !guiHide;
      } else if key == 's' as int {
        streamStarted := true;
      } else if key == 'e' as int {
        streamStarted := false;
        inputData := [];
      } else if key == 'P' as int {
        fragment := PIPELINE;
      } else if key == 'T' as int {
        fragment := TRAINING;
      } else if key == 'A' as int {
        fragment := ANALYSIS;
      }
    }

    /** loadTrainingData. */
    method LoadTrainingData(loaded: Dataset)
      modifies this
      ensures Snapshot() == LoadedTrainingData(old(Snapshot()), loaded)
      ensures Layout() == old(Layout())
    {
      trainingData := loaded;
      shouldSaveTrainingData := false;
    }

    /** keyReleased. The flag addSample returns is ignored, as in the source. */
    method KeyReleased(key: int)
      modifies this
      ensures Snapshot() == Released(old(Snapshot()), key)
      ensures Layout() == old(Layout())
    {
      isRecording := false;
      if IsDigitKey(key) {
        var (data, _) := AddSample(trainingData, currentLabel, sampleData);
        trainingData := data;
        shouldSaveTrainingData := true;
      }
    }

    /** The recording and prediction part of update, one row at a time. */
    method Update(predictions: seq<Prediction>)
      requires |predictions| == |inputData|
      modifies this
      ensures Snapshot() == Updated(old(Snapshot()), predictions)
      ensures Layout() == old(Layout())
    {
      var i := 0;
      while i < |inputData|
        invariant 0 <= i <= |inputData|
        invariant Snapshot() == old(Snapshot()).(
          sampleData := if old(isRecording) then old(sampleData) + inputData[..i] else old(sampleData),
          prediction := if old(pipelineTrained) && i > 0 then predictions[i - 1] else old(prediction))
        invariant Layout() == old(Layout())
        modifies this`sampleData, this`prediction
      {
        var dataPoint := inputData[i];
        if isRecording {
          assert inputData[..i + 1] == inputData[..i] + [dataPoint];
          sampleData := sampleData + [dataPoint];
        }
        if pipelineTrained {
          prediction := predictions[i];
        }
        i := i + 1;
      }
      assert inputData[..i] == inputData;
      UpdateRowsEffect(old(Snapshot()), inputData, predictions);
    }

    /** onDataIn: the new batch replaces the buffered rows. */
    method OnDataIn(input: Matrix)
      modifies this
      ensures Snapshot() == DataIn(old(Snapshot()), input)
      ensures Layout() == old(Layout())
    {
      inputData := input;
    }
  }
}
