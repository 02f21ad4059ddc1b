# SmartSensors / ESP core in Dafny

This project models the core of the ESP example-based sensor prototyping
toolkit and its SmartSensors openFrameworks app, and proves properties of the model:

- **Tuneable parameters** (`Xcode/ESP/src/tuneable.h`). A `Tuneable` refers to an
  int, double or bool owned by someone else. It is modelled as a shared `Cell`
  object that the Tuneable's methods write through. A Tuneable carries a title,
  a description, a range and an optional callback typed by its kind. It writes
  its value as one line `"<KIND> <value>"` (`toString`) and stores a parsed
  line back through the reference (`fromString`). The model spells out the text
  formats involved. `std::to_string` of an int is decimal. `std::to_string` of
  a double is `printf("%f")`: six decimals, rounded to nearest with ties to
  even. Reading uses `std::istream` word and number extraction, with the C
  locale's whitespace. Module `TextFormat` holds these formats; module
  `Tuneables` holds the class.
- **Training sample checking** (`Xcode/ESP/src/training.h`). This covers the
  three-valued `TrainingSampleCheckerResult` with its message, and the default
  message of each severity. It also covers the example checker from the header's
  documentation: no rows give FAILURE, one row gives WARNING, more rows give
  SUCCESS. Finally, it covers the single registered-checker slot, where the
  last registration wins. This is module `Training`.
- **The session controller** (`Xcode/SmartSensors/src/ofApp.cpp`):
  - The key handlers: digits record samples; 't', 'l', 'h', 's', 'e', 'P', 'T'
    and 'A' are commands.
  - The update loop: the recording buffer takes every row while recording, and
    predictions are gated on the pipeline being trained.
  - `loadTrainingData`, `onDataIn`, and the state and plot bookkeeping of `setup`.
  - The colour `Palette`.

  Module `SessionApp` holds pure transition functions over a `Session` value,
  and the lemmas about them. Its class `App` holds the same state in fields,
  and every handler method is proved to move that state as the transition
  function says. The palette is module `Colors`. The training data, as the app
  uses GRT's `TimeSeriesClassificationData`, is module `LabelledData`: a row
  width, an ordered list of labelled samples, `addSample`, and the per-label
  count.

The foreign calls are parameters:

- `pipeline_->train` is a boolean the caller supplies.
- The dataset that `loadTrainingData`'s `load` leaves behind is supplied too.
- The classifier's output after `predict` on row i is the i-th element of a
  supplied sequence.
- `ofRandom(50, 255)` is any value in [50, 255].

Where the documented design and the code disagree, the model follows the code:

- `fromString` returns false on every path, even after storing a value. This is
  proved as `ensures !ok`.
- `fromString` does not clamp the value to the tuneable's range: the value read
  is stored as it is. A user change is taken to lie within the range, because
  the control offers only such values (`Tuneables.Tuneable.UserChanged`).
- The DOUBLE line does not round-trip exactly. `%f` keeps six decimals, so the
  value comes back only to within 5e-7. `Tuneables.DoubleLineDropsDigits` shows
  0.0000001 coming back as 0.
- Releasing any key ends a recording, and releasing any digit adds a sample
  under the label chosen at press time. It need not be the digit that started
  the recording, and two held digits add the same recording twice.
- Releasing a non-digit key while recording ends the recording early. The
  buffer is kept, and the next digit release adds it
  (`SessionApp.CutShortRecordingStillAdded`).

## Model

| member | source | states |
|---|---|---|
| TextFormat.Decimal | Xcode/ESP/src/tuneable.h:94 | the text of an int is one word with a '-' exactly for negatives, "0" exactly for zero, and no leading zero (so never "-0") |
| TextFormat.NatDigitsLeading | Xcode/ESP/src/tuneable.h:94 | the digits of zero are "0" and those of a positive number do not start with '0' |
| TextFormat.FixedPoint6 | Xcode/ESP/src/tuneable.h:98 | `%f`: sign, whole digits, '.', and six rounded fraction digits (its properties are the next rows) |
| TextFormat.FixedPoint6Shape | Xcode/ESP/src/tuneable.h:98 | the rendering is one word with a '-' exactly for negatives, at least one whole digit, the point, and six digits |
| TextFormat.ParseDecimal | Xcode/ESP/src/tuneable.h:120 | reading an int word: an optional '-' then digits, anything else fails (its round trip is DecimalRoundTrip) |
| TextFormat.ParseFixed | Xcode/ESP/src/tuneable.h:127 | reading a double word: an optional '-', digits, then optionally '.' and more digits (its round trip is FixedPoint6Close) |
| TextFormat.DecimalRoundTrip | Xcode/ESP/src/tuneable.h:92-95 | the decimal text of any int is one word that reads back as that int, with a leading '-' exactly for negatives |
| TextFormat.NatDigitsRoundTrip | Xcode/ESP/src/tuneable.h:94 | the digits of a natural number are non-empty, all decimal digits, and denote the number |
| TextFormat.ScaledMagnitude | Xcode/ESP/src/tuneable.h:98 | the six-decimal rounding of a double's magnitude is within half a unit of \|x\|·10^6 |
| TextFormat.FixedPoint6Close | Xcode/ESP/src/tuneable.h:96-99 | the `%f` rendering of any double is one word that parses, and its value is within 5e-7 of the double |
| TextFormat.PaddedValue | Xcode/ESP/src/tuneable.h:98 | the zero-padded fraction digits have the requested width and denote the fraction |
| TextFormat.NextWord | Xcode/ESP/src/tuneable.h:114-117 | extraction gives a non-empty word without whitespace, ending after the start; it fails exactly when only whitespace remains |
| TextFormat.SkipSpaces | Xcode/ESP/src/tuneable.h:117 | the extraction skips exactly the leading whitespace |
| TextFormat.WordEnd | Xcode/ESP/src/tuneable.h:117 | a word runs to the next whitespace or the end of the line |
| TextFormat.NextWordOfPair | Xcode/ESP/src/tuneable.h:94-134 | "tag value" reads back as the tag, then the value |
| TextFormat.ExtractWord | Xcode/ESP/src/tuneable.h:117 | the scanning loops return the next word and position, or report failure when only whitespace remains |
| TextFormat.ExtractInt | Xcode/ESP/src/tuneable.h:120 | integer extraction returns the value of the next word and the position after it |
| TextFormat.AccumulateDigits | Xcode/ESP/src/tuneable.h:120 | the digit loop accumulates the value of the digits it passed |
| Tuneables.Decode | Xcode/ESP/src/tuneable.h:113-140 | what fromString stores for a line, by the first word (pinned by the following lemmas) |
| Tuneables.DecodeKind | Xcode/ESP/src/tuneable.h:117-140 | the first word alone selects the kind stored: INT, DOUBLE, BOOL, or nothing for any other word or an empty line |
| Tuneables.IntLine | Xcode/ESP/src/tuneable.h:94 | the INT line toString returns: "INT ", then `std::to_string` of the int (it reads back by IntLineRoundTrip) |
| Tuneables.DoubleLine | Xcode/ESP/src/tuneable.h:98 | the DOUBLE line toString returns: "DOUBLE ", then the `%f` text of the double (it reads back by DoubleLineClose) |
| Tuneables.BoolLine | Xcode/ESP/src/tuneable.h:102 | the BOOL line toString returns: "BOOL true" or "BOOL false" (it reads back by BoolLineRoundTrip) |
| Tuneables.IntLineRoundTrip | Xcode/ESP/src/tuneable.h:92-124 | an INT line written by toString is well formed and fromString stores the same int |
| Tuneables.BoolLineRoundTrip | Xcode/ESP/src/tuneable.h:100-139 | a BOOL line written by toString stores the same bool |
| Tuneables.DoubleLineClose | Xcode/ESP/src/tuneable.h:96-131 | a DOUBLE line written by toString stores a double within 5e-7 of the original |
| Tuneables.DoubleLineDecode | Xcode/ESP/src/tuneable.h:96-131 | a DOUBLE line stores exactly the value its rendering parses to |
| Tuneables.DoubleLineDropsDigits | Xcode/ESP/src/tuneable.h:96-131 | 0.0000001 is written with six zero decimals and stored back as 0 |
| Tuneables.VanishingDoubleLine | Xcode/ESP/src/tuneable.h:96-131 | a non-negative double that rounds to no millionths is written as zeros and stored back as 0 |
| Tuneables.DoubleWordDecode | Xcode/ESP/src/tuneable.h:125-127 | "DOUBLE w" stores the value w parses to |
| Tuneables.BoolLineParse | Xcode/ESP/src/tuneable.h:132-135 | after BOOL the value is true exactly when the next word is "true"; a missing word leaves "BOOL" in the word and gives false |
| Tuneables.UnknownTagStoresNothing | Xcode/ESP/src/tuneable.h:117-140 | a line whose first word is no known tag, or an empty line, stores nothing |
| Tuneables.Tuneable.IntRange | Xcode/ESP/src/tuneable.h:28-35 | an INT_RANGE tuneable bound to the given int, with its range, title, description and int callback; no other reference or callback |
| Tuneables.Tuneable.DoubleRange | Xcode/ESP/src/tuneable.h:37-45 | a DOUBLE_RANGE tuneable bound to the given double, with its range and double callback only |
| Tuneables.Tuneable.Boolean | Xcode/ESP/src/tuneable.h:47-53 | a BOOL tuneable bound to the given bool, with no range and its bool callback only |
| Tuneables.Tuneable.GetType | Xcode/ESP/src/tuneable.h:153-155 | the kind, which is INT_RANGE, DOUBLE_RANGE or BOOL exactly when the reference of that kind is bound |
| Tuneables.Tuneable.ToString | Xcode/ESP/src/tuneable.h:90-110 | the line is the kind's tag, a space and the value's text (`std::to_string`, or true/false), and decodes to the bound value (INT and BOOL exactly, DOUBLE to within 5e-7); SET gives "" |
| Tuneables.Tuneable.FromString | Xcode/ESP/src/tuneable.h:112-143 | the bound value becomes the decoded line's value, unclamped; an unknown tag changes nothing; the result is always false |
| Tuneables.Tuneable.Dispatch | Xcode/ESP/src/tuneable.h:8-10 | a user change calls the supplied callback of the tuneable's kind with the new value, and reloads the pipeline exactly when there is no callback |
| Tuneables.Tuneable.UserChanged | Xcode/ESP/src/tuneable.h:180-188 | a change made through the control, which offers only values within [min, max], stores the new value in the bound variable, then dispatches as above |
| Training.ThreeOutcomes | Xcode/ESP/src/training.h:23-27 | there are exactly three distinct results |
| Training.CheckerResult.GetResult | Xcode/ESP/src/training.h:31 | getResult: the result the checker result was built with (stated by WithMessage and WithDefaultMessage) |
| Training.CheckerResult.GetMessage | Xcode/ESP/src/training.h:32 | getMessage: the message it was built with, or its severity's default (stated by WithMessage and WithDefaultMessage) |
| Training.WithMessage | Xcode/ESP/src/training.h:30-33 | the two-argument result keeps its result and message |
| Training.WithDefaultMessage | Xcode/ESP/src/training.h:29-41 | the one-argument result carries the default message of its severity |
| Training.DefaultMessageTellsSeverity | Xcode/ESP/src/training.h:39-41 | with distinct defaults, two default-message results have the same message exactly when they have the same result |
| Training.ExampleCheck | Xcode/ESP/src/training.h:65-78 | FAILURE exactly for no rows, WARNING exactly for one row, SUCCESS exactly for two or more, with the documented messages |
| Training.ExampleCheckMonotone | Xcode/ESP/src/training.h:65-78 | a longer sample is never judged more severely |
| Training.CheckerSlot.Use | Xcode/ESP/src/training.h:84-86 | registering replaces the active checker |
| Training.CheckerSlot.Check | Xcode/ESP/src/training.h:59-61 | a sample is judged by the active checker, and by none when none is registered |
| Training.LastRegistrationWins | Xcode/ESP/src/training.h:84-86 | after two registrations, every sample is judged by the second checker |
| LabelledData.AddSample | Xcode/SmartSensors/src/ofApp.cpp:507 | a sample is appended exactly when its column count (0 for no rows) and every row's width equal the dataset's width, as the flag reports; otherwise the data is unchanged |
| LabelledData.SetNumDimensions | Xcode/SmartSensors/src/ofApp.cpp:137 | a positive width clears every sample (every count becomes 0) and takes the width, as the flag reports; a width of 0 is refused and changes nothing |
| LabelledData.AddAfterResize | Xcode/SmartSensors/src/ofApp.cpp:137-507 | after setup sizes the dataset, a recording is accepted exactly when it fits the stream's width, and becomes the only sample |
| LabelledData.ClassCount | Xcode/SmartSensors/src/ofApp.cpp:511-513 | a label's count never exceeds the number of samples, and is zero exactly when no sample carries the label |
| LabelledData.EmptyRecordingRefused | Xcode/SmartSensors/src/ofApp.cpp:507 | a recording with no rows is refused by a dataset of positive width |
| LabelledData.ClassCountAppend | Xcode/SmartSensors/src/ofApp.cpp:511-513 | counts over a concatenation add up |
| LabelledData.AddSampleCounts | Xcode/SmartSensors/src/ofApp.cpp:507-513 | an accepted sample raises its own label's count by one and no other count; a rejected one changes none |
| Colors.PrefixWellFormed | Xcode/SmartSensors/src/ofApp.cpp:24 | the first n colours of a generated table are again red, green, blue, then light colours |
| Colors.Palette.constructor | Xcode/SmartSensors/src/ofApp.cpp:28-30 | a fresh palette holds 256 generated colours |
| Colors.Palette.DoGenerate | Xcode/SmartSensors/src/ofApp.cpp:32-47 | the table has n colours: red, green, blue first, then random light colours, all opaque |
| Colors.Palette.Generate | Xcode/SmartSensors/src/ofApp.cpp:17-26 | returns the first n colours; the table is regenerated and grows to n only when n exceeds its size, and is unchanged otherwise |
| SessionApp.LoadedTrainingData | Xcode/SmartSensors/src/ofApp.cpp:479-501 | loadTrainingData as a transition: the loaded object replaces the training data and nothing is left unsaved |
| SessionApp.Started | Xcode/SmartSensors/src/ofApp.cpp:420-426 | the digit step of keyPressed, before the switch: a digit starts a recording only when none runs (its cases are DigitPressStartsRecording and DigitPressWhileRecordingIgnored) |
| SessionApp.Command | Xcode/SmartSensors/src/ofApp.cpp:429-476 | the command switch of keyPressed (each branch is pinned by the key lemmas below) |
| SessionApp.Pressed | Xcode/SmartSensors/src/ofApp.cpp:419-477 | keyPressed: a digit starts a recording when none is running, then the command switch (pinned by the key lemmas below) |
| SessionApp.Released | Xcode/SmartSensors/src/ofApp.cpp:504-517 | keyReleased: any key ends the recording, a digit adds the buffer (pinned by ReleaseEndsRecording) |
| SessionApp.UpdateRows | Xcode/SmartSensors/src/ofApp.cpp:184-228 | the per-row work of update, in row order (closed form in UpdateRowsEffect) |
| SessionApp.Updated | Xcode/SmartSensors/src/ofApp.cpp:184-228 | update: one pass over the buffered input, which is not cleared |
| SessionApp.DataIn | Xcode/SmartSensors/src/ofApp.cpp:413-416 | onDataIn: the new batch replaces the buffered input |
| SessionApp.DigitPressStartsRecording | Xcode/SmartSensors/src/ofApp.cpp:420-426 | a digit pressed while idle starts recording under its value (1 to 9) with an empty buffer, changing nothing else |
| SessionApp.DigitPressWhileRecordingIgnored | Xcode/SmartSensors/src/ofApp.cpp:420-426 | a digit pressed during a recording changes nothing |
| SessionApp.ReleaseEndsRecording | Xcode/SmartSensors/src/ofApp.cpp:504-517 | any release ends the recording; a digit release adds the buffer under the press-time label and marks the data unsaved; other keys change nothing else |
| SessionApp.TrainCommand | Xcode/SmartSensors/src/ofApp.cpp:429-452 | 't' records the training outcome and switches to the training tab only on success |
| SessionApp.LoadCommand | Xcode/SmartSensors/src/ofApp.cpp:454-455 | 'l' replaces the training data with the loaded object and clears the unsaved flag |
| SessionApp.HideToggleTwice | Xcode/SmartSensors/src/ofApp.cpp:457-459 | 'h' flips the GUI-hidden flag; pressing it twice restores the state |
| SessionApp.StreamKeys | Xcode/SmartSensors/src/ofApp.cpp:460-466 | 's' starts the stream; 'e' stops it and clears the buffered input |
| SessionApp.TabKeys | Xcode/SmartSensors/src/ofApp.cpp:467-475 | 'P', 'T', 'A' select their tab and change nothing else |
| SessionApp.UpdateRowsEffect | Xcode/SmartSensors/src/ofApp.cpp:184-228 | one pass appends exactly the input rows, in order, when recording; the prediction becomes the last row's only when trained; nothing else changes |
| SessionApp.UpdateRowsFrame | Xcode/SmartSensors/src/ofApp.cpp:184-228 | the update pass changes only the recording buffer and the prediction |
| SessionApp.UpdateRowsSamples | Xcode/SmartSensors/src/ofApp.cpp:216-218 | the buffer gains exactly the input rows, in order, when recording, and nothing otherwise |
| SessionApp.UpdateRowsPrediction | Xcode/SmartSensors/src/ofApp.cpp:220-226 | the prediction is the last row's exactly when the pipeline is trained and there was a row |
| SessionApp.UpdateTwiceRecordsTwice | Xcode/SmartSensors/src/ofApp.cpp:184-228 | update does not consume the input, so two ticks record the same rows twice |
| SessionApp.RecordOneSample | Xcode/SmartSensors/src/ofApp.cpp:419-517 | press, tick, release adds one sample (the input rows under the pressed digit), raising only that label's count; rows of the wrong width are refused |
| SessionApp.PressReleaseWithoutTick | Xcode/SmartSensors/src/ofApp.cpp:419-517 | a press and a release with no update between them try to add an empty recording, which a dataset of positive width refuses, yet the data is marked unsaved |
| SessionApp.CutShortRecordingStillAdded | Xcode/SmartSensors/src/ofApp.cpp:504-517 | releasing a non-digit key ends the recording but keeps its buffer, and the next digit release adds it under the press-time label |
| SessionApp.SecondReleaseAddsAgain | Xcode/SmartSensors/src/ofApp.cpp:504-517 | two digit releases add the same recording twice |
| SessionApp.FeatureStagePlots | Xcode/SmartSensors/src/ofApp.cpp:106-122 | the plots setup builds for one feature stage (counted by FeatureStagePlotCount) |
| SessionApp.PreProcessingPlots | Xcode/SmartSensors/src/ofApp.cpp:85-96 | the plots setup builds for the pre-processing stages (pinned by PreProcessingPlotsAt) |
| SessionApp.FeaturePlots | Xcode/SmartSensors/src/ofApp.cpp:99-125 | the plot sets setup builds for the feature stages (pinned by FeaturePlotsAt) |
| SessionApp.FeatureStagePlotCount | Xcode/SmartSensors/src/ofApp.cpp:106-122 | a stage narrower than 32 features gets one single-dimension plot per feature; a wider one gets one plot buffered over its features |
| SessionApp.PreProcessingPlotsAt | Xcode/SmartSensors/src/ofApp.cpp:85-96 | pre-processing plot i draws all outputs of stage i |
| SessionApp.PreProcessingPlotsLength | Xcode/SmartSensors/src/ofApp.cpp:85-96 | there is one pre-processing plot per stage |
| SessionApp.FeaturePlotsAt | Xcode/SmartSensors/src/ofApp.cpp:99-125 | feature plot set i is the plot set of stage i's width |
| SessionApp.FeaturePlotsLength | Xcode/SmartSensors/src/ofApp.cpp:99-125 | there is one feature plot set per stage |
| SessionApp.WideStageCheckAsWrittenRejectsTwoStages | Xcode/SmartSensors/src/ofApp.cpp:210 | with a wide stage followed by a narrow one, the wide stage has its one plot, yet the check as written fails |
| SessionApp.WideStageCheckHolds | Xcode/SmartSensors/src/ofApp.cpp:114-121 | every wide stage that setup configures has exactly one plot |
| SessionApp.App.constructor | Xcode/SmartSensors/src/ofApp.cpp:61-64 | the app starts on the pipeline tab with no stages counted and nothing to save |
| SessionApp.App.Setup | Xcode/SmartSensors/src/ofApp.cpp:67-154 | recording off; stage count raised by both module counts; plots as above; dataset cleared and sized to the stream's width when that is positive; predicted label 0; GUI hidden; nothing else changes |
| SessionApp.App.PreProcessingStages | Xcode/SmartSensors/src/ofApp.cpp:85-96 | the loop builds one coloured plot per pre-processing stage |
| SessionApp.App.FeatureStages | Xcode/SmartSensors/src/ofApp.cpp:99-125 | the loop builds each feature stage's plots in order |
| SessionApp.App.FeatureStage | Xcode/SmartSensors/src/ofApp.cpp:106-122 | the plots of one feature stage, by the threshold rule |
| SessionApp.App.KeyPressed | Xcode/SmartSensors/src/ofApp.cpp:419-477 | the new state is the key-press transition of the old one |
| SessionApp.App.RunCommand | Xcode/SmartSensors/src/ofApp.cpp:429-476 | the command switch leaves the state the command transition gives, and no layout field changes |
| SessionApp.App.LoadTrainingData | Xcode/SmartSensors/src/ofApp.cpp:479-501 | the loaded object replaces the training data, whatever the load reported, and nothing is left unsaved |
| SessionApp.App.KeyReleased | Xcode/SmartSensors/src/ofApp.cpp:504-517 | the new state is the key-release transition of the old one |
| SessionApp.App.Update | Xcode/SmartSensors/src/ofApp.cpp:184-228 | the row loop leaves the state the update transition gives |
| SessionApp.App.OnDataIn | Xcode/SmartSensors/src/ofApp.cpp:413-416 | the new batch replaces the buffered input |

## Left out

- Drawing: `draw`, `drawLivePipeline`, `drawTrainingInfo` and `drawAnalysis`, the plot updates inside `update` and the key handlers, the label plots and their info strings, the input plot, and `ofBackground`. These are rendering only. The plot shapes `setup` configures are kept.
- The per-label sample plots and info strings in `keyReleased` and `loadTrainingData` depend on `kNumMaxLabels_` and GRT's class tracker; `ofApp.h` is not part of this model.
- GRT internals: training, prediction, pre-processing and feature extraction. Their outcomes are parameters. Loading and saving files, and the file dialogs, are left out too: the loaded dataset is a parameter, and `savePipeline`, `loadPipeline`, `saveTrainingData` and `exit` are not modelled.
- Concurrency: the input mutex, the training thread and its join. Training is modelled as synchronous, as the code runs it.
- The user's `::setup()`, stream registration and the stream object. The stream's started flag is a field. `istream_->start()` and `stop()` are modelled as setting it.
- `addToGUI`, `getUIAddress`, `getDataAddress` and the GUI updates inside `fromString`. These are GUI wiring.
- `registerTuneable` and the tuneable registry. Their bodies are not part of this model. The dispatch rule is modelled from the header's documentation as `Tuneables.Tuneable.Dispatch`.
- The SET kind has no constructor in the source. It is kept in the type, and it renders as "".
- Tuneables.Tuneable.FromString: requires the value word after INT to be an in-range decimal, and after DOUBLE a plain decimal fraction. It does not model stream failure on malformed or out-of-range numbers, nor a leading '+', a number without whole digits such as ".5", exponent notation, or "inf"/"nan". It also requires the line's tag to match the tuneable's kind, because the source would otherwise write through a reference of the wrong type.
- Tuneables.DoubleLineClose and Tuneables.Tuneable.ToString state a DOUBLE round trip only to within 5e-7, not bit for bit. Doubles are modelled as exact reals, and `%f` keeps six decimals. Binary floating point is not modelled.
- Tuneables.Tuneable.UserChanged: the slider and toggle handlers (`onSliderEvent`, `onToggleEvent`, tuneable.h:158-159) have no body in the source. The model takes their effect from the documentation at tuneable.h:180-188 and 205-211: the control offers only values within [min, max], so a change outside the range is not modelled.
- LabelledData.AddSample: models GRT's width test. The column count is that of the first row (0 for no rows), and every row must have the dataset's width. GRT's own checks inside its matrix type are not modelled beyond this. In particular, `sample_data_.push_back` in `update` (ofApp.cpp:217) refuses a row whose width differs from the buffer's, while the model appends every row; the two differ only if the stream's width changes during a recording, and the model then refuses the whole recording at release where GRT would have dropped the short rows.
- SessionApp.TrainCommand: takes the pipeline to be trained after 't' exactly when `train` reported success, that is, that `getTrained()` at ofApp.cpp:220 returns what `train` returned at line 437. This is GRT's behaviour and is not visible in the source.
- LabelledData.SetNumDimensions: its clear-and-resize behaviour is GRT's; the library is not part of this model.
- Training.DefaultMessages: the default message texts are defined outside the header. They are parameters, assumed distinct only where a lemma says so.
- Training.CheckerSlot.constructor: that no checker is registered before the first call is an assumption, since the slot's definition is not part of this model. Where `ofApp` consults the checker is not modelled either.
- Colors.Palette.DoGenerate: `ofRandom`'s float is truncated into a channel; the model allows any channel value in [50, 255].
- `uint32_t` arithmetic in `setup` and `Palette` cannot wrap at these sizes and is modelled with unbounded naturals.
- The mouse, window and message handlers have empty bodies.

## Findings

| source | as written | input that shows it | evidently intended | confidence | as-written member | corrected member |
|---|---|---|---|---|---|---|
| Xcode/SmartSensors/src/ofApp.cpp:210 | before handing a wide feature stage's output to its plot, `update` asserts that there is exactly one feature stage | a pipeline whose first feature stage has 40 outputs and whose second has 2: setup gives stage 0 its single plot, but the assertion fails because there are two stages | the wide stage has exactly one plot, as setup's comment at line 115 says | medium, not executed | SessionApp.WideStageCheckAsWrittenRejectsTwoStages | SessionApp.WideStageCheckHolds |
