# Rocket League winner prediction: a Dafny model of the feature and decoding pipeline

This project models the integer- and string-level logic around the
Rocket League winner classifier. The classifier itself and the two label
encoders it is trained with are left opaque. Five pieces are modelled:

- **Label normalisation** (`Labels`): `normalize_team_color` and
  `normalize_winner`. Each is a lookup of the lower-cased input in a table of
  English and Spanish synonyms. Anything else falls back to Python's
  `str.capitalize()`, written out for ASCII in `Text`.
- **Serving-side feature assembly** (`Serving`, `Inference`):
  - `prepare_features` encodes the team colour, one-hots the game mode
    case-insensitively, and defaults a null competitive flag to 0. It then
    lays the row out in the classifier's declared order.
  - `predict_winner` decodes the predicted class, pairs every normalised
    class with its probability, and reports the largest probability. Any
    exception becomes an HTTP 500.
- **The synthetic generator** (`Synthetic`): `generate_synthetic` as a pure
  function of explicitly supplied random draws. It covers truncation,
  clamping, the overtime extension, mode pinning, the per-row pipeline and
  the summary (`value_counts`, `mean`, in `Counts`).
- **Historical feature derivation** (`History`): `create_features`. It covers
  right-closed binning of goal difference and duration, the competitiveness
  flag and the `team_mode` concatenation, on a table model (`Frames`).
- **The two offline scoring scripts** (`Scoring`, `Batch`, `Report`):
  - `reconstruct_game_mode`;
  - team-colour decoding;
  - the required-column defaults;
  - the fixed or declared feature list;
  - the row-wise maximum probability;
  - the real-winner fallback, the lower-casing and the accuracy.

The training script's feature list and its order-preserving availability
filter are in `Training`. `Parity` ties them to the serving and batch
layouts.

Every operation is a function returning `Result` (see `Wrappers`, `Errors`)
where the Python code can raise. Errors are therefore part of each contract,
not excluded by preconditions. The classifier is a datatype whose `predict`
field maps one feature row to a class code and a probability vector, or to a
raised exception. `WellBehaved` states what the artifacts promise
(tests/test_model.py): a valid code and one probability in [0, 1] per class.
Lemmas use it as a hypothesis; the operations do not.

Behaviour of the code worth knowing, modelled as the code does it:

- The generator truncates its normal draws toward zero with `int()`
  (`Synthetic.Trunc`, `Synthetic.TruncIsNotRounding`).
- The generator's mode filter is an exact, case-sensitive membership test.
  Feature assembly matches modes case-insensitively
  (`Synthetic.FilterIsCaseSensitive`).
- Unknown labels are passed through `capitalize()`, which lower-cases
  everything after the first character: "dark BLUE" becomes "Dark blue"
  (`Labels.UnknownColorsAreCapitalized`).
- A predicted label is one of Blue, Orange and Draw only when every outcome
  class is a synonym of one of them (`Inference.PredictionIsCanonical`).
  Otherwise the capitalised class name is passed through.
- The batch script's "Blue" default for a missing team colour never reaches
  its output. Without `team_color_encoded` the feature selection raises
  first (`Batch.BatchNeedsEncodedColour`).
- `generate_synthetic` fails for every `n_matches <= 0`:
  - a negative count makes the random mode choice raise;
  - an empty table has no `predicted_winner` column to count.

## Model

| member | source | states |
|---|---|---|
| Labels.NormalizeTeamColor | api/main.py:88-94 | the result is Blue exactly for the lower-case synonyms blue/azul/b, Orange exactly for orange/naranja/o, and otherwise the input capitalised |
| Labels.NormalizeWinner | api/main.py:96-103 | Blue, Orange and Draw exactly for their lower-case synonym sets (draw/empate/tie for Draw); otherwise the input capitalised |
| Labels.NormalizeDependsOnlyOnLower | api/main.py:88-103 | inputs with the same lower-case form normalise alike, for both functions |
| Labels.NormalizeTeamColorIdempotent | api/main.py:88-94 | normalising a normalised colour changes nothing |
| Labels.NormalizeWinnerIdempotent | api/main.py:96-103 | normalising a normalised outcome changes nothing |
| Labels.WinnerExtendsTeamColor | api/main.py:88-103 | the outcome normalisation agrees with the colour normalisation except on the draw synonyms, which it maps to Draw and the colour one capitalises |
| Labels.UnknownColorsAreCapitalized | api/main.py:94 | "purple" gives "Purple", "dark BLUE" gives "Dark blue", "AZUL" gives "Blue", "Empate" gives "Draw" |
| Text.Lower | api/main.py:94 | `str.lower()` on ASCII: same length, each letter mapped to lower case |
| Text.Capitalize | api/main.py:94 | `str.capitalize()`: first character upper-cased, the rest lower-cased |
| Text.LowerIsLowerCase | src/generate_predictions_with_winner.py:104-105 | a lower-cased string has no upper-case letter and lower-casing it again changes nothing |
| Text.LowerOfCapitalize | api/main.py:94 | lower-casing forgets what capitalisation did |
| Text.CapitalizeOfLower | api/main.py:94 | capitalising depends only on the lower-case form |
| Text.CapitalizeIdempotent | api/main.py:94 | capitalising twice equals capitalising once |
| Text.CapitalizeRespectsLower | api/main.py:94 | strings with the same lower-case form capitalise alike |
| Encoder.Transform | api/main.py:112 | `transform` succeeds exactly for a fitted label and returns its position; an unseen label is an error naming it |
| Encoder.InverseTransform | api/main.py:173 | `inverse_transform` succeeds exactly for a code within the classes and returns the class at that position; otherwise an invalid-code error |
| Encoder.DecodeEncode | api/main.py:112 | decoding the code of a known label gives the label back |
| Encoder.EncodeDecode | api/main.py:173 | for an encoder with distinct classes, encoding the label of a valid code gives the code back |
| Modes.Indicators | api/main.py:115-117 | each indicator is 0 or 1 and is 1 exactly when the lower-cased mode equals that mode's name; at most one is set; exactly one is set iff the mode is recognised |
| Modes.Reconstruct | src/batch_predictions.py:23-30 | the result is a mode name or Unknown; Duel iff the Duel cell is 1; Doubles iff the Duel cell is not 1 and the Doubles cell is; Standard iff neither earlier cell is 1 and the Standard cell is; Unknown iff no cell is 1 (cells of any kind, missing values included) |
| Modes.ReconstructPriority | src/batch_predictions.py:24-29 | with several indicators set, Duel beats Doubles beats Standard |
| Modes.ReconstructIndicators | src/batch_predictions.py:23-30 | round trip with the API's one-hot: any casing of a canonical mode decodes to the capitalised mode, anything else to Unknown |
| Modes.ReconstructCanonical | src/generate_predictions_with_winner.py:41-49 | every canonical mode name survives the one-hot round trip unchanged |
| Serving.FeatureValue | api/main.py:120-129 | the encoded colour, the goal difference and duration verbatim, the three mode indicators, a null competitive flag as 0, and overtime as 1 exactly when true |
| Serving.ParseFeature | api/main.py:120-129 | a column name denotes a feature exactly when it is one of the eight built names, and then that feature's name is the column name |
| Serving.ParseFeatureName | api/main.py:120-129 | every feature is found again under its own column name |
| Serving.ConstructionOrderNames | api/main.py:120-129 | the eight construction-order names are distinct and are the names of all eight features in order |
| Serving.ModeFeaturesOneHot | api/main.py:115-117 | the three mode features sum to at most 1, and to exactly 1 iff the mode is recognised |
| Serving.SelectFeatures | api/main.py:133-135 | `df[names]` on the one-row frame succeeds iff every name was built; each value is the named feature's value; a missing name is a missing-column error |
| Serving.PrepareFeatures | api/main.py:105-137 | an unknown normalised colour is an unseen-label error, and only then; success iff the colour is known and every declared name was built; the columns are the declared names or else construction order; every value is its column's feature value |
| Serving.NullCompetitiveIsZero | api/main.py:127 | a null competitive flag prepares exactly the same row as 0 |
| Serving.SameFeaturesSameSelection | api/main.py:120-135 | two matches with the same feature values select the same row |
| Serving.PreparedEntry | api/main.py:120-131 | without declared names the row is in construction order and entry j is the j-th feature |
| Serving.UnknownModeGivesZeros | api/main.py:115-117 | an unrecognised mode is no error and sets all three mode columns to 0 |
| Classifier.Classify | api/main.py:169-170 | the classifier's reply for a row, or a classifier error exactly when it raises |
| Classifier.MaxProb | api/main.py:183 | the result is one of the probabilities and at least every one of them |
| Classifier.Confidence | api/main.py:183 | `max(probabilities)` succeeds exactly on a non-empty vector and is then its maximum |
| Classifier.ConfidenceInUnitInterval | api/main.py:183 | probabilities in [0, 1] give a confidence in [0, 1] |
| Inference.NormalizedClasses | api/main.py:177 | the outcome classes, each normalised, in encoder order |
| Inference.ProbabilityMap | api/main.py:178 | the map's keys are exactly the labels |
| Inference.ProbabilityMapLast | api/main.py:178 | a label is paired with the probability at its last occurrence (later dictionary entries overwrite earlier ones) |
| Inference.ProbabilityMapDistinct | api/main.py:178 | with distinct normalised labels the i-th label maps to the i-th probability |
| Inference.DecodeReply | api/main.py:173-193 | success iff the code decodes and there is a probability per class; the label is the normalised decode; the confidence is the largest probability; the map covers the normalised classes; the input is echoed |
| Inference.PredictOne | api/main.py:164-193 | a feature-assembly failure is the request's failure; after assembly a raising classifier is a classifier error, and otherwise the result is exactly the decoding of its reply, failures included |
| Inference.PredictWinner | api/main.py:158-196 | any failure is HTTP 500 with detail starting "Error en predicción: ", and only a failure is |
| Inference.UnknownTeamColorFails | api/main.py:158-196 | an unknown team colour is HTTP 500 naming the normalised colour |
| Inference.PredictWinnerSucceeds | api/main.py:164-193 | a known colour and a well-behaved classifier give a prediction whose label is a normalised class, whose confidence is in [0, 1], and whose map pairs class i with probability i when the classes are distinct |
| Inference.PredictionIsCanonical | api/main.py:173-174 | if every outcome class is a synonym of Blue, Orange or Draw, so is every prediction |
| Synthetic.Trunc | api/main.py:223-226 | `int()` of a float truncates toward zero |
| Synthetic.TruncIsNotRounding | api/main.py:223-226 | 2.7 gives 2, -2.7 gives -2 and -0.5 gives 0 |
| Synthetic.Clamp | api/main.py:224-227 | the result is in [lo, hi], equals x inside the range and the nearer bound outside it |
| Synthetic.SampleMatch | api/main.py:223-243 | goal difference in [-10, 10]; overtime iff the roll is below 0.2; duration in [180, 600] without overtime and [210, 719] with it (the overtime extension is drawn from [30, 120) and truncated); competitive flag 1 iff its roll is below 0.7, else 0; colour Blue or Orange; mode as given |
| Synthetic.SampleKeepsModerateNoise | api/main.py:223-224 | a goal draw whose truncation is within the clamp range is kept as truncated |
| Synthetic.ModeAt | api/main.py:215-218 | a pinned filter gives every row that mode; otherwise each row gets its drawn mode; always a canonical mode |
| Synthetic.FilterIsCaseSensitive | api/main.py:215-218 | "standard" and "DUEL" do not pin the mode though feature assembly recognises them; empty or absent filters do not pin; every canonical name pins |
| Synthetic.GenerateRow | api/main.py:246-260 | a feature failure is the row's failure; after assembly the row succeeds iff the classifier replies with a valid code and a non-empty probability vector, and otherwise fails with a classifier error, an invalid-code error or an empty-probabilities error, in that order; a row's label is the lower-cased normalised decode of the code and its confidence the largest probability |
| Synthetic.Collect | api/main.py:222-260 | a loop whose iterations each succeed or raise yields every iteration's value in order iff all succeed, and otherwise the error of the first iteration that raised, every earlier one having succeeded |
| Synthetic.GenerateRows | api/main.py:222-260 | success iff every row succeeds; row i is the i-th generated row; a failure is the first failing row's error, every earlier row having succeeded |
| Synthetic.GenerateTable | api/main.py:215-263 | a negative count without a pinned filter is a negative-count error; any other count of at most 0 is an empty-output error; a positive count generates that many rows |
| Synthetic.GenerateSynthetic | api/main.py:198-289 | a failure is HTTP 500 with the endpoint's prefix; success iff the table is generated; `total_matches` is n and the row count; the filter is echoed; counts and mean are taken over the rows' labels and confidences |
| Synthetic.GeneratedRowsInBounds | api/main.py:223-234 | every returned row has goal difference, duration, competitive flag and colour in the sample bounds and a lower-case label |
| Synthetic.SummaryCountsAddUp | api/main.py:269-281 | the per-label counts sum to `total_matches`, and the counted labels are exactly the predicted ones |
| Synthetic.AverageConfidenceInUnitInterval | api/main.py:270-282 | with a well-behaved classifier the average confidence lies in [0, 1] |
| Synthetic.GenerateRowSucceeds | api/main.py:246-260 | a Blue or Orange match, both colours known to the encoder, a well-behaved classifier and buildable declared names give a row |
| Synthetic.GenerateSyntheticSucceeds | api/main.py:198-285 | under the same conditions and a positive count, the endpoint succeeds |
| Counts.Bump | api/main.py:269 | counting one more label increments its entry or appends a new one with count 1; keys stay distinct |
| Counts.BumpTotal | api/main.py:269 | counting one more label raises the total by one |
| Counts.ValueCountsEntries | api/main.py:269 | a label has an entry iff it occurs, and each entry's count is its number of occurrences |
| Counts.ValueCountsTotal | api/main.py:269 | the counts sum to the number of labels |
| Counts.MeanBounds | api/main.py:270 | the mean of a non-empty column lies between any bounds of its values |
| History.CutIndexBin | src/features.py:7-18 | `pd.cut` with right-closed bins: the value is above the previous edge and at most the next |
| History.CutIndexMonotone | src/features.py:7-18 | a larger value never falls in an earlier bin |
| History.GoalDiffCategory | src/features.py:7-11 | large_loss iff d <= -3, small_loss iff -3 < d <= -1, close iff -1 < d <= 1, small_win iff 1 < d <= 3, large_win iff d > 3 |
| History.CategoryAsymmetry | src/features.py:7-11 | -1 is small_loss but 1 is close; -3 is large_loss but 3 is small_win |
| History.CategoryMonotone | src/features.py:7-11 | the category never decreases along large_loss < small_loss < close < small_win < large_win |
| History.DurationBucket | src/features.py:14-18 | no bucket iff t <= 0; short on (0, 300], normal on (300, 360], long on (360, 420], very_long above 420 |
| History.Competitive | src/features.py:21 | 1 iff abs(d) <= 2, else 0 |
| History.CompetitiveVersusCategory | src/features.py:7-21 | a competitive match is small_loss, close or small_win; a close one is always competitive; a large margin never is |
| History.TeamMode | src/features.py:24 | the colour, one underscore, then the mode |
| History.TeamModeInjective | src/features.py:24 | for colours without an underscore the combined string determines colour and mode |
| History.ProcessingError | src/features.py:4-24 | no error iff the four source columns exist with usable cells; otherwise a missing-column or type error; a non-empty `team_color` column with no string (all missing, so read as floats) is a type error |
| History.AllMissingColourFails | src/features.py:24 | a non-empty table whose `team_color` cells are all missing fails with a type error on that column |
| History.AllMissingModeIsProcessable | src/features.py:24 | an all-missing `game_mode` column does not raise; every `team_mode` cell is then missing |
| History.WriteDerivedColumns | src/features.py:7-24 | the four assignments keep the old columns as a prefix and add at most the four derived ones |
| History.WriteDerivedCell | src/features.py:7-24 | after the four assignments a derived column holds its new cells and every other column is unchanged |
| History.CreateFeatures | src/features.py:4-26 | a failure is the first exception the statements meet; a success keeps the row count |
| History.CreateFeaturesPreserves | src/features.py:4-26 | row count and every original column kept, original columns first, only the four derived columns added or overwritten, other cells unchanged |
| History.CreateFeaturesCells | src/features.py:7-24 | each derived cell of a row is computed from that row's source cells |
| History.CreateFeaturesRow | src/features.py:7-24 | the derived cells of a row in terms of its values: category name, competitive flag (a missing goal difference gives a missing category and 0), bucket or missing, and colour_mode |
| Frames.SetColumn | src/batch_predictions.py:32-37 | column assignment replaces an existing column's cells in place or appends the column; other columns unchanged |
| Frames.SetConstant | src/batch_predictions.py:39-51 | assigning a scalar sets every cell of the column to it |
| Frames.CellOr | src/batch_predictions.py:24-28 | `row.get(name, default)`: the cell when the column exists, else the default |
| Frames.FirstMissing | src/batch_predictions.py:71 | none iff every name is a column; otherwise a name that is not |
| Frames.Select | src/batch_predictions.py:71 | `df[names]` succeeds iff every name is a column; the result has those columns in that order and the named cells of every row; a failure names a missing column |
| Scoring.WithGameMode | src/batch_predictions.py:32 | every row's `game_mode` is the reconstructed mode with absent indicators read as 0; other columns unchanged |
| Scoring.AsCodes | src/batch_predictions.py:37 | `astype(int)` succeeds iff every cell is an integer and then yields those integers |
| Scoring.DecodeAll | src/batch_predictions.py:79 | vectorised `inverse_transform` succeeds iff every code is valid, decoding each; a failure names an invalid code |
| Scoring.DecodeColumn | src/batch_predictions.py:37 | decoding a column succeeds iff every cell is a valid integer code; each row gets its class; a non-integer cell is a type error and a bad code an invalid-code error |
| Scoring.ClassifyAll | src/batch_predictions.py:75-76 | one reply per row iff there are rows and no row raises; an empty table and a raising row are distinct errors |
| Scoring.RowMaxima | src/batch_predictions.py:90 | each row's value is one of its probabilities and at least all of them; an empty row is an error |
| Scoring.RowMaximaInUnitInterval | src/batch_predictions.py:90 | valid replies give row maxima in [0, 1] |
| Batch.WithTeamColor | src/batch_predictions.py:36-39 | with `team_color_encoded` the colour is decoded (failing as decoding does); otherwise an existing `team_color` is kept or "Blue" filled in; other columns unchanged |
| Batch.Fill | src/batch_predictions.py:43-51 | a missing column is filled with its default (300 for `match_duration`, else 0); a present one is untouched |
| Batch.WithDefaults | src/batch_predictions.py:42-51 | afterwards the columns are the old ones plus the three required ones |
| Batch.WithDefaultsCell | src/batch_predictions.py:42-51 | a required column reads its default where it was missing; every other column is untouched |
| Batch.Prepare | src/batch_predictions.py:32-51 | the prepared columns are the input's plus `game_mode`, `team_color` and the three required ones |
| Batch.PreparedGameMode | src/batch_predictions.py:23-32 | the prepared `game_mode` is the row's reconstructed mode |
| Batch.PreparedTeamColor | src/batch_predictions.py:36-37 | with `team_color_encoded` the prepared colour is its decoded class |
| Batch.PreparedRequired | src/batch_predictions.py:42-51 | a required column reads the input cell, or its default where the column was missing |
| Batch.PreparedOther | src/batch_predictions.py:32-51 | any other input column is unchanged |
| Batch.OutputRows | src/batch_predictions.py:82-91 | one output row per table row, copying the six columns and adding the label and confidence |
| Batch.Score | src/batch_predictions.py:71-91 | a scored table has one row per prepared row and at least one row |
| Batch.RunBatch | src/batch_predictions.py:19-91 | a successful run has one output row per input row and at least one row |
| Batch.BatchFeatures | src/batch_predictions.py:60-71 | the classifier's input for a row is the fixed eight columns in order |
| Batch.SelectedRow | src/batch_predictions.py:60-71 | row i of the feature matrix is the row's eight features read off the input, required columns defaulted |
| Batch.ScoreRowCells | src/batch_predictions.py:82-88 | each scored row copies its six columns from the prepared table |
| Batch.ScoreRowPrediction | src/batch_predictions.py:75-90 | each scored row's label is the decoded class of its selected row and its confidence that row's largest probability |
| Batch.ScoreSucceeds | src/batch_predictions.py:71-91 | a prepared table with rows, all eight features and valid replies is scored |
| Batch.BatchRowPrediction | src/batch_predictions.py:71-90 | each output row's label is the raw class the classifier predicts for the row's eight features, and its confidence the largest of their probabilities |
| Batch.BatchRowColumns | src/batch_predictions.py:23-84 | each output row has the decoded team colour and the reconstructed mode |
| Batch.BatchRowDefaults | src/batch_predictions.py:42-88 | each output row has the required columns with their defaults and the competitive flag as it was |
| Batch.BatchRowCells | src/batch_predictions.py:82-91 | each output row copies its six cells from the prepared table; a successful run implies the input had `team_color_encoded` and `is_competitive` |
| Batch.BatchNeedsEncodedColour | src/batch_predictions.py:36-71 | without `team_color_encoded` the run fails on that missing column, so the Blue default never reaches the output |
| Batch.BatchSucceeds | src/batch_predictions.py:19-91 | rows, every feature present or defaulted, valid colour codes and valid replies make the run succeed |
| Batch.PrepareSucceeds | src/batch_predictions.py:32-51 | valid colour codes in every row make the preparation succeed |
| Batch.BatchModeRoundTrip | src/batch_predictions.py:23-32 | a row carrying the API's indicators for a mode comes out with that mode capitalised, or Unknown |
| Report.WithEncodedTeamColor | src/generate_predictions_with_winner.py:56-57 | the colour is decoded only when `team_color_encoded` exists; there is no default |
| Report.DeclaredNames | src/generate_predictions_with_winner.py:62 | `feature_names_in_` succeeds iff the artifact declares names |
| Report.OutputRows | src/generate_predictions_with_winner.py:91-105 | one row per table row: six copied columns, both labels lower-cased, and the confidence |
| Report.Agreements | src/generate_predictions_with_winner.py:123 | at most the row count, and equal to it iff every row agrees |
| Report.AgreementsCountsRows | src/generate_predictions_with_winner.py:123 | the count equals the number of row positions whose real and predicted labels agree |
| Report.Accuracy | src/generate_predictions_with_winner.py:123 | the number of agreeing row positions divided by the number of rows; hence in [0, 1], and 1 iff every row's real and predicted labels agree |
| Report.Rebuild | src/generate_predictions_with_winner.py:51-57 | the working table keeps the row count |
| Report.RebuiltCell | src/generate_predictions_with_winner.py:51-57 | rebuilding keeps every input column other than `game_mode` and `team_color` |
| Report.ScoreTable | src/generate_predictions_with_winner.py:62-105 | no declared names is a failure; success has one row per table row and accuracy computed from the rows |
| Report.RunReport | src/generate_predictions_with_winner.py:41-123 | no declared names is a failure; success has one row per input row, at least one, and the rows' accuracy |
| Report.ScoreTableRowCells | src/generate_predictions_with_winner.py:91-97 | each scored row copies its six columns from the working table |
| Report.ScoreTableRowPrediction | src/generate_predictions_with_winner.py:68-105 | each scored row's prediction is the lower-cased decode of its selected row's code, with that row's largest probability |
| Report.ScoreTableRowWinner | src/generate_predictions_with_winner.py:81-105 | the real label is the decoded `winner_encoded` or else the prediction; both lower case |
| Report.ReportSelectedRow | src/generate_predictions_with_winner.py:62-63 | the feature matrix row is the declared features, in declared order, read off the input |
| Report.ReportRowPrediction | src/generate_predictions_with_winner.py:62-105 | each output row's prediction is the class the classifier gives the row's declared features, lower-cased, with its largest probability |
| Report.ReportRowWinner | src/generate_predictions_with_winner.py:81-105 | the real label is the decoded `winner_encoded` when present, else the prediction; both lower case |
| Report.ReportFallbackAccuracy | src/generate_predictions_with_winner.py:81-123 | without `winner_encoded` the accuracy is 1 |
| Report.ReportRowIs | src/generate_predictions_with_winner.py:91-101 | each output row's six copied fields are the working table's cells |
| Report.ReportRowModeAndColour | src/generate_predictions_with_winner.py:41-93 | the mode is the reconstructed one; the colour is decoded from `team_color_encoded` or else the input's own |
| Report.ReportRowCopies | src/generate_predictions_with_winner.py:94-97 | the four other copied columns must be in the input and are copied as they are |
| Report.ReportModeRoundTrip | src/generate_predictions_with_winner.py:41-51 | a row carrying the API's indicators for a mode comes out with that mode capitalised, or Unknown |
| Training.DeclaredFeaturesDistinct | src/train_model.py:11-20 | eight distinct declared features |
| Training.KeepAvailable | src/train_model.py:23 | a name is kept iff it is declared and available |
| Training.KeepAvailableIsSubsequence | src/train_model.py:23 | the filter keeps the declared relative order |
| Training.KeepAllAvailable | src/train_model.py:23 | with every name available the filter returns the declared list |
| Training.KeepAvailableDistinct | src/train_model.py:23 | the kept names stay distinct |
| Parity.Trained | src/train_model.py:11-23 | the fitted classifier declares exactly the available declared features, in declared order |
| Parity.FeatureListsAgree | src/train_model.py:11-20 | the training list, the API's construction order and the batch list are one list of distinct names |
| Parity.TrainedOnEveryFeature | src/train_model.py:11-23 | trained on every declared column, the classifier declares the API's construction order |
| Parity.ServedRowIsAccepted | api/main.py:133-135 | for any training columns, the API's row for a known colour is laid out exactly as the trained classifier declares |
| Parity.BatchRowAcceptedIffFullTraining | src/batch_predictions.py:60-71 | a trained classifier accepts the batch script's eight columns iff training saw every declared column |

## Left out

- HTTP routing, request validation and the `/` and `/stats` endpoints: framework glue and float aggregates over a CSV.
- Loading the classifier and encoders, CSV reads and writes, directory creation and all printing: these are I/O. Encoders and the classifier are parameters, and the `file_path` of the synthetic response is not modelled.
- Classifier internals, fitting and metrics, and how label encoders are fitted: library behaviour that cannot be seen. An encoder is a sequence of classes.
- Random number generation: seeding from the clock, and the normal, uniform and choice draws. Each row's draws are a `Draw` record supplied by the caller; `InRange` states the ranges the distributions produce.
- Floating point: probabilities, confidences and means are `real`. Formatting of percentages is not modelled.
- Library error messages: the text after "Error en predicción: " and "Error al generar datos sintéticos: " is a fixed description per error kind, not the library's message.
- Text.Lower: ASCII case mapping only; Python's Unicode case mapping of other letters is not modelled.
- Scoring.AsCodes: `astype(int)` of floats or numeric strings is not modelled; a non-integer cell is a type error.
- Counts.ValueCounts: the entries are in order of first appearance; pandas orders them by count, which the summary's dictionary does not depend on.
- Inference.DecodeReply: the duplicate `winner_prediction` field of the response carries the same label as `predicted_winner` and is represented once.
- Scoring.ClassifyAll: pandas `apply` on an empty table and the classifier's own rejection of zero rows are both represented as the empty-input error at the classifier.
- History.CreateFeatures: floating-point goal differences and durations, and `pd.cut`'s categorical dtype, are not modelled; cells are integers, strings or missing.
- Frames.Value: booleans and floats are not separate cell kinds. An indicator read back as `True` or `1.0` is modelled as the integer 1, which agrees with the scripts' `== 1` tests; a fractional float cell has no counterpart.
- Batch.Prepare: the mutation order of the script's data frame is modelled as a sequence of pure frame updates.
- The dashboard, the cleaning, exploration and encoding scripts, and the tests are not part of this model.
