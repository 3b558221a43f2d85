/**
 * The batch scoring script (`batch_predictions.py`): rebuild `game_mode`
 * and `team_color` in the processed table, fill the required columns that
 * are missing, score every row on the fixed eight-feature list, and emit
 * one output row per input row with the raw predicted class and the
 * row's largest probability.
 */
module Batch {
  import opened Wrappers
  import opened Errors
  import opened Text
  import opened Frames
  import opened Encoder
  import opened Modes
  import opened Classifier
  import opened Scoring

  /** The feature list the script scores with, in its order. */
  const FeatureColumns: seq<string> := [
    "team_color_encoded",
    "goal_difference",
    "match_duration",
    "mode_Duel",
    "mode_Doubles",
    "mode_Standard",
    "is_competitive",
    "overtime"
  ]

  /** The columns filled with a default when missing, and their defaults. */
  predicate Required(name: string) {
    name == "goal_difference" || name == "match_duration" || name == "overtime"
  }

  function DefaultFor(name: string): Value {
    if name == "match_duration" then Int(300) else Int(0)
  }

  /**
   * The team colour: decoded from `team_color_encoded` when that column
   * exists; otherwise an existing `team_color` is kept, or "Blue" filled in.
   */
  function WithTeamColor(f: Frame, e: LabelEncoder): (r: Result<Frame, Error>)
    requires WellFormed(f)
    ensures "team_color_encoded" in f.columns ==> (r.Success? <==> DecodeColumn(e, f, "team_color_encoded").Success?)
    ensures "team_color_encoded" in f.columns && r.Failure? ==> r == Failure(DecodeColumn(e, f, "team_color_encoded").error)
    ensures "team_color_encoded" !in f.columns ==> r.Success?
    ensures r.Success? ==> WellFormed(r.value) && |r.value.rows| == |f.rows|
    ensures r.Success? ==> r.value.columns == if "team_color" in f.columns then f.columns else f.columns + ["team_color"]
    ensures r.Success? ==> forall i :: 0 <= i < |f.rows| ==>
      Cell(r.value, i, "team_color") ==
        if "team_color_encoded" in f.columns then Str(e.classes[Cell(f, i, "team_color_encoded").i])
        else CellOr(f, i, "team_color", Str("Blue"))
    ensures r.Success? ==> forall i, c :: 0 <= i < |f.rows| && c in f.columns && c != "team_color" ==> Cell(r.value, i, c) == Cell(f, i, c)
  {
    if "team_color_encoded" in f.columns then
      var labels :- DecodeColumn(e, f, "team_color_encoded");
      Success(SetColumn(f, "team_color", Strs(labels)))
    else if "team_color" !in f.columns then
      Success(SetConstant(f, "team_color", Str("Blue")))
    else
      Success(f)
  }

  /** `if col not in df.columns: df[col] = default` */
  function Fill(f: Frame, name: string): (r: Frame)
    requires WellFormed(f)
    ensures WellFormed(r) && |r.rows| == |f.rows|
    ensures r.columns == if name in f.columns then f.columns else f.columns + [name]
    ensures forall i :: 0 <= i < |f.rows| ==> Cell(r, i, name) == CellOr(f, i, name, DefaultFor(name))
    ensures forall i, c :: 0 <= i < |f.rows| && c in f.columns && c != name ==> Cell(r, i, c) == Cell(f, i, c)
  {
    if name in f.columns then f else SetConstant(f, name, DefaultFor(name))
  }

  /** The three required columns, filled in the script's order. */
  function WithDefaults(f: Frame): (r: Frame)
    requires WellFormed(f)
    ensures WellFormed(r) && |r.rows| == |f.rows|
    ensures forall c :: c in r.columns <==> c in f.columns || Required(c)
  {
    var a := Fill(f, "goal_difference");
    var b := Fill(a, "match_duration");
    Fill(b, "overtime")
  }

  /** A required column reads its default where it was missing; every other column is untouched. */
  lemma WithDefaultsCell(f: Frame, i: nat, c: string)
    requires WellFormed(f) && i < |f.rows|
    requires c in f.columns || Required(c)
    ensures Required(c) ==> Cell(WithDefaults(f), i, c) == CellOr(f, i, c, DefaultFor(c))
    ensures !Required(c) ==> Cell(WithDefaults(f), i, c) == Cell(f, i, c)
  {
    var a := Fill(f, "goal_difference");
    var b := Fill(a, "match_duration");
    var r := Fill(b, "overtime");
    assert r == WithDefaults(f);
    if c == "overtime" {
      assert c in b.columns <==> c in f.columns;
      if c in f.columns {
        assert Cell(b, i, c) == Cell(a, i, c) == Cell(f, i, c);
      }
    } else if c == "match_duration" {
      assert Cell(r, i, c) == Cell(b, i, c);
      assert c in a.columns <==> c in f.columns;
      if c in f.columns {
        assert Cell(a, i, c) == Cell(f, i, c);
      }
    } else if c == "goal_difference" {
      assert Cell(r, i, c) == Cell(b, i, c) == Cell(a, i, c);
    } else {
      assert Cell(r, i, c) == Cell(b, i, c) == Cell(a, i, c) == Cell(f, i, c);
    }
  }

  /** The table as it stands when the features are selected. */
  function Prepare(df: Frame, teamEncoder: LabelEncoder): (r: Result<Frame, Error>)
    requires WellFormed(df)
    ensures r.Success? ==> WellFormed(r.value) && |r.value.rows| == |df.rows|
    ensures r.Success? ==> "game_mode" in r.value.columns && "team_color" in r.value.columns
    ensures r.Success? ==> forall c :: c in r.value.columns <==> c in df.columns || c == "game_mode" || c == "team_color" || Required(c)
  {
    var g := WithGameMode(df);
    assert forall c :: c in g.columns <==> c in df.columns || c == "game_mode";
    var t :- WithTeamColor(g, teamEncoder);
    assert forall c :: c in t.columns <==> c in g.columns || c == "team_color";
    Success(WithDefaults(t))
  }

  /** One row of `model_predictions.csv`. */
  datatype BatchRow = BatchRow(
    teamColor: Value,
    gameMode: Value,
    goalDifference: Value,
    matchDuration: Value,
    overtime: Value,
    isCompetitive: Value,
    predictedWinner: string,
    confidence: real)

  /** The columns the output table copies. */
  predicate HasOutputColumns(p: Frame) {
    && "team_color" in p.columns && "game_mode" in p.columns && "is_competitive" in p.columns
    && "goal_difference" in p.columns && "match_duration" in p.columns && "overtime" in p.columns
  }

  function OutputRows(p: Frame, winners: seq<string>, confidences: seq<real>): (out: seq<BatchRow>)
    requires WellFormed(p) && HasOutputColumns(p)
    requires |winners| == |confidences| == |p.rows|
    ensures |out| == |p.rows|
    ensures forall i :: 0 <= i < |p.rows| ==>
      out[i] == BatchRow(Cell(p, i, "team_color"), Cell(p, i, "game_mode"), Cell(p, i, "goal_difference"),
                         Cell(p, i, "match_duration"), Cell(p, i, "overtime"), Cell(p, i, "is_competitive"),
                           winners[i], confidences[i])
  {
    seq(|p.rows|, i requires 0 <= i < |p.rows| =>
      BatchRow(Cell(p, i, "team_color"), Cell(p, i, "game_mode"), Cell(p, i, "goal_difference"),
               Cell(p, i, "match_duration"), Cell(p, i, "overtime"), Cell(p, i, "is_competitive"),
               winners[i], confidences[i]))
  }

  /** The prepared columns the scoring step relies on. */
  predicate Prepared(p: Frame) {
    && WellFormed(p) && "team_color" in p.columns && "game_mode" in p.columns
    && "goal_difference" in p.columns && "match_duration" in p.columns && "overtime" in p.columns
  }

  /** Scoring a prepared table: select the eight features, classify, decode, take the row maxima. */
  function Score(p: Frame, winnerEncoder: LabelEncoder, model: Model): (r: Result<seq<BatchRow>, Error>)
    requires Prepared(p)
    ensures r.Success? ==> |r.value| == |p.rows| > 0
  {
    var x :- Select(p, FeatureColumns);
    var replies :- ClassifyAll(model, Samples(x));
    var winners :- DecodeAll(winnerEncoder, Codes(replies));
    var confidences :- RowMaxima(replies);
    assert "is_competitive" in p.columns by { assert FeatureColumns[6] == "is_competitive"; }
    Success(OutputRows(p, winners, confidences))
  }

  /** The script: score every row of the processed table. */
  function RunBatch(df: Frame, teamEncoder: LabelEncoder, winnerEncoder: LabelEncoder, model: Model): (r: Result<seq<BatchRow>, Error>)
    requires WellFormed(df)
    ensures r.Success? ==> |r.value| == |df.rows| > 0
  {
    var p :- Prepare(df, teamEncoder);
    Score(p, winnerEncoder, model)
  }

  /** Every feature column is in the table, or is one the script fills with a default. */
  predicate Scorable(df: Frame) {
    WellFormed(df) && forall c :: c in FeatureColumns ==> c in df.columns || Required(c)
  }

  /** What the script feeds the classifier for one feature of row `i` of the input table. */
  function FeatureCell(df: Frame, i: nat, name: string): Value
    requires WellFormed(df) && i < |df.rows| && (name in df.columns || Required(name))
  {
    if Required(name) then CellOr(df, i, name, DefaultFor(name)) else Cell(df, i, name)
  }

  /** The classifier's input for row `i`, read off the input table. */
  function BatchFeatures(df: Frame, i: nat): (s: Sample)
    requires Scorable(df) && i < |df.rows|
    ensures s.columns == FeatureColumns && |s.values| == |FeatureColumns|
  {
    Sample(FeatureColumns, seq(|FeatureColumns|, j requires 0 <= j < |FeatureColumns| => FeatureCell(df, i, FeatureColumns[j])))
  }

  lemma FeatureColumnsAreInputs()
    ensures forall j :: 0 <= j < |FeatureColumns| ==> FeatureColumns[j] != "game_mode" && FeatureColumns[j] != "team_color"
    ensures Required("goal_difference") && Required("match_duration") && Required("overtime")
  {
  }

  /** The competitive flag is a plain input column: neither rebuilt nor defaulted. */
  lemma CompetitiveIsPlainInput()
    ensures "is_competitive" != "game_mode" && "is_competitive" != "team_color" && !Required("is_competitive")
  {
    assert "is_competitive"[0] != "match_duration"[0];
  }

  /** A column that is neither rebuilt nor defaulted is in the prepared table exactly when it is in the input. */
  lemma PreparedPlainColumn(df: Frame, e: LabelEncoder, c: string)
    requires WellFormed(df) && Prepare(df, e).Success?
    requires c != "game_mode" && c != "team_color" && !Required(c)
    ensures c in Prepare(df, e).value.columns <==> c in df.columns
  {
  }

  /** Setting a column other than `c` leaves `c`'s presence as it was. */
  lemma ColumnsAfterSet(before: seq<string>, name: string, after: seq<string>, c: string)
    requires after == if name in before then before else before + [name]
    requires c != name
    ensures c in after <==> c in before
  {
  }

  /** The prepared table is the input with the game mode and team colour set and the defaults filled. */
  lemma PrepareSteps(df: Frame, e: LabelEncoder)
    requires WellFormed(df) && Prepare(df, e).Success?
    ensures WithTeamColor(WithGameMode(df), e).Success?
    ensures Prepare(df, e).value == WithDefaults(WithTeamColor(WithGameMode(df), e).value)
  {
  }

  lemma PreparedGameMode(df: Frame, e: LabelEncoder, i: nat)
    requires WellFormed(df) && i < |df.rows| && Prepare(df, e).Success?
    ensures Cell(Prepare(df, e).value, i, "game_mode") == Str(RowMode(df, i))
  {
    PrepareSteps(df, e);
    var t := WithTeamColor(WithGameMode(df), e).value;
    WithDefaultsCell(t, i, "game_mode");
  }

  lemma PreparedTeamColor(df: Frame, e: LabelEncoder, i: nat)
    requires WellFormed(df) && i < |df.rows| && Prepare(df, e).Success?
    requires "team_color_encoded" in df.columns
    ensures Cell(df, i, "team_color_encoded").Int?
    ensures Cell(Prepare(df, e).value, i, "team_color") == Str(e.classes[Cell(df, i, "team_color_encoded").i])
  {
    PrepareSteps(df, e);
    var g := WithGameMode(df);
    var t := WithTeamColor(g, e).value;
    WithDefaultsCell(t, i, "team_color");
    assert Cell(g, i, "team_color_encoded") == Cell(df, i, "team_color_encoded");
  }

  lemma PreparedRequired(df: Frame, e: LabelEncoder, i: nat, c: string)
    requires WellFormed(df) && i < |df.rows| && Prepare(df, e).Success?
    requires Required(c)
    ensures Cell(Prepare(df, e).value, i, c) == CellOr(df, i, c, DefaultFor(c))
  {
    PrepareSteps(df, e);
    var g := WithGameMode(df);
    var t := WithTeamColor(g, e).value;
    WithDefaultsCell(t, i, c);
    assert c != "game_mode" && c != "team_color";
    ColumnsAfterSet(df.columns, "game_mode", g.columns, c);
    ColumnsAfterSet(g.columns, "team_color", t.columns, c);
    if c in df.columns {
      assert Cell(t, i, c) == Cell(g, i, c) == Cell(df, i, c);
    }
  }

  lemma PreparedOther(df: Frame, e: LabelEncoder, i: nat, c: string)
    requires WellFormed(df) && i < |df.rows| && Prepare(df, e).Success?
    requires c in df.columns && c != "game_mode" && c != "team_color" && !Required(c)
    ensures Cell(Prepare(df, e).value, i, c) == Cell(df, i, c)
  {
    PrepareSteps(df, e);
    var g := WithGameMode(df);
    var t := WithTeamColor(g, e).value;
    WithDefaultsCell(t, i, c);
    assert Cell(t, i, c) == Cell(g, i, c) == Cell(df, i, c);
  }

  /** A successful run scored the prepared table. */
  lemma RunBatchSteps(df: Frame, teamEncoder: LabelEncoder, winnerEncoder: LabelEncoder, model: Model)
    requires WellFormed(df) && RunBatch(df, teamEncoder, winnerEncoder, model).Success?
    ensures Prepare(df, teamEncoder).Success? && Prepared(Prepare(df, teamEncoder).value)
    ensures RunBatch(df, teamEncoder, winnerEncoder, model) == Score(Prepare(df, teamEncoder).value, winnerEncoder, model)
  {
  }

  /** The intermediate results of a successful scoring step. */
  lemma ScoreSteps(p: Frame, winnerEncoder: LabelEncoder, model: Model)
    requires Prepared(p) && Score(p, winnerEncoder, model).Success?
    ensures Select(p, FeatureColumns).Success?
    ensures var x := Select(p, FeatureColumns).value;
      && ClassifyAll(model, Samples(x)).Success?
      && var replies := ClassifyAll(model, Samples(x)).value;
      && DecodeAll(winnerEncoder, Codes(replies)).Success?
      && RowMaxima(replies).Success?
      && HasOutputColumns(p)
      && Score(p, winnerEncoder, model).value
         == OutputRows(p, DecodeAll(winnerEncoder, Codes(replies)).value, RowMaxima(replies).value)
  {
    assert "is_competitive" in p.columns by { assert FeatureColumns[6] == "is_competitive"; }
  }

  /** Each scored row copies its cells from the prepared table. */
  lemma ScoreRowCells(p: Frame, winnerEncoder: LabelEncoder, model: Model, i: nat)
    requires Prepared(p) && Score(p, winnerEncoder, model).Success? && i < |p.rows|
    ensures HasOutputColumns(p) && "team_color_encoded" in p.columns
    ensures var row := Score(p, winnerEncoder, model).value[i];
      && row.teamColor == Cell(p, i, "team_color") && row.gameMode == Cell(p, i, "game_mode")
      && row.goalDifference == Cell(p, i, "goal_difference") && row.matchDuration == Cell(p, i, "match_duration")
      && row.overtime == Cell(p, i, "overtime") && row.isCompetitive == Cell(p, i, "is_competitive")
  {
    ScoreSteps(p, winnerEncoder, model);
    var x := Select(p, FeatureColumns).value;
    var replies := ClassifyAll(model, Samples(x)).value;
    var winners := DecodeAll(winnerEncoder, Codes(replies)).value;
    var confidences := RowMaxima(replies).value;
    assert Score(p, winnerEncoder, model).value[i] == OutputRows(p, winners, confidences)[i];
    assert FeatureColumns[0] == "team_color_encoded";
  }

  /** Each scored row's prediction: the decoded class of the selected row and its largest probability. */
  lemma ScoreRowPrediction(p: Frame, winnerEncoder: LabelEncoder, model: Model, i: nat)
    requires Prepared(p) && Score(p, winnerEncoder, model).Success? && i < |p.rows|
    ensures Select(p, FeatureColumns).Success?
    ensures var row := Score(p, winnerEncoder, model).value[i];
      var reply := model.predict(Samples(Select(p, FeatureColumns).value)[i]);
      && reply.Reply? && 0 <= reply.code < |winnerEncoder.classes|
      && row.predictedWinner == winnerEncoder.classes[reply.code]
      && row.confidence in reply.probs
      && (forall j :: 0 <= j < |reply.probs| ==> reply.probs[j] <= row.confidence)
  {
    ScoreSteps(p, winnerEncoder, model);
    var x := Select(p, FeatureColumns).value;
    var replies := ClassifyAll(model, Samples(x)).value;
    var winners := DecodeAll(winnerEncoder, Codes(replies)).value;
    var confidences := RowMaxima(replies).value;
    assert Score(p, winnerEncoder, model).value[i] == OutputRows(p, winners, confidences)[i];
    assert replies[i] == model.predict(Samples(x)[i]);
    assert InverseTransform(winnerEncoder, Codes(replies)[i]) == Success(winners[i]);
  }

  /** A prepared table with rows, all eight features and valid replies on every selected row is scored. */
  lemma ScoreSucceeds(p: Frame, winnerEncoder: LabelEncoder, model: Model)
    requires Prepared(p) && |p.rows| > 0 && |winnerEncoder.classes| > 0
    requires forall c :: c in FeatureColumns ==> c in p.columns
    requires forall i :: 0 <= i < |p.rows| ==>
      ValidReply(model.predict(Samples(Select(p, FeatureColumns).value)[i]), |winnerEncoder.classes|)
    ensures Score(p, winnerEncoder, model).Success?
  {
    var x := Select(p, FeatureColumns).value;
    var replies := ClassifyAll(model, Samples(x)).value;
    assert forall i :: 0 <= i < |replies| ==> replies[i].Reply? && ValidReply(replies[i], |winnerEncoder.classes|);
    assert DecodeAll(winnerEncoder, Codes(replies)).Success?;
    assert RowMaxima(replies).Success?;
  }

  /** Cell `j` of row `i` of the selected feature table is that feature read off the input table. */
  lemma SelectedCell(df: Frame, e: LabelEncoder, i: nat, j: nat)
    requires WellFormed(df) && i < |df.rows| && Prepare(df, e).Success?
    requires Select(Prepare(df, e).value, FeatureColumns).Success?
    requires j < |FeatureColumns|
    ensures FeatureColumns[j] in df.columns || Required(FeatureColumns[j])
    ensures Select(Prepare(df, e).value, FeatureColumns).value.rows[i][j] == FeatureCell(df, i, FeatureColumns[j])
  {
    var p := Prepare(df, e).value;
    var c := FeatureColumns[j];
    FeatureColumnsAreInputs();
    assert c in p.columns;
    if Required(c) {
      PreparedRequired(df, e, i, c);
    } else {
      PreparedOther(df, e, i, c);
    }
  }

  /** Row `i` of the selected feature table is the row's features read off the input table. */
  lemma SelectedRow(df: Frame, e: LabelEncoder, i: nat)
    requires WellFormed(df) && i < |df.rows| && Prepare(df, e).Success?
    requires Select(Prepare(df, e).value, FeatureColumns).Success?
    ensures Scorable(df)
    ensures Samples(Select(Prepare(df, e).value, FeatureColumns).value)[i] == BatchFeatures(df, i)
  {
    var x := Select(Prepare(df, e).value, FeatureColumns).value;
    forall c | c in FeatureColumns ensures c in df.columns || Required(c) {
      var j :| 0 <= j < |FeatureColumns| && FeatureColumns[j] == c;
      SelectedCell(df, e, i, j);
    }
    var s := BatchFeatures(df, i);
    forall j | 0 <= j < |FeatureColumns| ensures x.rows[i][j] == s.values[j] {
      SelectedCell(df, e, i, j);
    }
    assert x.rows[i] == s.values;
  }

  /**
   * Each output row's prediction: the raw class the classifier predicts for
   * the row's eight features, and the largest of its probabilities.
   */
  lemma BatchRowPrediction(df: Frame, teamEncoder: LabelEncoder, winnerEncoder: LabelEncoder, model: Model, i: nat)
    requires WellFormed(df) && i < |df.rows| && RunBatch(df, teamEncoder, winnerEncoder, model).Success?
    ensures Scorable(df)
    ensures var row := RunBatch(df, teamEncoder, winnerEncoder, model).value[i];
      var reply := model.predict(BatchFeatures(df, i));
      && reply.Reply? && 0 <= reply.code < |winnerEncoder.classes|
      && row.predictedWinner == winnerEncoder.classes[reply.code]
      && row.confidence in reply.probs
      && (forall j :: 0 <= j < |reply.probs| ==> reply.probs[j] <= row.confidence)
  {
    RunBatchSteps(df, teamEncoder, winnerEncoder, model);
    var p := Prepare(df, teamEncoder).value;
    ScoreRowPrediction(p, winnerEncoder, model, i);
    SelectedRow(df, teamEncoder, i);
  }

  /** Each output row carries the decoded team colour and the rebuilt mode. */
  lemma BatchRowColumns(df: Frame, teamEncoder: LabelEncoder, winnerEncoder: LabelEncoder, model: Model, i: nat)
    requires WellFormed(df) && i < |df.rows| && RunBatch(df, teamEncoder, winnerEncoder, model).Success?
    ensures "team_color_encoded" in df.columns
    ensures var row := RunBatch(df, teamEncoder, winnerEncoder, model).value[i];
      && Cell(df, i, "team_color_encoded").Int?
      && row.teamColor == Str(teamEncoder.classes[Cell(df, i, "team_color_encoded").i])
      && row.gameMode == Str(RowMode(df, i))
  {
    BatchRowCells(df, teamEncoder, winnerEncoder, model, i);
    PreparedGameMode(df, teamEncoder, i);
    PreparedTeamColor(df, teamEncoder, i);
  }

  /** Each output row carries the required columns with their defaults, and the competitive flag as it was. */
  lemma BatchRowDefaults(df: Frame, teamEncoder: LabelEncoder, winnerEncoder: LabelEncoder, model: Model, i: nat)
    requires WellFormed(df) && i < |df.rows| && RunBatch(df, teamEncoder, winnerEncoder, model).Success?
    ensures "is_competitive" in df.columns
    ensures var row := RunBatch(df, teamEncoder, winnerEncoder, model).value[i];
      && row.goalDifference == CellOr(df, i, "goal_difference", Int(0))
      && row.matchDuration == CellOr(df, i, "match_duration", Int(300))
      && row.overtime == CellOr(df, i, "overtime", Int(0))
      && row.isCompetitive == Cell(df, i, "is_competitive")
  {
    BatchRowCells(df, teamEncoder, winnerEncoder, model, i);
    FeatureColumnsAreInputs();
    CompetitiveIsPlainInput();
    PreparedRequired(df, teamEncoder, i, "goal_difference");
    PreparedRequired(df, teamEncoder, i, "match_duration");
    PreparedRequired(df, teamEncoder, i, "overtime");
    PreparedOther(df, teamEncoder, i, "is_competitive");
  }

  /** Each output row copies its cells from the prepared table. */
  lemma BatchRowCells(df: Frame, teamEncoder: LabelEncoder, winnerEncoder: LabelEncoder, model: Model, i: nat)
    requires WellFormed(df) && i < |df.rows| && RunBatch(df, teamEncoder, winnerEncoder, model).Success?
    ensures "team_color_encoded" in df.columns && "is_competitive" in df.columns
    ensures Prepare(df, teamEncoder).Success?
    ensures var p := Prepare(df, teamEncoder).value;
      && HasOutputColumns(p)
      && var row := RunBatch(df, teamEncoder, winnerEncoder, model).value[i];
      && row.teamColor == Cell(p, i, "team_color") && row.gameMode == Cell(p, i, "game_mode")
      && row.goalDifference == Cell(p, i, "goal_difference") && row.matchDuration == Cell(p, i, "match_duration")
      && row.overtime == Cell(p, i, "overtime") && row.isCompetitive == Cell(p, i, "is_competitive")
  {
    RunBatchSteps(df, teamEncoder, winnerEncoder, model);
    var p := Prepare(df, teamEncoder).value;
    ScoreRowCells(p, winnerEncoder, model, i);
    FeatureColumnsAreInputs();
    assert FeatureColumns[0] == "team_color_encoded";
    PreparedPlainColumn(df, teamEncoder, "team_color_encoded");
    CompetitiveIsPlainInput();
    PreparedPlainColumn(df, teamEncoder, "is_competitive");
  }

  /**
   * Without `team_color_encoded` the feature selection raises on that
   * column, so the "Blue" default for a missing team colour never reaches
   * the output.
   */
  lemma BatchNeedsEncodedColour(df: Frame, teamEncoder: LabelEncoder, winnerEncoder: LabelEncoder, model: Model)
    requires WellFormed(df) && "team_color_encoded" !in df.columns
    ensures RunBatch(df, teamEncoder, winnerEncoder, model) == Failure(MissingColumn("team_color_encoded"))
  {
    var g := WithGameMode(df);
    ColumnsAfterSet(df.columns, "game_mode", g.columns, "team_color_encoded");
    assert WithTeamColor(g, teamEncoder).Success?;
    var p := Prepare(df, teamEncoder).value;
    PreparedPlainColumn(df, teamEncoder, "team_color_encoded");
    assert FeatureColumns[0] == "team_color_encoded";
    assert FirstMissing(FeatureColumns, p.columns) == Some("team_color_encoded");
    assert Select(p, FeatureColumns) == Failure(MissingColumn("team_color_encoded"));
  }

  /**
   * Conversely, a table with rows, every feature column present or
   * defaulted, known team-colour codes and a classifier that keeps its
   * promises on every row is scored without error.
   */
  lemma BatchSucceeds(df: Frame, teamEncoder: LabelEncoder, winnerEncoder: LabelEncoder, model: Model)
    requires Scorable(df) && |df.rows| > 0
    requires "team_color_encoded" in df.columns
    requires forall i :: 0 <= i < |df.rows| ==>
      Cell(df, i, "team_color_encoded").Int? && 0 <= Cell(df, i, "team_color_encoded").i < |teamEncoder.classes|
    requires |winnerEncoder.classes| > 0
    requires forall i :: 0 <= i < |df.rows| ==> ValidReply(model.predict(BatchFeatures(df, i)), |winnerEncoder.classes|)
    ensures RunBatch(df, teamEncoder, winnerEncoder, model).Success?
  {
    PrepareSucceeds(df, teamEncoder);
    var p := Prepare(df, teamEncoder).value;
    FeatureColumnsAreInputs();
    assert forall c :: c in FeatureColumns ==> c in p.columns;
    var x := Select(p, FeatureColumns).value;
    forall i | 0 <= i < |df.rows| ensures ValidReply(model.predict(Samples(x)[i]), |winnerEncoder.classes|) {
      SelectedRow(df, teamEncoder, i);
    }
    ScoreSucceeds(p, winnerEncoder, model);
  }

  /** Known team-colour codes in every row let the preparation succeed. */
  lemma PrepareSucceeds(df: Frame, teamEncoder: LabelEncoder)
    requires WellFormed(df) && "team_color_encoded" in df.columns
    requires forall i :: 0 <= i < |df.rows| ==>
      Cell(df, i, "team_color_encoded").Int? && 0 <= Cell(df, i, "team_color_encoded").i < |teamEncoder.classes|
    ensures Prepare(df, teamEncoder).Success?
  {
    var g := WithGameMode(df);
    forall i | 0 <= i < |df.rows|
      ensures Cell(g, i, "team_color_encoded").Int? && 0 <= Cell(g, i, "team_color_encoded").i < |teamEncoder.classes|
    {
      assert Cell(g, i, "team_color_encoded") == Cell(df, i, "team_color_encoded");
    }
    assert WithTeamColor(g, teamEncoder).Success?;
  }

  /**
   * Round trip with the API's one-hot encoding: a row whose indicators are
   * those the API builds for a mode comes out with that mode capitalised,
   * or "Unknown" when the API did not recognise it.
   */
  lemma BatchModeRoundTrip(df: Frame, teamEncoder: LabelEncoder, winnerEncoder: LabelEncoder, model: Model, i: nat, gameMode: string)
    requires WellFormed(df) && i < |df.rows| && RunBatch(df, teamEncoder, winnerEncoder, model).Success?
    requires "mode_Duel" in df.columns && Cell(df, i, "mode_Duel") == Int(Indicators(gameMode).duel)
    requires "mode_Doubles" in df.columns && Cell(df, i, "mode_Doubles") == Int(Indicators(gameMode).doubles)
    requires "mode_Standard" in df.columns && Cell(df, i, "mode_Standard") == Int(Indicators(gameMode).standard)
    ensures RunBatch(df, teamEncoder, winnerEncoder, model).value[i].gameMode
         == Str(if Lower(gameMode) in LowerModeNames then Capitalize(gameMode) else "Unknown")
  {
    BatchRowColumns(df, teamEncoder, winnerEncoder, model, i);
    ReconstructIndicators(gameMode);
  }
}
