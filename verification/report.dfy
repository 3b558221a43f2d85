/**
 * The scoring script that keeps the real outcome next to the prediction
 * (`generate_predictions_with_winner.py`): rebuild `game_mode` and, when
 * it is encoded, `team_color`; score on the classifier's own declared
 * feature names; decode the real outcome from `winner_encoded`, or copy
 * the prediction when that column is absent; lower-case both labels; and
 * report the fraction of rows where they agree.
 */
module Report {
  import opened Wrappers
  import opened Errors
  import opened Text
  import opened Frames
  import opened Encoder
  import opened Modes
  import opened Classifier
  import opened Scoring

  /** The team colour is decoded only when the encoded column exists; there is no default. */
  function WithEncodedTeamColor(f: Frame, e: LabelEncoder): (r: Result<Frame, Error>)
    requires WellFormed(f)
    ensures "team_color_encoded" in f.columns ==> (r.Success? <==> DecodeColumn(e, f, "team_color_encoded").Success?)
    ensures "team_color_encoded" in f.columns && r.Failure? ==> r == Failure(DecodeColumn(e, f, "team_color_encoded").error)
    ensures "team_color_encoded" !in f.columns ==> r == Success(f)
    ensures r.Success? ==> WellFormed(r.value) && |r.value.rows| == |f.rows|
    ensures r.Success? ==> r.value.columns == if "team_color_encoded" !in f.columns || "team_color" in f.columns then f.columns else f.columns + ["team_color"]
    ensures r.Success? && "team_color_encoded" in f.columns ==> forall i :: 0 <= i < |f.rows| ==>
      Cell(r.value, i, "team_color") == Str(e.classes[Cell(f, i, "team_color_encoded").i])
    ensures r.Success? ==> forall i, c :: 0 <= i < |f.rows| && c in f.columns && c != "team_color" ==> Cell(r.value, i, c) == Cell(f, i, c)
  {
    if "team_color_encoded" in f.columns then
      var labels :- DecodeColumn(e, f, "team_color_encoded");
      Success(SetColumn(f, "team_color", Strs(labels)))
    else
      Success(f)
  }

  /** `model.feature_names_in_`: an artifact without it raises. */
  function DeclaredNames(m: Model): (r: Result<seq<string>, Error>)
    ensures r.Success? <==> m.featureNames.Some?
    ensures r.Success? ==> r.value == m.featureNames.value
    ensures r.Failure? ==> r.error == NoFeatureNames
  {
    match m.featureNames
    case None => Failure(NoFeatureNames)
    case Some(names) => Success(names)
  }

  /** The columns the output table copies from the working table, in the order they are read. */
  const CopiedColumns: seq<string> := [
    "team_color", "game_mode", "goal_difference", "match_duration", "overtime", "is_competitive"
  ]

  /** The copied columns, one by one. */
  predicate HasCopiedColumns(t: Frame) {
    && "team_color" in t.columns && "game_mode" in t.columns && "goal_difference" in t.columns
    && "match_duration" in t.columns && "overtime" in t.columns && "is_competitive" in t.columns
  }

  lemma CopiedColumnsPresent(t: Frame)
    requires forall c :: c in CopiedColumns ==> c in t.columns
    ensures HasCopiedColumns(t)
  {
    assert CopiedColumns[0] == "team_color" && CopiedColumns[1] == "game_mode" && CopiedColumns[2] == "goal_difference";
    assert CopiedColumns[3] == "match_duration" && CopiedColumns[4] == "overtime" && CopiedColumns[5] == "is_competitive";
  }

  /** One row of the output table. */
  datatype ReportRow = ReportRow(
    teamColor: Value,
    gameMode: Value,
    goalDifference: Value,
    matchDuration: Value,
    overtime: Value,
    isCompetitive: Value,
    winner: string,
    predictedWinner: string,
    confidence: real)

  datatype Scored = Scored(rows: seq<ReportRow>, accuracy: real)

  function OutputRows(t: Frame, actual: seq<string>, predicted: seq<string>, confidences: seq<real>): (out: seq<ReportRow>)
    requires WellFormed(t) && HasCopiedColumns(t)
    requires |actual| == |predicted| == |confidences| == |t.rows|
    ensures |out| == |t.rows|
    ensures forall i :: 0 <= i < |t.rows| ==>
      out[i] == ReportRow(Cell(t, i, "team_color"), Cell(t, i, "game_mode"), Cell(t, i, "goal_difference"),
                          Cell(t, i, "match_duration"), Cell(t, i, "overtime"), Cell(t, i, "is_competitive"),
                          Lower(actual[i]), Lower(predicted[i]), confidences[i])
  {
    seq(|t.rows|, i requires 0 <= i < |t.rows| =>
      ReportRow(Cell(t, i, "team_color"), Cell(t, i, "game_mode"), Cell(t, i, "goal_difference"),
                Cell(t, i, "match_duration"), Cell(t, i, "overtime"), Cell(t, i, "is_competitive"),
                Lower(actual[i]), Lower(predicted[i]), confidences[i]))
  }

  /** The positions of the rows whose real and predicted outcomes agree. */
  function AgreeingRows(rows: seq<ReportRow>): set<nat> {
    set i: nat | i < |rows| && rows[i].winner == rows[i].predictedWinner
  }

  /** The number of rows whose real and predicted outcomes agree, counted from the last row back. */
  function Agreements(rows: seq<ReportRow>): (k: nat)
    ensures k <= |rows|
    ensures k == |rows| <==> forall i :: 0 <= i < |rows| ==> rows[i].winner == rows[i].predictedWinner
  {
    if rows == [] then 0
    else
      var init := rows[..|rows| - 1];
      assert forall i :: 0 <= i < |init| ==> init[i] == rows[i];
      Agreements(init) + (if rows[|rows| - 1].winner == rows[|rows| - 1].predictedWinner then 1 else 0)
  }

  /** The count is the number of agreeing positions. */
  lemma {:induction false} AgreementsCountsRows(rows: seq<ReportRow>)
    ensures Agreements(rows) == |AgreeingRows(rows)|
  {
    if rows != [] {
      var n := |rows| - 1;
      var init := rows[..n];
      assert forall i :: 0 <= i < n ==> init[i] == rows[i];
      AgreementsCountsRows(init);
      var last: set<nat> := if rows[n].winner == rows[n].predictedWinner then {n} else {};
      assert AgreeingRows(rows) == AgreeingRows(init) + last;
      assert AgreeingRows(init) !! last;
    }
  }

  /** `(winner == predicted_winner).mean()` of a non-empty table. */
  function Accuracy(rows: seq<ReportRow>): (a: real)
    requires |rows| > 0
    ensures a == |AgreeingRows(rows)| as real / |rows| as real
    ensures 0.0 <= a <= 1.0
    ensures a == 1.0 <==> forall i :: 0 <= i < |rows| ==> rows[i].winner == rows[i].predictedWinner
  {
    var k := Agreements(rows);
    RatioFacts(k, |rows|);
    AgreementsCountsRows(rows);
    k as real / |rows| as real
  }

  lemma RatioFacts(k: nat, n: nat)
    requires 0 < n && k <= n
    ensures 0.0 <= k as real / n as real <= 1.0
    ensures k as real / n as real == 1.0 <==> k == n
  {
    var q := k as real / n as real;
    var nr := n as real;
    assert q * nr == k as real;
    if q == 1.0 { assert k as real == nr; }
    if k == n { assert q * nr == 1.0 * nr; }
  }

  /** The working table once the mode and the colour are rebuilt. */
  function Rebuild(df: Frame, teamEncoder: LabelEncoder): (r: Result<Frame, Error>)
    requires WellFormed(df)
    ensures r.Success? ==> WellFormed(r.value) && |r.value.rows| == |df.rows|
  {
    WithEncodedTeamColor(WithGameMode(df), teamEncoder)
  }

  /**
   * Scoring the working table. Its failures, in order: no declared feature
   * names, a missing feature column, the classifier, an empty probability
   * row, an undecodable prediction or real outcome, and a missing output
   * column.
   */
  function ScoreTable(t: Frame, winnerEncoder: LabelEncoder, model: Model): (r: Result<Scored, Error>)
    requires WellFormed(t)
    ensures model.featureNames.None? ==> r.Failure?
    ensures r.Success? ==> |r.value.rows| == |t.rows| > 0
    ensures r.Success? ==> r.value.accuracy == Accuracy(r.value.rows)
  {
    var names :- DeclaredNames(model);
    var x :- Select(t, names);
    var replies :- ClassifyAll(model, Samples(x));
    var confidences :- RowMaxima(replies);
    var predicted :- DecodeAll(winnerEncoder, Codes(replies));
    var actual :- if "winner_encoded" in t.columns then DecodeColumn(winnerEncoder, t, "winner_encoded") else Success(predicted);
    match FirstMissing(CopiedColumns, t.columns)
    case Some(c) => Failure(MissingColumn(c))
    case None =>
      CopiedColumnsPresent(t);
      var rows := OutputRows(t, actual, predicted, confidences);
      Success(Scored(rows, Accuracy(rows)))
  }

  /** The script: rebuild the working table, then score it; an undecodable team colour fails first. */
  function RunReport(df: Frame, teamEncoder: LabelEncoder, winnerEncoder: LabelEncoder, model: Model): (r: Result<Scored, Error>)
    requires WellFormed(df)
    ensures model.featureNames.None? ==> r.Failure?
    ensures r.Success? ==> |r.value.rows| == |df.rows| > 0
    ensures r.Success? ==> r.value.accuracy == Accuracy(r.value.rows)
  {
    var t :- Rebuild(df, teamEncoder);
    ScoreTable(t, winnerEncoder, model)
  }

  /** A successful run scored the rebuilt table. */
  lemma RunReportSteps(df: Frame, teamEncoder: LabelEncoder, winnerEncoder: LabelEncoder, model: Model)
    requires WellFormed(df) && RunReport(df, teamEncoder, winnerEncoder, model).Success?
    ensures Rebuild(df, teamEncoder).Success?
    ensures RunReport(df, teamEncoder, winnerEncoder, model) == ScoreTable(Rebuild(df, teamEncoder).value, winnerEncoder, model)
  {
  }

  /** The intermediate results of a successful scoring. */
  lemma ScoreTableSteps(t: Frame, winnerEncoder: LabelEncoder, model: Model)
    requires WellFormed(t) && ScoreTable(t, winnerEncoder, model).Success?
    ensures model.featureNames.Some?
    ensures Select(t, model.featureNames.value).Success?
    ensures var x := Select(t, model.featureNames.value).value;
      && ClassifyAll(model, Samples(x)).Success?
      && var replies := ClassifyAll(model, Samples(x)).value;
      && RowMaxima(replies).Success?
      && DecodeAll(winnerEncoder, Codes(replies)).Success?
      && var predicted := DecodeAll(winnerEncoder, Codes(replies)).value;
      && ("winner_encoded" in t.columns ==> DecodeColumn(winnerEncoder, t, "winner_encoded").Success?)
      && var actual := if "winner_encoded" in t.columns then DecodeColumn(winnerEncoder, t, "winner_encoded").value else predicted;
      && HasCopiedColumns(t)
      && |actual| == |predicted| == |RowMaxima(replies).value| == |t.rows|
      && ScoreTable(t, winnerEncoder, model).value.rows == OutputRows(t, actual, predicted, RowMaxima(replies).value)
  {
  }

  /** Each scored row copies its cells from the working table. */
  lemma ScoreTableRowCells(t: Frame, winnerEncoder: LabelEncoder, model: Model, i: nat)
    requires WellFormed(t) && ScoreTable(t, winnerEncoder, model).Success? && i < |t.rows|
    ensures HasCopiedColumns(t)
    ensures var row := ScoreTable(t, winnerEncoder, model).value.rows[i];
      && row.teamColor == Cell(t, i, "team_color") && row.gameMode == Cell(t, i, "game_mode")
      && row.goalDifference == Cell(t, i, "goal_difference") && row.matchDuration == Cell(t, i, "match_duration")
      && row.overtime == Cell(t, i, "overtime") && row.isCompetitive == Cell(t, i, "is_competitive")
  {
    ScoreTableSteps(t, winnerEncoder, model);
    var x := Select(t, model.featureNames.value).value;
    var replies := ClassifyAll(model, Samples(x)).value;
    var predicted := DecodeAll(winnerEncoder, Codes(replies)).value;
    var actual := if "winner_encoded" in t.columns then DecodeColumn(winnerEncoder, t, "winner_encoded").value else predicted;
    assert ScoreTable(t, winnerEncoder, model).value.rows[i] == OutputRows(t, actual, predicted, RowMaxima(replies).value)[i];
  }

  /** Each scored row's prediction: the decoded class of the selected row, lower-cased, and its largest probability. */
  lemma ScoreTableRowPrediction(t: Frame, winnerEncoder: LabelEncoder, model: Model, i: nat)
    requires WellFormed(t) && ScoreTable(t, winnerEncoder, model).Success? && i < |t.rows|
    ensures model.featureNames.Some? && Select(t, model.featureNames.value).Success?
    ensures var row := ScoreTable(t, winnerEncoder, model).value.rows[i];
      var reply := model.predict(Samples(Select(t, model.featureNames.value).value)[i]);
      && reply.Reply? && 0 <= reply.code < |winnerEncoder.classes|
      && row.predictedWinner == Lower(winnerEncoder.classes[reply.code])
      && row.confidence in reply.probs
      && (forall j :: 0 <= j < |reply.probs| ==> reply.probs[j] <= row.confidence)
  {
    ScoreTableSteps(t, winnerEncoder, model);
    var x := Select(t, model.featureNames.value).value;
    var replies := ClassifyAll(model, Samples(x)).value;
    var predicted := DecodeAll(winnerEncoder, Codes(replies)).value;
    var actual := if "winner_encoded" in t.columns then DecodeColumn(winnerEncoder, t, "winner_encoded").value else predicted;
    assert ScoreTable(t, winnerEncoder, model).value.rows[i] == OutputRows(t, actual, predicted, RowMaxima(replies).value)[i];
    assert replies[i] == model.predict(Samples(x)[i]);
    assert InverseTransform(winnerEncoder, Codes(replies)[i]) == Success(predicted[i]);
  }

  /** Each scored row's real outcome: the decoded `winner_encoded`, or else the prediction; both lower-cased. */
  lemma ScoreTableRowWinner(t: Frame, winnerEncoder: LabelEncoder, model: Model, i: nat)
    requires WellFormed(t) && ScoreTable(t, winnerEncoder, model).Success? && i < |t.rows|
    ensures var row := ScoreTable(t, winnerEncoder, model).value.rows[i];
      && ("winner_encoded" in t.columns ==>
            Cell(t, i, "winner_encoded").Int? && 0 <= Cell(t, i, "winner_encoded").i < |winnerEncoder.classes|
            && row.winner == Lower(winnerEncoder.classes[Cell(t, i, "winner_encoded").i]))
      && ("winner_encoded" !in t.columns ==> row.winner == row.predictedWinner)
      && IsLowerCase(row.winner) && IsLowerCase(row.predictedWinner)
  {
    ScoreTableSteps(t, winnerEncoder, model);
    var x := Select(t, model.featureNames.value).value;
    var replies := ClassifyAll(model, Samples(x)).value;
    var predicted := DecodeAll(winnerEncoder, Codes(replies)).value;
    var actual := if "winner_encoded" in t.columns then DecodeColumn(winnerEncoder, t, "winner_encoded").value else predicted;
    var row := ScoreTable(t, winnerEncoder, model).value.rows[i];
    assert row == OutputRows(t, actual, predicted, RowMaxima(replies).value)[i];
    assert row.winner == Lower(actual[i]) && row.predictedWinner == Lower(predicted[i]);
    LowerIsLowerCase(actual[i]);
    LowerIsLowerCase(predicted[i]);
  }

  /** The rebuilt table keeps every input column other than `game_mode` and `team_color`. */
  lemma RebuiltCell(df: Frame, e: LabelEncoder, i: nat, c: string)
    requires WellFormed(df) && i < |df.rows| && Rebuild(df, e).Success?
    requires c != "game_mode" && c != "team_color"
    ensures c in Rebuild(df, e).value.columns <==> c in df.columns
    ensures c in df.columns ==> Cell(Rebuild(df, e).value, i, c) == Cell(df, i, c)
  {
    var g := WithGameMode(df);
    var t := Rebuild(df, e).value;
    assert c in g.columns <==> c in df.columns;
    assert c in t.columns <==> c in g.columns;
    if c in df.columns {
      assert Cell(t, i, c) == Cell(g, i, c) == Cell(df, i, c);
    }
  }

  /** The classifier's input for row `i`: the declared features read off the input table. */
  function ReportFeatures(df: Frame, names: seq<string>, i: nat): Sample
    requires WellFormed(df) && i < |df.rows| && forall n :: n in names ==> n in df.columns
  {
    Sample(names, seq(|names|, j requires 0 <= j < |names| => Cell(df, i, names[j])))
  }

  /** Row `i` of the selected table is the row's declared features read off the input table. */
  lemma ReportSelectedRow(df: Frame, teamEncoder: LabelEncoder, winnerEncoder: LabelEncoder, model: Model, i: nat)
    requires WellFormed(df) && i < |df.rows| && RunReport(df, teamEncoder, winnerEncoder, model).Success?
    requires model.featureNames.Some? ==> "game_mode" !in model.featureNames.value && "team_color" !in model.featureNames.value
    ensures model.featureNames.Some? && forall n :: n in model.featureNames.value ==> n in df.columns
    ensures var x := Select(Rebuild(df, teamEncoder).value, model.featureNames.value);
      x.Success? && i < |x.value.rows| && Samples(x.value)[i] == ReportFeatures(df, model.featureNames.value, i)
  {
    RunReportSteps(df, teamEncoder, winnerEncoder, model);
    var t := Rebuild(df, teamEncoder).value;
    ScoreTableSteps(t, winnerEncoder, model);
    var names := model.featureNames.value;
    var x := Select(t, names).value;
    forall n | n in names ensures n in df.columns {
      RebuiltCell(df, teamEncoder, i, n);
    }
    var features := ReportFeatures(df, names, i);
    forall j | 0 <= j < |names| ensures x.rows[i][j] == features.values[j] {
      RebuiltCell(df, teamEncoder, i, names[j]);
    }
    assert x.rows[i] == features.values;
    assert Samples(x)[i] == Sample(names, x.rows[i]);
  }

  /**
   * Each output row's prediction: the class the classifier gives the row's
   * declared features, lower-cased, and the largest probability.
   */
  lemma ReportRowPrediction(df: Frame, teamEncoder: LabelEncoder, winnerEncoder: LabelEncoder, model: Model, i: nat)
    requires WellFormed(df) && i < |df.rows| && RunReport(df, teamEncoder, winnerEncoder, model).Success?
    requires model.featureNames.Some? ==> "game_mode" !in model.featureNames.value && "team_color" !in model.featureNames.value
    ensures model.featureNames.Some? && forall n :: n in model.featureNames.value ==> n in df.columns
    ensures var row := RunReport(df, teamEncoder, winnerEncoder, model).value.rows[i];
      var reply := model.predict(ReportFeatures(df, model.featureNames.value, i));
      && reply.Reply? && 0 <= reply.code < |winnerEncoder.classes|
      && row.predictedWinner == Lower(winnerEncoder.classes[reply.code])
      && row.confidence in reply.probs
      && (forall j :: 0 <= j < |reply.probs| ==> reply.probs[j] <= row.confidence)
  {
    RunReportSteps(df, teamEncoder, winnerEncoder, model);
    ReportSelectedRow(df, teamEncoder, winnerEncoder, model, i);
    ScoreTableRowPrediction(Rebuild(df, teamEncoder).value, winnerEncoder, model, i);
  }

  /**
   * Each output row's real outcome: the decoded `winner_encoded`,
   * lower-cased, or else the prediction itself; both labels are lower case.
   */
  lemma ReportRowWinner(df: Frame, teamEncoder: LabelEncoder, winnerEncoder: LabelEncoder, model: Model, i: nat)
    requires WellFormed(df) && i < |df.rows| && RunReport(df, teamEncoder, winnerEncoder, model).Success?
    ensures var row := RunReport(df, teamEncoder, winnerEncoder, model).value.rows[i];
      && ("winner_encoded" in df.columns ==>
            Cell(df, i, "winner_encoded").Int? && 0 <= Cell(df, i, "winner_encoded").i < |winnerEncoder.classes|
            && row.winner == Lower(winnerEncoder.classes[Cell(df, i, "winner_encoded").i]))
      && ("winner_encoded" !in df.columns ==> row.winner == row.predictedWinner)
      && IsLowerCase(row.winner) && IsLowerCase(row.predictedWinner)
  {
    RunReportSteps(df, teamEncoder, winnerEncoder, model);
    RebuiltCell(df, teamEncoder, i, "winner_encoded");
    ScoreTableRowWinner(Rebuild(df, teamEncoder).value, winnerEncoder, model, i);
  }

  /**
   * Without `winner_encoded` the real outcome is a copy of the prediction,
   * so every row agrees and the accuracy is 1.
   */
  lemma ReportFallbackAccuracy(df: Frame, teamEncoder: LabelEncoder, winnerEncoder: LabelEncoder, model: Model)
    requires WellFormed(df) && "winner_encoded" !in df.columns
    requires RunReport(df, teamEncoder, winnerEncoder, model).Success?
    ensures RunReport(df, teamEncoder, winnerEncoder, model).value.accuracy == 1.0
  {
    RunReportSteps(df, teamEncoder, winnerEncoder, model);
    RebuiltCell(df, teamEncoder, 0, "winner_encoded");
    var t := Rebuild(df, teamEncoder).value;
    var rows := RunReport(df, teamEncoder, winnerEncoder, model).value.rows;
    forall i | 0 <= i < |rows| ensures rows[i].winner == rows[i].predictedWinner {
      ScoreTableRowWinner(t, winnerEncoder, model, i);
    }
  }

  /** The output rows of a successful run, as the rebuilt table and the decoded labels give them. */
  lemma ReportRowIs(df: Frame, teamEncoder: LabelEncoder, winnerEncoder: LabelEncoder, model: Model, i: nat)
    requires WellFormed(df) && i < |df.rows| && RunReport(df, teamEncoder, winnerEncoder, model).Success?
    ensures Rebuild(df, teamEncoder).Success?
    ensures var t := Rebuild(df, teamEncoder).value;
      && HasCopiedColumns(t)
      && var row := RunReport(df, teamEncoder, winnerEncoder, model).value.rows[i];
      && row.teamColor == Cell(t, i, "team_color") && row.gameMode == Cell(t, i, "game_mode")
      && row.goalDifference == Cell(t, i, "goal_difference") && row.matchDuration == Cell(t, i, "match_duration")
      && row.overtime == Cell(t, i, "overtime") && row.isCompetitive == Cell(t, i, "is_competitive")
  {
    RunReportSteps(df, teamEncoder, winnerEncoder, model);
    ScoreTableRowCells(Rebuild(df, teamEncoder).value, winnerEncoder, model, i);
  }

  /** Each output row carries the rebuilt mode and the decoded team colour, or the input's own `team_color`. */
  lemma ReportRowModeAndColour(df: Frame, teamEncoder: LabelEncoder, winnerEncoder: LabelEncoder, model: Model, i: nat)
    requires WellFormed(df) && i < |df.rows| && RunReport(df, teamEncoder, winnerEncoder, model).Success?
    ensures "team_color_encoded" in df.columns || "team_color" in df.columns
    ensures var row := RunReport(df, teamEncoder, winnerEncoder, model).value.rows[i];
      && row.gameMode == Str(RowMode(df, i))
      && ("team_color_encoded" in df.columns ==>
            Cell(df, i, "team_color_encoded").Int? && row.teamColor == Str(teamEncoder.classes[Cell(df, i, "team_color_encoded").i]))
      && ("team_color_encoded" !in df.columns ==> row.teamColor == Cell(df, i, "team_color"))
  {
    ReportRowIs(df, teamEncoder, winnerEncoder, model, i);
    var g := WithGameMode(df);
    var t := Rebuild(df, teamEncoder).value;
    RebuiltCell(df, teamEncoder, i, "team_color_encoded");
    assert Cell(t, i, "game_mode") == Cell(g, i, "game_mode");
    if "team_color_encoded" in df.columns {
      assert Cell(g, i, "team_color_encoded") == Cell(df, i, "team_color_encoded");
    } else {
      assert t == g;
      assert "team_color" in df.columns;
      assert Cell(g, i, "team_color") == Cell(df, i, "team_color");
    }
  }

  /** The other copied columns must be in the input table, and are copied as they are. */
  lemma ReportRowCopies(df: Frame, teamEncoder: LabelEncoder, winnerEncoder: LabelEncoder, model: Model, i: nat)
    requires WellFormed(df) && i < |df.rows| && RunReport(df, teamEncoder, winnerEncoder, model).Success?
    ensures "goal_difference" in df.columns && "match_duration" in df.columns
    ensures "overtime" in df.columns && "is_competitive" in df.columns
    ensures var row := RunReport(df, teamEncoder, winnerEncoder, model).value.rows[i];
      && row.goalDifference == Cell(df, i, "goal_difference")
      && row.matchDuration == Cell(df, i, "match_duration")
      && row.overtime == Cell(df, i, "overtime")
      && row.isCompetitive == Cell(df, i, "is_competitive")
  {
    ReportRowIs(df, teamEncoder, winnerEncoder, model, i);
    RebuiltCell(df, teamEncoder, i, "goal_difference");
    RebuiltCell(df, teamEncoder, i, "match_duration");
    RebuiltCell(df, teamEncoder, i, "overtime");
    RebuiltCell(df, teamEncoder, i, "is_competitive");
  }

  /**
   * Reading back the mode: a row whose indicator columns are those the API
   * builds for a mode comes out with that mode capitalised, or "Unknown"
   * when the API did not recognise it.
   */
  lemma ReportModeRoundTrip(df: Frame, teamEncoder: LabelEncoder, winnerEncoder: LabelEncoder, model: Model, i: nat, gameMode: string)
    requires WellFormed(df) && i < |df.rows| && RunReport(df, teamEncoder, winnerEncoder, model).Success?
    requires "mode_Duel" in df.columns && Cell(df, i, "mode_Duel") == Int(Indicators(gameMode).duel)
    requires "mode_Doubles" in df.columns && Cell(df, i, "mode_Doubles") == Int(Indicators(gameMode).doubles)
    requires "mode_Standard" in df.columns && Cell(df, i, "mode_Standard") == Int(Indicators(gameMode).standard)
    ensures RunReport(df, teamEncoder, winnerEncoder, model).value.rows[i].gameMode
         == Str(if Lower(gameMode) in LowerModeNames then Capitalize(gameMode) else "Unknown")
  {
    ReportRowModeAndColour(df, teamEncoder, winnerEncoder, model, i);
    ReconstructIndicators(gameMode);
  }
}
