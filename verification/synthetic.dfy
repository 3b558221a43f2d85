/**
 * The synthetic-data endpoint (`generate_synthetic`): draw `n` random
 * matches, predict each one, and summarise the predicted labels and the
 * mean confidence. The random draws are an explicit parameter, one record
 * per match; the wall-clock seeding and the distributions themselves are
 * outside the model, apart from the ranges the draws are known to lie in.
 */
module Synthetic {
  import opened Wrappers
  import opened Errors
  import opened Text
  import opened Labels
  import opened Frames
  import opened Encoder
  import opened Modes
  import opened Classifier
  import opened Serving
  import opened Counts
  import opened Inference

  /** Python's `int()` of a float: truncation toward zero, not rounding. */
  function Trunc(x: real): (r: int)
    ensures 0.0 <= x ==> 0 <= r && r as real <= x < r as real + 1.0
    ensures x < 0.0 ==> r <= 0 && r as real - 1.0 < x <= r as real
  {
    if x >= 0.0 then x.Floor else -((-x).Floor)
  }

  /** Truncation moves toward zero where rounding to the nearest integer would not. */
  lemma TruncIsNotRounding()
    ensures Trunc(2.7) == 2 && Trunc(-2.7) == -2
    ensures Trunc(-0.5) == 0
  {
  }

  /** `max(lo, min(hi, x))` */
  function Clamp(x: int, lo: int, hi: int): (r: int)
    requires lo <= hi
    ensures lo <= r <= hi
    ensures lo <= x <= hi ==> r == x
    ensures x < lo ==> r == lo
    ensures hi < x ==> r == hi
  {
    if x < lo then lo else if hi < x then hi else x
  }

  const TeamColors: seq<string> := ["Blue", "Orange"]

  /**
   * The random values one synthetic match consumes, in the order the loop
   * draws them: two normal variates, the overtime roll, the uniform
   * extension (used only on overtime), the competitive roll, the colour
   * pick, and the mode `np.random.choice` picked for this row up front.
   */
  datatype Draw = Draw(
    goalNoise: real,        // normal(0, 3)
    durationNoise: real,    // normal(300, 60)
    overtimeRoll: real,     // random()
    extra: real,            // uniform(30, 120), half-open
    competitiveRoll: real,  // random()
    colorPick: nat,         // index into the two team colours
    mode: Mode)             // this row's element of the drawn mode vector

  /** The ranges the distributions produce. */
  predicate InRange(d: Draw) {
    && 30.0 <= d.extra < 120.0
    && d.colorPick < |TeamColors|
  }

  /**
   * One synthetic match: goal difference truncated then clamped to
   * [-10, 10]; duration truncated then clamped to [180, 600], then
   * lengthened by the truncated extension on overtime (probability 0.2);
   * competitive with probability 0.7; colour picked from Blue and Orange.
   */
  function SampleMatch(d: Draw, gameMode: string): (m: MatchInput)
    requires InRange(d)
    ensures m.gameMode == gameMode
    ensures -10 <= m.goalDifference <= 10
    ensures m.overtime <==> d.overtimeRoll < 0.2
    ensures !m.overtime ==> 180 <= m.matchDuration <= 600
    ensures m.overtime ==> 210 <= m.matchDuration <= 719
    ensures m.isCompetitive == Some(if d.competitiveRoll < 0.7 then 1 else 0)
    ensures m.teamColor == "Blue" || m.teamColor == "Orange"
  {
    var goal := Clamp(Trunc(d.goalNoise), -10, 10);
    var base := Clamp(Trunc(d.durationNoise), 180, 600);
    var overtime := d.overtimeRoll < 0.2;
    var duration := if overtime then base + Trunc(d.extra) else base;
    var competitive := if d.competitiveRoll < 0.7 then 1 else 0;
    MatchInput(TeamColors[d.colorPick], gameMode, goal, duration, overtime, Some(competitive))
  }

  /** An in-range goal noise whose truncation lies in the clamp range is kept as truncated. */
  lemma SampleKeepsModerateNoise(d: Draw, gameMode: string)
    requires InRange(d)
    requires -11.0 < d.goalNoise < 11.0
    ensures SampleMatch(d, gameMode).goalDifference == Trunc(d.goalNoise)
  {
  }

  /** `selected_mode and selected_mode in game_modes`: an exact, case-sensitive match. */
  predicate Pinned(selected: Option<string>) {
    selected.Some? && selected.value != "" && selected.value in ModeNames
  }

  /** The mode of row `i`: the pinned filter, or the row's drawn mode. */
  function ModeAt(selected: Option<string>, draws: seq<Draw>, i: nat): (s: string)
    requires i < |draws|
    ensures Pinned(selected) ==> s == selected.value
    ensures !Pinned(selected) ==> s == Name(draws[i].mode)
    ensures s in ModeNames
  {
    if Pinned(selected) then selected.value else Name(draws[i].mode)
  }

  /**
   * A filter that differs from a mode name only in case does not pin the
   * rows, although feature assembly would read it as that mode.
   */
  lemma FilterIsCaseSensitive()
    ensures !Pinned(Some("standard")) && Indicators("standard").standard == 1
    ensures !Pinned(Some("DUEL")) && Indicators("DUEL").duel == 1
    ensures !Pinned(Some("")) && !Pinned(None)
    ensures forall m: Mode :: Pinned(Some(Name(m)))
  {
    assert "standard" != "Standard" by { assert "standard"[0] != "Standard"[0]; }
    assert "DUEL" != "Duel" by { assert "DUEL"[1] != "Duel"[1]; }
    assert Lower("standard") == "standard";
    assert Lower("DUEL") == "duel";
  }

  /** One row of the generated table. */
  datatype SyntheticRow = SyntheticRow(
    teamColor: string,
    gameMode: string,
    goalDifference: int,
    matchDuration: int,
    overtime: bool,
    isCompetitive: int,
    predictedWinner: string,
    confidence: real)

  /**
   * Predict one synthetic match: the decoded label is normalised and then
   * lower-cased; the confidence is the largest probability.
   */
  function GenerateRow(m: MatchInput, teamEncoder: LabelEncoder, winnerEncoder: LabelEncoder, model: Model): (r: Result<SyntheticRow, Error>)
    requires m.isCompetitive.Some?
    ensures PrepareFeatures(m, teamEncoder, model.featureNames).Failure? ==>
      r == Failure(PrepareFeatures(m, teamEncoder, model.featureNames).error)
    ensures PrepareFeatures(m, teamEncoder, model.featureNames).Success? ==>
      var reply := model.predict(PrepareFeatures(m, teamEncoder, model.featureNames).value);
      && (r.Success? <==> reply.Reply? && 0 <= reply.code < |winnerEncoder.classes| && |reply.probs| > 0)
      && (reply.Raised? ==> r == Failure(ClassifierFailed))
      && (reply.Reply? && !(0 <= reply.code < |winnerEncoder.classes|) ==> r == Failure(InvalidCode(reply.code)))
      && (reply.Reply? && 0 <= reply.code < |winnerEncoder.classes| && |reply.probs| == 0 ==> r == Failure(EmptyProbabilities))
    ensures r.Success? ==>
      var reply := model.predict(PrepareFeatures(m, teamEncoder, model.featureNames).value);
      && reply.Reply?
      && 0 <= reply.code < |winnerEncoder.classes|
      && r.value.predictedWinner == Lower(NormalizeWinner(winnerEncoder.classes[reply.code]))
      && r.value.confidence in reply.probs
      && (forall i :: 0 <= i < |reply.probs| ==> reply.probs[i] <= r.value.confidence)
    ensures r.Success? ==>
      && r.value.teamColor == m.teamColor && r.value.gameMode == m.gameMode
      && r.value.goalDifference == m.goalDifference && r.value.matchDuration == m.matchDuration
      && r.value.overtime == m.overtime && r.value.isCompetitive == m.isCompetitive.value
      && IsLowerCase(r.value.predictedWinner)
  {
    var x :- PrepareFeatures(m, teamEncoder, model.featureNames);
    var reply :- Classify(model, x);
    var raw :- InverseTransform(winnerEncoder, reply.code);
    var confidence :- Confidence(reply.probs);
    LowerIsLowerCase(NormalizeWinner(raw));
    Success(SyntheticRow(m.teamColor, m.gameMode, m.goalDifference, m.matchDuration, m.overtime,
                         m.isCompetitive.value, Lower(NormalizeWinner(raw)), confidence))
  }

  /** The match generated for row `i`. */
  function MatchAt(selected: Option<string>, draws: seq<Draw>, i: nat): (m: MatchInput)
    requires i < |draws| && InRange(draws[i])
    ensures m.gameMode == ModeAt(selected, draws, i)
  {
    SampleMatch(draws[i], ModeAt(selected, draws, i))
  }

  predicate AllInRange(draws: seq<Draw>) {
    forall i :: 0 <= i < |draws| ==> InRange(draws[i])
  }

  /** The outcome of row `i`. */
  function RowAt(selected: Option<string>, draws: seq<Draw>, i: nat,
                 teamEncoder: LabelEncoder, winnerEncoder: LabelEncoder, model: Model): Result<SyntheticRow, Error>
    requires i < |draws| && AllInRange(draws)
  {
    GenerateRow(MatchAt(selected, draws, i), teamEncoder, winnerEncoder, model)
  }

  /**
   * Running a loop whose iterations each succeed or raise: all the values in
   * order, or the error of the first iteration that raised.
   */
  function Collect<T, E>(rs: seq<Result<T, E>>): (r: Result<seq<T>, E>)
    ensures r.Success? <==> forall i :: 0 <= i < |rs| ==> rs[i].Success?
    ensures r.Success? ==> |r.value| == |rs| && forall i :: 0 <= i < |rs| ==> rs[i] == Success(r.value[i])
    ensures r.Failure? ==> exists i :: 0 <= i < |rs| && rs[i] == Failure(r.error) && forall j :: 0 <= j < i ==> rs[j].Success?
  {
    if rs == [] then Success([])
    else
      var init := rs[..|rs| - 1];
      assert forall i :: 0 <= i < |init| ==> init[i] == rs[i];
      var earlier := Collect(init);
      var last := rs[|rs| - 1];
      if earlier.Failure? then Failure(earlier.error)
      else if last.Failure? then Failure(last.error)
      else Success(earlier.value + [last.value])
  }

  /** The outcome of each of the first `k` rows. */
  function RowResults(k: nat, selected: Option<string>, draws: seq<Draw>,
                      teamEncoder: LabelEncoder, winnerEncoder: LabelEncoder, model: Model): (rs: seq<Result<SyntheticRow, Error>>)
    requires k <= |draws| && AllInRange(draws)
    ensures |rs| == k && forall i :: 0 <= i < k ==> rs[i] == RowAt(selected, draws, i, teamEncoder, winnerEncoder, model)
  {
    seq(k, i requires 0 <= i < k => RowAt(selected, draws, i, teamEncoder, winnerEncoder, model))
  }

  /** The first `k` rows, in order; the first row that fails stops the loop. */
  function GenerateRows(k: nat, selected: Option<string>, draws: seq<Draw>,
                        teamEncoder: LabelEncoder, winnerEncoder: LabelEncoder, model: Model): (r: Result<seq<SyntheticRow>, Error>)
    requires k <= |draws| && AllInRange(draws)
    ensures r.Success? <==> forall i :: 0 <= i < k ==> RowAt(selected, draws, i, teamEncoder, winnerEncoder, model).Success?
    ensures r.Success? ==> |r.value| == k
    ensures r.Success? ==> forall i :: 0 <= i < k ==> RowAt(selected, draws, i, teamEncoder, winnerEncoder, model) == Success(r.value[i])
    ensures r.Failure? ==> exists i ::
      && 0 <= i < k && RowAt(selected, draws, i, teamEncoder, winnerEncoder, model) == Failure(r.error)
      && forall j :: 0 <= j < i ==> RowAt(selected, draws, j, teamEncoder, winnerEncoder, model).Success?
  {
    Collect(RowResults(k, selected, draws, teamEncoder, winnerEncoder, model))
  }

  function Winners(rows: seq<SyntheticRow>): (ws: seq<string>)
    ensures |ws| == |rows| && forall i :: 0 <= i < |rows| ==> ws[i] == rows[i].predictedWinner
  {
    seq(|rows|, i requires 0 <= i < |rows| => rows[i].predictedWinner)
  }

  function Confidences(rows: seq<SyntheticRow>): (cs: seq<real>)
    ensures |cs| == |rows| && forall i :: 0 <= i < |rows| ==> cs[i] == rows[i].confidence
  {
    seq(|rows|, i requires 0 <= i < |rows| => rows[i].confidence)
  }

  datatype Summary = Summary(
    totalMatches: int,
    predictions: seq<Entry>,
    avgConfidence: real,
    gameModeFilter: Option<string>)

  datatype SyntheticResult = SyntheticResult(rows: seq<SyntheticRow>, summary: Summary)

  const SyntheticErrorPrefix: string := "Error al generar datos sintéticos: "

  /**
   * The rows, or the error that ends the request: a negative count makes the
   * unpinned mode draw raise; no rows at all leave the table without a
   * `predicted_winner` column, so the summary raises.
   */
  function GenerateTable(n: int, selected: Option<string>, draws: seq<Draw>,
                         teamEncoder: LabelEncoder, winnerEncoder: LabelEncoder, model: Model): (r: Result<seq<SyntheticRow>, Error>)
    requires n <= 0 || |draws| == n
    requires AllInRange(draws)
    ensures n <= 0 ==> r.Failure?
    ensures n < 0 && !Pinned(selected) ==> r == Failure(NegativeCount(n))
    ensures n == 0 || (n < 0 && Pinned(selected)) ==> r == Failure(EmptyOutput)
    ensures n > 0 ==> r == GenerateRows(n, selected, draws, teamEncoder, winnerEncoder, model)
    ensures r.Success? ==> |r.value| == n > 0
  {
    if n < 0 && !Pinned(selected) then Failure(NegativeCount(n))
    else if n <= 0 then Failure(EmptyOutput)
    else GenerateRows(n, selected, draws, teamEncoder, winnerEncoder, model)
  }

  /** `generate_synthetic`: the table and its summary, or HTTP 500 behind the endpoint's prefix. */
  function GenerateSynthetic(n: int, selected: Option<string>, draws: seq<Draw>,
                             teamEncoder: LabelEncoder, winnerEncoder: LabelEncoder, model: Model): (r: Response<SyntheticResult>)
    requires n <= 0 || |draws| == n
    requires AllInRange(draws)
    ensures n <= 0 ==> r.HttpError?
    ensures r.HttpError? ==>
      r.status == 500 && |r.detail| >= |SyntheticErrorPrefix| && r.detail[..|SyntheticErrorPrefix|] == SyntheticErrorPrefix
    ensures r.Ok? <==> GenerateTable(n, selected, draws, teamEncoder, winnerEncoder, model).Success?
    ensures r.Ok? ==>
      && r.body.rows == GenerateTable(n, selected, draws, teamEncoder, winnerEncoder, model).value
      && r.body.summary.totalMatches == n == |r.body.rows|
      && r.body.summary.gameModeFilter == selected
      && r.body.summary.predictions == ValueCounts(Winners(r.body.rows))
      && r.body.summary.avgConfidence == Mean(Confidences(r.body.rows))
  {
    match GenerateTable(n, selected, draws, teamEncoder, winnerEncoder, model)
    case Failure(e) => HttpError(500, SyntheticErrorPrefix + Describe(e))
    case Success(rows) =>
      Ok(SyntheticResult(rows, Summary(n, ValueCounts(Winners(rows)), Mean(Confidences(rows)), selected)))
  }

  /**
   * Every generated row is in its bounds, carries its row's mode (the
   * filter when it pins, the drawn mode otherwise) and a lower-case label.
   */
  lemma {:induction false} GeneratedRowsInBounds(n: int, selected: Option<string>, draws: seq<Draw>,
                                                 teamEncoder: LabelEncoder, winnerEncoder: LabelEncoder, model: Model)
    requires n <= 0 || |draws| == n
    requires AllInRange(draws)
    ensures var r := GenerateSynthetic(n, selected, draws, teamEncoder, winnerEncoder, model);
      r.Ok? ==> forall i :: 0 <= i < |r.body.rows| ==>
        var row := r.body.rows[i];
        && -10 <= row.goalDifference <= 10
        && (if row.overtime then 210 <= row.matchDuration <= 719 else 180 <= row.matchDuration <= 600)
        && (row.isCompetitive == 0 || row.isCompetitive == 1)
        && (row.teamColor == "Blue" || row.teamColor == "Orange")
        && (Pinned(selected) ==> row.gameMode == selected.value)
        && (!Pinned(selected) ==> row.gameMode == Name(draws[i].mode))
        && IsLowerCase(row.predictedWinner)
  {
    var r := GenerateSynthetic(n, selected, draws, teamEncoder, winnerEncoder, model);
    if r.Ok? {
      var rows := r.body.rows;
      forall i | 0 <= i < |rows|
        ensures
          var row := rows[i];
          && -10 <= row.goalDifference <= 10
          && (if row.overtime then 210 <= row.matchDuration <= 719 else 180 <= row.matchDuration <= 600)
          && (row.isCompetitive == 0 || row.isCompetitive == 1)
          && (row.teamColor == "Blue" || row.teamColor == "Orange")
          && (Pinned(selected) ==> row.gameMode == selected.value)
          && (!Pinned(selected) ==> row.gameMode == Name(draws[i].mode))
          && IsLowerCase(row.predictedWinner)
      {
        var m := MatchAt(selected, draws, i);
        assert GenerateRow(m, teamEncoder, winnerEncoder, model) == Success(rows[i]);
      }
    }
  }

  /**
   * The summary's label counts cover exactly the predicted labels and add
   * up to the number of matches requested.
   */
  lemma SummaryCountsAddUp(n: int, selected: Option<string>, draws: seq<Draw>,
                           teamEncoder: LabelEncoder, winnerEncoder: LabelEncoder, model: Model)
    requires n <= 0 || |draws| == n
    requires AllInRange(draws)
    ensures var r := GenerateSynthetic(n, selected, draws, teamEncoder, winnerEncoder, model);
      r.Ok? ==>
        && Total(r.body.summary.predictions) == r.body.summary.totalMatches
        && forall l :: l in Keys(r.body.summary.predictions) <==> l in Winners(r.body.rows)
  {
    var r := GenerateSynthetic(n, selected, draws, teamEncoder, winnerEncoder, model);
    if r.Ok? {
      var ws := Winners(r.body.rows);
      ValueCountsTotal(ws);
      ValueCountsEntries(ws);
    }
  }

  /** With probabilities in [0, 1] the average confidence lies in [0, 1]. */
  lemma AverageConfidenceInUnitInterval(n: int, selected: Option<string>, draws: seq<Draw>,
                                        teamEncoder: LabelEncoder, winnerEncoder: LabelEncoder, model: Model)
    requires n <= 0 || |draws| == n
    requires AllInRange(draws)
    requires WellBehaved(model, |winnerEncoder.classes|)
    ensures var r := GenerateSynthetic(n, selected, draws, teamEncoder, winnerEncoder, model);
      r.Ok? ==> 0.0 <= r.body.summary.avgConfidence <= 1.0
  {
    var r := GenerateSynthetic(n, selected, draws, teamEncoder, winnerEncoder, model);
    if r.Ok? {
      var rows := r.body.rows;
      var cs := Confidences(rows);
      forall i | 0 <= i < |cs| ensures 0.0 <= cs[i] <= 1.0 {
        var m := MatchAt(selected, draws, i);
        assert GenerateRow(m, teamEncoder, winnerEncoder, model) == Success(rows[i]);
        var x := PrepareFeatures(m, teamEncoder, model.featureNames).value;
        assert Accepts(model, x);
        assert ValidReply(model.predict(x), |winnerEncoder.classes|);
      }
      MeanBounds(cs, 0.0, 1.0);
    }
  }

  /** A match with a known colour and a well-behaved classifier yields a row. */
  lemma GenerateRowSucceeds(m: MatchInput, teamEncoder: LabelEncoder, winnerEncoder: LabelEncoder, model: Model)
    requires m.isCompetitive.Some?
    requires m.teamColor == "Blue" || m.teamColor == "Orange"
    requires WellBehaved(model, |winnerEncoder.classes|)
    requires "Blue" in teamEncoder.classes && "Orange" in teamEncoder.classes
    requires model.featureNames.Some? ==> forall f :: f in model.featureNames.value ==> f in ConstructionOrder
    ensures GenerateRow(m, teamEncoder, winnerEncoder, model).Success?
  {
    CanonicalLowerForms();
    assert NormalizeTeamColor(m.teamColor) == m.teamColor;
    var x := PrepareFeatures(m, teamEncoder, model.featureNames).value;
    assert Accepts(model, x);
    assert ValidReply(model.predict(x), |winnerEncoder.classes|);
  }

  /**
   * With a well-behaved classifier, an encoder that knows both team colours
   * and declared feature names among the eight built ones, any positive
   * number of matches is generated without error.
   */
  lemma GenerateSyntheticSucceeds(n: int, selected: Option<string>, draws: seq<Draw>,
                                  teamEncoder: LabelEncoder, winnerEncoder: LabelEncoder, model: Model)
    requires n > 0 && |draws| == n
    requires AllInRange(draws)
    requires WellBehaved(model, |winnerEncoder.classes|)
    requires "Blue" in teamEncoder.classes && "Orange" in teamEncoder.classes
    requires model.featureNames.Some? ==> forall f :: f in model.featureNames.value ==> f in ConstructionOrder
    ensures GenerateSynthetic(n, selected, draws, teamEncoder, winnerEncoder, model).Ok?
  {
    forall i | 0 <= i < n
      ensures GenerateRow(MatchAt(selected, draws, i), teamEncoder, winnerEncoder, model).Success?
    {
      GenerateRowSucceeds(MatchAt(selected, draws, i), teamEncoder, winnerEncoder, model);
    }
  }
}
