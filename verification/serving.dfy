/**
 * Serving-side feature assembly (`prepare_features`): one match description
 * becomes one feature row laid out as the classifier was trained.
 */
module Serving {
  import opened Wrappers
  import opened Errors
  import opened Text
  import opened Labels
  import opened Frames
  import opened Encoder
  import opened Modes

  /** The request body of the prediction endpoint; `isCompetitive` may be null. */
  datatype MatchInput = MatchInput(
    teamColor: string,
    gameMode: string,
    goalDifference: int,
    matchDuration: int,
    overtime: bool,
    isCompetitive: Option<int>)

  /** The eight columns of the feature dictionary. */
  datatype Feature =
    | TeamColorEncoded | GoalDifference | MatchDuration
    | ModeDuel | ModeDoubles | ModeStandard
    | IsCompetitive | Overtime

  function FeatureName(f: Feature): string {
    match f
    case TeamColorEncoded => "team_color_encoded"
    case GoalDifference => "goal_difference"
    case MatchDuration => "match_duration"
    case ModeDuel => "mode_Duel"
    case ModeDoubles => "mode_Doubles"
    case ModeStandard => "mode_Standard"
    case IsCompetitive => "is_competitive"
    case Overtime => "overtime"
  }

  /** The order in which the feature dictionary is built. */
  const ConstructionFeatures: seq<Feature> := [
    TeamColorEncoded, GoalDifference, MatchDuration,
    ModeDuel, ModeDoubles, ModeStandard,
    IsCompetitive, Overtime
  ]

  /** The same order, as column names. */
  const ConstructionOrder: seq<string> := [
    "team_color_encoded",
    "goal_difference",
    "match_duration",
    "mode_Duel",
    "mode_Doubles",
    "mode_Standard",
    "is_competitive",
    "overtime"
  ]

  lemma ConstructionOrderNames()
    ensures |ConstructionOrder| == |ConstructionFeatures| == 8
    ensures forall j :: 0 <= j < 8 ==> ConstructionOrder[j] == FeatureName(ConstructionFeatures[j])
    ensures forall f: Feature :: f in ConstructionFeatures
    ensures Distinct(ConstructionOrder)
  {
    EveryFeatureConstructed();
    ConstructionOrderDistinct();
  }

  lemma EveryFeatureConstructed()
    ensures forall f: Feature :: f in ConstructionFeatures
  {
    forall f: Feature ensures f in ConstructionFeatures {
      match f
      case TeamColorEncoded => assert ConstructionFeatures[0] == f;
      case GoalDifference => assert ConstructionFeatures[1] == f;
      case MatchDuration => assert ConstructionFeatures[2] == f;
      case ModeDuel => assert ConstructionFeatures[3] == f;
      case ModeDoubles => assert ConstructionFeatures[4] == f;
      case ModeStandard => assert ConstructionFeatures[5] == f;
      case IsCompetitive => assert ConstructionFeatures[6] == f;
      case Overtime => assert ConstructionFeatures[7] == f;
    }
  }

  /** The names differ in length, except `match_duration` and `is_competitive`, which differ in their first letter. */
  lemma ConstructionOrderDistinct()
    ensures Distinct(ConstructionOrder)
  {
    assert ConstructionOrder[2][0] != ConstructionOrder[6][0];
    forall i, j | 0 <= i < j < 8 ensures ConstructionOrder[i] != ConstructionOrder[j] {
      if !(i == 2 && j == 6) {
        assert |ConstructionOrder[i]| != |ConstructionOrder[j]|;
      }
    }
  }

  /** The feature a column name denotes, searched in `fs`. */
  function FindFeature(fs: seq<Feature>, name: string): (r: Option<Feature>)
    ensures r.Some? ==> r.value in fs && FeatureName(r.value) == name
    ensures r.None? ==> forall f :: f in fs ==> FeatureName(f) != name
  {
    if fs == [] then None
    else if FeatureName(fs[0]) == name then Some(fs[0])
    else FindFeature(fs[1..], name)
  }

  function ParseFeature(name: string): (r: Option<Feature>)
    ensures r.Some? <==> name in ConstructionOrder
    ensures r.Some? ==> FeatureName(r.value) == name
  {
    ConstructionOrderNames();
    FindFeature(ConstructionFeatures, name)
  }

  /** Every feature is found again under its own column name. */
  lemma ParseFeatureName(f: Feature)
    ensures ParseFeature(FeatureName(f)) == Some(f)
  {
    ConstructionOrderNames();
    assert f in ConstructionFeatures;
    var j :| 0 <= j < |ConstructionFeatures| && ConstructionFeatures[j] == f;
    var g := ParseFeature(FeatureName(f)).value;
    assert g in ConstructionFeatures;
    var k :| 0 <= k < |ConstructionFeatures| && ConstructionFeatures[k] == g;
    assert ConstructionOrder[j] == ConstructionOrder[k];
  }

  /** The entry of the feature dictionary of one match, given the code of its team colour. */
  function FeatureValue(m: MatchInput, teamCode: int, f: Feature): (v: int)
    ensures f == TeamColorEncoded ==> v == teamCode
    ensures f == GoalDifference ==> v == m.goalDifference
    ensures f == MatchDuration ==> v == m.matchDuration
    ensures f == IsCompetitive ==> v == if m.isCompetitive.None? then 0 else m.isCompetitive.value
    ensures f == Overtime ==> (v == 0 || v == 1) && (v == 1 <==> m.overtime)
    ensures f == ModeDuel ==> v == Bit(Indicators(m.gameMode), Duel)
    ensures f == ModeDoubles ==> v == Bit(Indicators(m.gameMode), Doubles)
    ensures f == ModeStandard ==> v == Bit(Indicators(m.gameMode), Standard)
  {
    match f
    case TeamColorEncoded => teamCode
    case GoalDifference => m.goalDifference
    case MatchDuration => m.matchDuration
    case ModeDuel => Indicators(m.gameMode).duel
    case ModeDoubles => Indicators(m.gameMode).doubles
    case ModeStandard => Indicators(m.gameMode).standard
    case IsCompetitive => if m.isCompetitive.Some? then m.isCompetitive.value else 0
    case Overtime => if m.overtime then 1 else 0
  }

  /** The three mode indicators of a match are one-hot, or all zero for an unknown mode. */
  lemma ModeFeaturesOneHot(m: MatchInput, teamCode: int)
    ensures FeatureValue(m, teamCode, ModeDuel) + FeatureValue(m, teamCode, ModeDoubles) + FeatureValue(m, teamCode, ModeStandard) <= 1
    ensures FeatureValue(m, teamCode, ModeDuel) + FeatureValue(m, teamCode, ModeDoubles) + FeatureValue(m, teamCode, ModeStandard) == 1
      <==> Lower(m.gameMode) in LowerModeNames
  {
  }

  /** The columns a prepared row has: the declared names if there are any, else construction order. */
  function ExpectedColumns(featureNames: Option<seq<string>>): seq<string> {
    if featureNames.Some? then featureNames.value else ConstructionOrder
  }

  /** The named features of one match, in the order of `names`; an unknown name is a `KeyError`. */
  function SelectFeatures(m: MatchInput, teamCode: int, names: seq<string>): (r: Result<seq<Value>, Error>)
    ensures r.Success? <==> forall n :: n in names ==> n in ConstructionOrder
    ensures r.Failure? ==> r.error.MissingColumn? && r.error.name in names && r.error.name !in ConstructionOrder
    ensures r.Success? ==> |r.value| == |names|
    ensures r.Success? ==> forall j :: 0 <= j < |names| ==> r.value[j] == Int(FeatureValue(m, teamCode, ParseFeature(names[j]).value))
  {
    if names == [] then Success([])
    else
      match ParseFeature(names[0])
      case None => Failure(MissingColumn(names[0]))
      case Some(f) =>
        var rest :- SelectFeatures(m, teamCode, names[1..]);
        Success([Int(FeatureValue(m, teamCode, f))] + rest)
  }

  /**
   * `prepare_features`: normalise and encode the team colour, one-hot the
   * mode, copy the integers, default a null competitive flag to 0, make the
   * overtime flag 0/1, then reorder to the classifier's declared feature
   * names when it has them.
   */
  function PrepareFeatures(m: MatchInput, teamEncoder: LabelEncoder, featureNames: Option<seq<string>>): (r: Result<Sample, Error>)
    ensures r.Failure? && r.error.UnknownCategory? <==> NormalizeTeamColor(m.teamColor) !in teamEncoder.classes
    ensures r.Success? <==>
      && NormalizeTeamColor(m.teamColor) in teamEncoder.classes
      && (featureNames.Some? ==> forall n :: n in featureNames.value ==> n in ConstructionOrder)
    ensures r.Failure? && !r.error.UnknownCategory? ==>
      r.error.MissingColumn? && featureNames.Some? && r.error.name in featureNames.value && r.error.name !in ConstructionOrder
    ensures r.Success? ==> r.value.columns == ExpectedColumns(featureNames) && |r.value.values| == |r.value.columns|
    ensures r.Success? ==>
      var code := Transform(teamEncoder, NormalizeTeamColor(m.teamColor)).value;
      && teamEncoder.classes[code] == NormalizeTeamColor(m.teamColor)
      && forall j :: 0 <= j < |r.value.columns| ==>
           r.value.values[j] == Int(FeatureValue(m, code, ParseFeature(r.value.columns[j]).value))
  {
    var code :- Transform(teamEncoder, NormalizeTeamColor(m.teamColor));
    ConstructionOrderNames();
    var names := ExpectedColumns(featureNames);
    var values :- SelectFeatures(m, code, names);
    Success(Sample(names, values))
  }

  /** A null competitive flag is read as 0, so it never changes the prediction input. */
  lemma NullCompetitiveIsZero(m: MatchInput, teamEncoder: LabelEncoder, featureNames: Option<seq<string>>)
    requires m.isCompetitive.None?
    ensures PrepareFeatures(m, teamEncoder, featureNames) == PrepareFeatures(m.(isCompetitive := Some(0)), teamEncoder, featureNames)
  {
    var m0 := m.(isCompetitive := Some(0));
    var color := NormalizeTeamColor(m.teamColor);
    if color in teamEncoder.classes {
      var code := Transform(teamEncoder, color).value;
      SameFeaturesSameSelection(m, m0, code, ExpectedColumns(featureNames));
    }
  }

  lemma {:induction false} SameFeaturesSameSelection(m: MatchInput, m': MatchInput, teamCode: int, names: seq<string>)
    requires forall f :: FeatureValue(m, teamCode, f) == FeatureValue(m', teamCode, f)
    ensures SelectFeatures(m, teamCode, names) == SelectFeatures(m', teamCode, names)
  {
    if names != [] {
      SameFeaturesSameSelection(m, m', teamCode, names[1..]);
    }
  }

  /** Entry `j` of a prepared row in construction order is the feature built at position `j`. */
  lemma PreparedEntry(m: MatchInput, teamEncoder: LabelEncoder, j: nat)
    requires NormalizeTeamColor(m.teamColor) in teamEncoder.classes && j < 8
    ensures PrepareFeatures(m, teamEncoder, None).Success?
    ensures var x := PrepareFeatures(m, teamEncoder, None).value;
      && x.columns == ConstructionOrder
      && x.values[j] == Int(FeatureValue(m, Transform(teamEncoder, NormalizeTeamColor(m.teamColor)).value, ConstructionFeatures[j]))
  {
    ConstructionOrderNames();
    ParseFeatureName(ConstructionFeatures[j]);
  }

  /** An unrecognised mode is not an error: its three indicators are 0. */
  lemma UnknownModeGivesZeros(m: MatchInput, teamEncoder: LabelEncoder)
    requires NormalizeTeamColor(m.teamColor) in teamEncoder.classes
    requires Lower(m.gameMode) !in LowerModeNames
    ensures PrepareFeatures(m, teamEncoder, None).Success?
    ensures PrepareFeatures(m, teamEncoder, None).value.columns == ConstructionOrder
    ensures var x := PrepareFeatures(m, teamEncoder, None).value;
      x.values[3] == x.values[4] == x.values[5] == Int(0)
  {
    var code := Transform(teamEncoder, NormalizeTeamColor(m.teamColor)).value;
    ModeFeaturesOneHot(m, code);
    PreparedEntry(m, teamEncoder, 3);
    PreparedEntry(m, teamEncoder, 4);
    PreparedEntry(m, teamEncoder, 5);
  }
}
