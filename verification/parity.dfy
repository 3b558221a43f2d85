/**
 * Train/serve parity: a classifier fitted on a data frame records the
 * filtered feature list as its declared feature names, and the API and the
 * batch script must lay out their rows in exactly that order.
 */
module Parity {
  import opened Wrappers
  import opened Frames
  import opened Encoder
  import opened Classifier
  import opened Serving
  import opened Training
  import opened Labels
  import Batch

  /**
   * The classifier the training script produces from a data frame whose
   * columns are `available`: fitting on `df[features]` records the filtered
   * list as `feature_names_in_`. The fitted decision function is a parameter.
   */
  function Trained(available: set<string>, predict: Sample -> Reply): (m: Model)
    ensures m.featureNames.Some?
    ensures forall n :: n in m.featureNames.value <==> n in DeclaredFeatures && n in available
    ensures IsSubsequence(m.featureNames.value, DeclaredFeatures)
  {
    KeepAvailableIsSubsequence(DeclaredFeatures, available);
    Model(Some(KeepAvailable(DeclaredFeatures, available)), predict)
  }

  /** The three feature lists (training, the API's dictionary, the batch script) are one list. */
  lemma FeatureListsAgree()
    ensures DeclaredFeatures == ConstructionOrder == Batch.FeatureColumns
    ensures Distinct(DeclaredFeatures)
  {
    DeclaredFeaturesDistinct();
  }

  /** Trained on a frame with every declared column, the classifier declares exactly the list the API builds. */
  lemma TrainedOnEveryFeature(available: set<string>, predict: Sample -> Reply)
    requires forall n :: n in DeclaredFeatures ==> n in available
    ensures Trained(available, predict).featureNames == Some(ConstructionOrder)
  {
    KeepAllAvailable(DeclaredFeatures, available);
    FeatureListsAgree();
  }

  /**
   * Whatever columns the training frame had, the API's prepared row for a
   * known team colour is laid out exactly as the trained classifier
   * declares, so the classifier accepts it.
   */
  lemma ServedRowIsAccepted(available: set<string>, predict: Sample -> Reply, m: MatchInput, teamEncoder: LabelEncoder)
    requires NormalizeTeamColor(m.teamColor) in teamEncoder.classes
    ensures var model := Trained(available, predict);
      var x := PrepareFeatures(m, teamEncoder, model.featureNames);
      x.Success? && Accepts(model, x.value)
  {
    var model := Trained(available, predict);
    FeatureListsAgree();
    assert forall n :: n in model.featureNames.value ==> n in ConstructionOrder;
  }

  /**
   * The batch script always sends its fixed eight columns, so a classifier
   * trained by the script accepts a batch row exactly when the training
   * frame had every declared column.
   */
  lemma BatchRowAcceptedIffFullTraining(available: set<string>, predict: Sample -> Reply, values: seq<Value>)
    ensures Accepts(Trained(available, predict), Sample(Batch.FeatureColumns, values))
        <==> forall n :: n in DeclaredFeatures ==> n in available
  {
    var model := Trained(available, predict);
    FeatureListsAgree();
    if forall n :: n in DeclaredFeatures ==> n in available {
      TrainedOnEveryFeature(available, predict);
    } else {
      var n :| n in DeclaredFeatures && n !in available;
      assert n !in model.featureNames.value;
      assert n in Batch.FeatureColumns;
    }
  }
}
