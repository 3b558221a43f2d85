/**
 * The prediction endpoint's pipeline (`predict_winner`): assemble the
 * features, ask the classifier, decode and normalise the predicted class,
 * pair every normalised class with its probability, and report the largest
 * probability as the confidence. Any failure becomes an HTTP 500.
 */
module Inference {
  import opened Wrappers
  import opened Errors
  import opened Labels
  import opened Frames
  import opened Encoder
  import opened Classifier
  import opened Serving

  datatype Prediction = Prediction(
    winner: string,                      // both "winner_prediction" and "predicted_winner"
    confidence: real,
    probabilities: map<string, real>,
    input: MatchInput)

  datatype Response<T> = Ok(body: T) | HttpError(status: int, detail: string)

  const PredictErrorPrefix: string := "Error en predicción: "

  /** The outcome encoder's classes, each normalised. */
  function NormalizedClasses(e: LabelEncoder): (r: seq<string>)
    ensures |r| == |e.classes|
    ensures forall i :: 0 <= i < |r| ==> r[i] == NormalizeWinner(e.classes[i])
  {
    seq(|e.classes|, i requires 0 <= i < |e.classes| => NormalizeWinner(e.classes[i]))
  }

  /** No later label repeats the one at `i`. */
  predicate LastOccurrence(labels: seq<string>, i: nat)
    requires i < |labels|
  {
    forall j :: i < j < |labels| ==> labels[j] != labels[i]
  }

  /**
   * `{labels[i]: probs[i] for i in range(len(labels))}`: the entries are
   * written in order, so a repeated label keeps its last probability.
   */
  function ProbabilityMap(labels: seq<string>, probs: seq<real>): (r: map<string, real>)
    requires |probs| >= |labels|
    ensures forall l :: l in r <==> l in labels
  {
    if labels == [] then map[]
    else
      var k := |labels| - 1;
      assert forall l :: l in labels <==> l in labels[..k] || l == labels[k];
      ProbabilityMap(labels[..k], probs)[labels[k] := probs[k]]
  }

  /** Every label is paired with the probability at its last occurrence. */
  lemma {:induction false} ProbabilityMapLast(labels: seq<string>, probs: seq<real>, i: nat)
    requires |probs| >= |labels| && i < |labels| && LastOccurrence(labels, i)
    ensures ProbabilityMap(labels, probs)[labels[i]] == probs[i]
  {
    var k := |labels| - 1;
    if i < k {
      assert labels[..k][i] == labels[i];
      assert LastOccurrence(labels[..k], i);
      ProbabilityMapLast(labels[..k], probs, i);
      assert labels[k] != labels[i];
    }
  }

  /** With distinct labels each probability is found under its own label. */
  lemma ProbabilityMapDistinct(labels: seq<string>, probs: seq<real>)
    requires |probs| >= |labels| && Distinct(labels)
    ensures forall i :: 0 <= i < |labels| ==> ProbabilityMap(labels, probs)[labels[i]] == probs[i]
  {
    forall i | 0 <= i < |labels| ensures ProbabilityMap(labels, probs)[labels[i]] == probs[i] {
      ProbabilityMapLast(labels, probs, i);
    }
  }

  /** Decoding one classifier reply, in the order of the source's statements. */
  function DecodeReply(winnerEncoder: LabelEncoder, reply: Reply, m: MatchInput): (r: Result<Prediction, Error>)
    requires reply.Reply?
    ensures r.Success? <==> 0 <= reply.code < |winnerEncoder.classes| && |reply.probs| >= |winnerEncoder.classes|
    ensures r.Failure? && !(0 <= reply.code < |winnerEncoder.classes|) ==> r.error == InvalidCode(reply.code)
    ensures r.Failure? && 0 <= reply.code < |winnerEncoder.classes| ==> r.error == ShortProbabilities
    ensures r.Success? ==>
      && r.value.winner == NormalizedClasses(winnerEncoder)[reply.code]
      && r.value.confidence in reply.probs
      && (forall i :: 0 <= i < |reply.probs| ==> reply.probs[i] <= r.value.confidence)
      && (forall l :: l in r.value.probabilities <==> l in NormalizedClasses(winnerEncoder))
      && r.value.probabilities == ProbabilityMap(NormalizedClasses(winnerEncoder), reply.probs)
      && r.value.input == m
  {
    var raw :- InverseTransform(winnerEncoder, reply.code);
    var winner := NormalizeWinner(raw);
    var labels := NormalizedClasses(winnerEncoder);
    if |reply.probs| < |labels| then Failure(ShortProbabilities)
    else
      // the decoded code is a class, so there is at least one probability for `max`
      Success(Prediction(winner, MaxProb(reply.probs), ProbabilityMap(labels, reply.probs), m))
  }

  /** The pipeline up to the point where an exception would be caught. */
  function PredictOne(m: MatchInput, teamEncoder: LabelEncoder, winnerEncoder: LabelEncoder, model: Model): (r: Result<Prediction, Error>)
    ensures PrepareFeatures(m, teamEncoder, model.featureNames).Failure? ==>
      r == Failure(PrepareFeatures(m, teamEncoder, model.featureNames).error)
    ensures PrepareFeatures(m, teamEncoder, model.featureNames).Success? ==>
      var reply := model.predict(PrepareFeatures(m, teamEncoder, model.featureNames).value);
      && (reply.Raised? ==> r == Failure(ClassifierFailed))
      && (reply.Reply? ==> r == DecodeReply(winnerEncoder, reply, m))
    ensures r.Success? ==>
      var x := PrepareFeatures(m, teamEncoder, model.featureNames).value;
      && model.predict(x).Reply?
      && r == DecodeReply(winnerEncoder, model.predict(x), m)
  {
    var x :- PrepareFeatures(m, teamEncoder, model.featureNames);
    var reply :- Classify(model, x);
    DecodeReply(winnerEncoder, reply, m)
  }

  /** `predict_winner`: the prediction, or HTTP 500 with the error behind its prefix. */
  function PredictWinner(m: MatchInput, teamEncoder: LabelEncoder, winnerEncoder: LabelEncoder, model: Model): (r: Response<Prediction>)
    ensures r.HttpError? ==> r.status == 500 && |r.detail| >= |PredictErrorPrefix| && r.detail[..|PredictErrorPrefix|] == PredictErrorPrefix
    ensures r.HttpError? <==> PredictOne(m, teamEncoder, winnerEncoder, model).Failure?
    ensures r.Ok? ==> r.body == PredictOne(m, teamEncoder, winnerEncoder, model).value
  {
    match PredictOne(m, teamEncoder, winnerEncoder, model)
    case Success(p) => Ok(p)
    case Failure(e) => HttpError(500, PredictErrorPrefix + Describe(e))
  }

  /** A team colour the encoder does not know is an HTTP 500 naming the normalised colour. */
  lemma UnknownTeamColorFails(m: MatchInput, teamEncoder: LabelEncoder, winnerEncoder: LabelEncoder, model: Model)
    requires NormalizeTeamColor(m.teamColor) !in teamEncoder.classes
    ensures PredictWinner(m, teamEncoder, winnerEncoder, model)
         == HttpError(500, PredictErrorPrefix + Describe(UnknownCategory(NormalizeTeamColor(m.teamColor))))
  {
  }

  /**
   * With a classifier that keeps its promises and a known team colour, the
   * prediction succeeds: its label is a normalised outcome class, its
   * confidence is the largest probability and lies in [0, 1], and each
   * normalised class maps to its own probability when they are distinct.
   */
  lemma PredictWinnerSucceeds(m: MatchInput, teamEncoder: LabelEncoder, winnerEncoder: LabelEncoder, model: Model)
    requires WellBehaved(model, |winnerEncoder.classes|)
    requires NormalizeTeamColor(m.teamColor) in teamEncoder.classes
    requires model.featureNames.Some? ==> forall n :: n in model.featureNames.value ==> n in ConstructionOrder
    ensures var r := PredictWinner(m, teamEncoder, winnerEncoder, model);
      && r.Ok?
      && r.body.winner in NormalizedClasses(winnerEncoder)
      && 0.0 <= r.body.confidence <= 1.0
      && (Distinct(NormalizedClasses(winnerEncoder)) ==>
            var probs := model.predict(PrepareFeatures(m, teamEncoder, model.featureNames).value).probs;
            forall i :: 0 <= i < |winnerEncoder.classes| ==>
              r.body.probabilities[NormalizedClasses(winnerEncoder)[i]] == probs[i])
  {
    var x := PrepareFeatures(m, teamEncoder, model.featureNames).value;
    assert Accepts(model, x);
    var reply := model.predict(x);
    assert ValidReply(reply, |winnerEncoder.classes|);
    ConfidenceInUnitInterval(reply.probs);
    if Distinct(NormalizedClasses(winnerEncoder)) {
      ProbabilityMapDistinct(NormalizedClasses(winnerEncoder), reply.probs);
    }
  }

  /** If every outcome class is a synonym of Blue, Orange or Draw, so is every prediction. */
  lemma PredictionIsCanonical(m: MatchInput, teamEncoder: LabelEncoder, winnerEncoder: LabelEncoder, model: Model)
    requires forall c :: c in winnerEncoder.classes ==> Text.Lower(c) in BlueSynonyms + OrangeSynonyms + DrawSynonyms
    ensures var r := PredictWinner(m, teamEncoder, winnerEncoder, model);
      r.Ok? ==> r.body.winner in {"Blue", "Orange", "Draw"}
  {
  }
}
