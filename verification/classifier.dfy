/**
 * The pre-trained classifier, kept opaque: its declared feature names (the
 * artifact's `feature_names_in_`, when it has them) and a function from one
 * feature row to the class code and per-class probabilities that
 * `predict` / `predict_proba` return for it, or to a raised exception.
 */
module Classifier {
  import opened Wrappers
  import opened Errors
  import opened Frames

  datatype Reply = Reply(code: int, probs: seq<real>) | Raised

  datatype Model = Model(featureNames: Option<seq<string>>, predict: Sample -> Reply)

  /** A sample laid out as the classifier declares its features. */
  predicate Accepts(m: Model, s: Sample) {
    m.featureNames.None? || s.columns == m.featureNames.value
  }

  /**
   * What the artifacts promise on an accepted sample: a class code of the
   * outcome encoder and one probability in [0, 1] per encoder class.
   */
  ghost predicate WellBehaved(m: Model, classCount: nat) {
    forall s :: Accepts(m, s) ==> ValidReply(m.predict(s), classCount)
  }

  predicate ValidReply(r: Reply, classCount: nat) {
    && r.Reply?
    && 0 <= r.code < classCount
    && |r.probs| == classCount
    && forall i :: 0 <= i < |r.probs| ==> 0.0 <= r.probs[i] <= 1.0
  }

  /** The classifier's answer for one sample; an exception inside it is an error. */
  function Classify(m: Model, s: Sample): (r: Result<Reply, Error>)
    ensures r.Success? <==> m.predict(s).Reply?
    ensures r.Success? ==> r.value == m.predict(s) && r.value.Reply?
    ensures r.Failure? ==> r.error == ClassifierFailed
  {
    match m.predict(s)
    case Raised => Failure(ClassifierFailed)
    case Reply(c, ps) => Success(Reply(c, ps))
  }

  /** Python's `max` of a non-empty probability vector. */
  function MaxProb(ps: seq<real>): (r: real)
    requires |ps| > 0
    ensures r in ps
    ensures forall i :: 0 <= i < |ps| ==> ps[i] <= r
  {
    if |ps| == 1 then ps[0]
    else
      var m := MaxProb(ps[1..]);
      if ps[0] >= m then ps[0] else m
  }

  /** `float(max(probabilities))`: the largest class probability; `max` of nothing raises. */
  function Confidence(ps: seq<real>): (r: Result<real, Error>)
    ensures r.Success? <==> |ps| > 0
    ensures r.Success? ==> r.value in ps && forall i :: 0 <= i < |ps| ==> ps[i] <= r.value
    ensures r.Failure? ==> r.error == EmptyProbabilities
  {
    if |ps| == 0 then Failure(EmptyProbabilities) else Success(MaxProb(ps))
  }

  /** Probabilities in [0, 1] give a confidence in [0, 1]. */
  lemma ConfidenceInUnitInterval(ps: seq<real>)
    requires |ps| > 0
    requires forall i :: 0 <= i < |ps| ==> 0.0 <= ps[i] <= 1.0
    ensures 0.0 <= Confidence(ps).value <= 1.0
  {
  }
}
