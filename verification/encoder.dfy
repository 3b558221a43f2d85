/**
 * A fitted label encoder (scikit-learn's `LabelEncoder` after `fit`): an
 * ordered sequence of class labels, a label's code being its position.
 */
module Encoder {
  import opened Wrappers
  import opened Errors
  import opened Frames

  datatype LabelEncoder = LabelEncoder(classes: seq<string>)

  /** Fitting yields each class once. */
  predicate Fitted(e: LabelEncoder) {
    Distinct(e.classes)
  }

  /** `transform([label])[0]`: fails for a label the encoder was not fitted on. */
  function Transform(e: LabelEncoder, category: string): (r: Result<nat, Error>)
    ensures r.Success? <==> category in e.classes
    ensures r.Success? ==> r.value < |e.classes| && e.classes[r.value] == category
    ensures r.Failure? ==> r.error == UnknownCategory(category)
  {
    if category in e.classes then Success(IndexOf(e.classes, category)) else Failure(UnknownCategory(category))
  }

  /** `inverse_transform([code])[0]`: fails for a code outside the classes. */
  function InverseTransform(e: LabelEncoder, code: int): (r: Result<string, Error>)
    ensures r.Success? <==> 0 <= code < |e.classes|
    ensures r.Success? ==> r.value == e.classes[code]
    ensures r.Failure? ==> r.error == InvalidCode(code)
  {
    if 0 <= code < |e.classes| then Success(e.classes[code]) else Failure(InvalidCode(code))
  }

  /** Decoding the code of a known label gives the label back. */
  lemma DecodeEncode(e: LabelEncoder, category: string)
    requires category in e.classes
    ensures Transform(e, category).Success?
    ensures InverseTransform(e, Transform(e, category).value) == Success(category)
  {
  }

  /** Encoding the label of a valid code gives the code back. */
  lemma EncodeDecode(e: LabelEncoder, code: int)
    requires Fitted(e) && 0 <= code < |e.classes|
    ensures InverseTransform(e, code).Success?
    ensures Transform(e, InverseTransform(e, code).value) == Success(code)
  {
    IndexOfDistinct(e.classes, code);
  }
}
