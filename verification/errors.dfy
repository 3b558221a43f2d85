/**
 * The exceptions the pipeline can raise, as tagged values. In the Python
 * program these are library exceptions (a `ValueError` from the label
 * encoder, a `KeyError` from a column selection, an `IndexError` on the
 * probability vector); every one of them ends the current request or script.
 */
module Errors {

  datatype Error =
    | UnknownCategory(category: string)   // encoder `transform` of a label it was not fitted on
    | InvalidCode(code: int)           // encoder `inverse_transform` of a code outside the classes
    | MissingColumn(name: string)      // a column selection or read of a column that is absent
    | WrongType(column: string)        // a cell whose type the column operation cannot handle
    | ClassifierFailed                 // any exception raised inside the opaque classifier
    | ShortProbabilities               // fewer probabilities than encoder classes
    | EmptyProbabilities               // `max` of an empty probability vector
    | NoFeatureNames                   // the classifier artifact has no declared feature names
    | EmptyOutput                      // summary statistics read from an empty output table
    | NegativeCount(count: int)        // a random choice asked for a negative number of draws
    | EmptyInput                       // the classifier asked to predict a table with no rows

  /** A readable description; the library's own message text is not modelled. */
  function Describe(e: Error): string {
    match e
    case UnknownCategory(category) => "unseen label " + category
    case InvalidCode(_) => "unseen code"
    case MissingColumn(name) => "missing column " + name
    case WrongType(column) => "unsupported value in column " + column
    case ClassifierFailed => "classifier failure"
    case ShortProbabilities => "index out of range"
    case EmptyProbabilities => "max of empty sequence"
    case NoFeatureNames => "no feature names"
    case EmptyOutput => "missing column predicted_winner"
    case NegativeCount(_) => "negative dimensions are not allowed"
    case EmptyInput => "found array with 0 samples"
  }
}
