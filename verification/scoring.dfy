/**
 * The table-wide steps the two offline scoring scripts share: rebuilding
 * the `game_mode` column from the one-hot indicators, decoding an encoded
 * label column, and the vectorised classifier calls (`predict`,
 * `predict_proba`, the row-wise `max`, `inverse_transform`), each of which
 * either succeeds on every row or raises for the whole table.
 */
module Scoring {
  import opened Wrappers
  import opened Errors
  import opened Frames
  import opened Encoder
  import opened Modes
  import opened Classifier

  /** All cells of one column, top to bottom. */
  function ColumnCells(f: Frame, name: string): (cs: seq<Value>)
    requires WellFormed(f) && name in f.columns
    ensures |cs| == |f.rows| && forall i :: 0 <= i < |f.rows| ==> cs[i] == Cell(f, i, name)
  {
    seq(|f.rows|, i requires 0 <= i < |f.rows| => Cell(f, i, name))
  }

  function Strs(labels: seq<string>): (vs: seq<Value>)
    ensures |vs| == |labels| && forall i :: 0 <= i < |labels| ==> vs[i] == Str(labels[i])
  {
    seq(|labels|, i requires 0 <= i < |labels| => Str(labels[i]))
  }

  /** `reconstruct_game_mode` of row `i`: an absent indicator column reads as 0. */
  function RowMode(f: Frame, i: nat): string
    requires WellFormed(f) && i < |f.rows|
  {
    Reconstruct(CellOr(f, i, "mode_Duel", Int(0)), CellOr(f, i, "mode_Doubles", Int(0)), CellOr(f, i, "mode_Standard", Int(0)))
  }

  /** `df['game_mode'] = df.apply(reconstruct_game_mode, axis=1)` */
  function WithGameMode(f: Frame): (r: Frame)
    requires WellFormed(f)
    ensures WellFormed(r) && |r.rows| == |f.rows|
    ensures r.columns == if "game_mode" in f.columns then f.columns else f.columns + ["game_mode"]
    ensures forall i :: 0 <= i < |f.rows| ==> Cell(r, i, "game_mode") == Str(RowMode(f, i))
    ensures forall i, c :: 0 <= i < |f.rows| && c in f.columns && c != "game_mode" ==> Cell(r, i, c) == Cell(f, i, c)
  {
    SetColumn(f, "game_mode", seq(|f.rows|, i requires 0 <= i < |f.rows| => Str(RowMode(f, i))))
  }

  /** `column.astype(int)`: every cell must already be an integer. */
  function AsCodes(name: string, cells: seq<Value>): (r: Result<seq<int>, Error>)
    ensures r.Success? <==> forall i :: 0 <= i < |cells| ==> cells[i].Int?
    ensures r.Success? ==> |r.value| == |cells| && forall i :: 0 <= i < |cells| ==> cells[i] == Int(r.value[i])
    ensures r.Failure? ==> r.error == WrongType(name)
  {
    if forall i :: 0 <= i < |cells| ==> cells[i].Int? then
      Success(seq(|cells|, i requires 0 <= i < |cells| && cells[i].Int? => cells[i].i))
    else
      Failure(WrongType(name))
  }

  /** The position of the first code the encoder does not know. */
  function FirstInvalid(e: LabelEncoder, codes: seq<int>): (k: nat)
    requires exists i :: 0 <= i < |codes| && !(0 <= codes[i] < |e.classes|)
    ensures k < |codes| && !(0 <= codes[k] < |e.classes|)
  {
    if !(0 <= codes[0] < |e.classes|) then 0
    else
      assert exists i :: 0 <= i < |codes[1..]| && !(0 <= codes[1..][i] < |e.classes|) by {
        var i :| 0 <= i < |codes| && !(0 <= codes[i] < |e.classes|);
        assert codes[1..][i - 1] == codes[i];
      }
      1 + FirstInvalid(e, codes[1..])
  }

  /** Vectorised `inverse_transform`: all codes decode, or the call raises. */
  function DecodeAll(e: LabelEncoder, codes: seq<int>): (r: Result<seq<string>, Error>)
    ensures r.Success? <==> forall i :: 0 <= i < |codes| ==> 0 <= codes[i] < |e.classes|
    ensures r.Success? ==> |r.value| == |codes|
    ensures r.Success? ==> forall i :: 0 <= i < |codes| ==> InverseTransform(e, codes[i]) == Success(r.value[i])
    ensures r.Failure? ==> r.error.InvalidCode? && r.error.code in codes && !(0 <= r.error.code < |e.classes|)
  {
    if forall i :: 0 <= i < |codes| ==> 0 <= codes[i] < |e.classes| then
      Success(seq(|codes|, i requires 0 <= i < |codes| && 0 <= codes[i] < |e.classes| => e.classes[codes[i]]))
    else
      Failure(InvalidCode(codes[FirstInvalid(e, codes)]))
  }

  /** `encoder.inverse_transform(df[name].astype(int))` */
  function DecodeColumn(e: LabelEncoder, f: Frame, name: string): (r: Result<seq<string>, Error>)
    requires WellFormed(f) && name in f.columns
    ensures r.Success? <==>
      forall i :: 0 <= i < |f.rows| ==> Cell(f, i, name).Int? && 0 <= Cell(f, i, name).i < |e.classes|
    ensures r.Success? ==> |r.value| == |f.rows|
    ensures r.Success? ==> forall i :: 0 <= i < |f.rows| ==> r.value[i] == e.classes[Cell(f, i, name).i]
    ensures r.Failure? && !(forall i :: 0 <= i < |f.rows| ==> Cell(f, i, name).Int?) ==> r.error == WrongType(name)
    ensures r.Failure? && (forall i :: 0 <= i < |f.rows| ==> Cell(f, i, name).Int?) ==> r.error.InvalidCode?
  {
    var codes :- AsCodes(name, ColumnCells(f, name));
    DecodeAll(e, codes)
  }

  /** The rows of a feature table, each with the table's column names. */
  function Samples(x: Frame): (ss: seq<Sample>)
    ensures |ss| == |x.rows| && forall i :: 0 <= i < |x.rows| ==> ss[i] == Sample(x.columns, x.rows[i])
  {
    seq(|x.rows|, i requires 0 <= i < |x.rows| => Sample(x.columns, x.rows[i]))
  }

  /**
   * `model.predict(X)` and `model.predict_proba(X)` on a whole table: one
   * reply per row; a table without rows, or any row the classifier raises
   * on, makes the call raise.
   */
  function ClassifyAll(m: Model, samples: seq<Sample>): (r: Result<seq<Reply>, Error>)
    ensures r.Success? <==> |samples| > 0 && forall i :: 0 <= i < |samples| ==> m.predict(samples[i]).Reply?
    ensures r.Success? ==> |r.value| == |samples|
    ensures r.Success? ==> forall i :: 0 <= i < |samples| ==> r.value[i] == m.predict(samples[i]) && r.value[i].Reply?
    ensures r.Failure? ==> r.error == if |samples| == 0 then EmptyInput else ClassifierFailed
  {
    if |samples| == 0 then Failure(EmptyInput)
    else if forall i :: 0 <= i < |samples| ==> m.predict(samples[i]).Reply? then
      Success(seq(|samples|, i requires 0 <= i < |samples| => m.predict(samples[i])))
    else
      Failure(ClassifierFailed)
  }

  /** The predicted class code of every reply. */
  function Codes(replies: seq<Reply>): (cs: seq<int>)
    requires forall i :: 0 <= i < |replies| ==> replies[i].Reply?
    ensures |cs| == |replies| && forall i :: 0 <= i < |replies| ==> cs[i] == replies[i].code
  {
    seq(|replies|, i requires 0 <= i < |replies| && replies[i].Reply? => replies[i].code)
  }

  /** `proba.max(axis=1)`: each row's largest probability; an empty row makes it raise. */
  function RowMaxima(replies: seq<Reply>): (r: Result<seq<real>, Error>)
    requires forall i :: 0 <= i < |replies| ==> replies[i].Reply?
    ensures r.Success? <==> forall i :: 0 <= i < |replies| ==> |replies[i].probs| > 0
    ensures r.Success? ==> |r.value| == |replies|
    ensures r.Success? ==> forall i :: 0 <= i < |replies| ==>
      r.value[i] in replies[i].probs && forall j :: 0 <= j < |replies[i].probs| ==> replies[i].probs[j] <= r.value[i]
    ensures r.Failure? ==> r.error == EmptyProbabilities
  {
    if forall i :: 0 <= i < |replies| ==> |replies[i].probs| > 0 then
      Success(seq(|replies|, i requires 0 <= i < |replies| && replies[i].Reply? && |replies[i].probs| > 0 => MaxProb(replies[i].probs)))
    else
      Failure(EmptyProbabilities)
  }

  /** A well-behaved classifier's row maxima lie in [0, 1]. */
  lemma RowMaximaInUnitInterval(replies: seq<Reply>, classCount: nat)
    requires forall i :: 0 <= i < |replies| ==> replies[i].Reply? && ValidReply(replies[i], classCount)
    requires classCount > 0
    ensures RowMaxima(replies).Success?
    ensures forall i :: 0 <= i < |replies| ==> 0.0 <= RowMaxima(replies).value[i] <= 1.0
  {
    forall i | 0 <= i < |replies| ensures 0.0 <= RowMaxima(replies).value[i] <= 1.0 {
      var ps := replies[i].probs;
      var k :| 0 <= k < |ps| && ps[k] == RowMaxima(replies).value[i];
    }
  }
}
