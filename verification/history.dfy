/**
 * Feature derivation on the historical table (`create_features`):
 * right-closed binning of goal difference and match duration (the default of
 * `pd.cut`), a competitiveness flag from the goal difference, and a combined
 * team-and-mode string. Four columns are added or overwritten; nothing else
 * changes.
 */
module History {
  import opened Wrappers
  import opened Errors
  import opened Frames

  /* ---------- right-closed binning ---------- */

  predicate Increasing(edges: seq<int>) {
    forall i, j :: 0 <= i < j < |edges| ==> edges[i] < edges[j]
  }

  /**
   * The bin of `x` when the bins are (-inf, e0], (e0, e1], ..., (ek, +inf):
   * the number of edges strictly below `x`.
   */
  function CutIndex(edges: seq<int>, x: int): (k: nat)
    ensures k <= |edges|
  {
    if edges == [] then 0 else (if edges[0] < x then 1 else 0) + CutIndex(edges[1..], x)
  }

  lemma {:induction false} CutIndexNone(edges: seq<int>, x: int)
    requires forall i :: 0 <= i < |edges| ==> x <= edges[i]
    ensures CutIndex(edges, x) == 0
  {
    if edges != [] {
      CutIndexNone(edges[1..], x);
    }
  }

  /** `x` lies in the right-closed bin `CutIndex` names. */
  lemma {:induction false} CutIndexBin(edges: seq<int>, x: int)
    requires Increasing(edges)
    ensures var k := CutIndex(edges, x);
      && (k == 0 || edges[k - 1] < x)
      && (k == |edges| || x <= edges[k])
  {
    if edges != [] {
      var rest := edges[1..];
      assert Increasing(rest);
      CutIndexBin(rest, x);
      if !(edges[0] < x) {
        CutIndexNone(rest, x);
      }
    }
  }

  /** A larger value never falls in an earlier bin. */
  lemma {:induction false} CutIndexMonotone(edges: seq<int>, x: int, y: int)
    requires x <= y
    ensures CutIndex(edges, x) <= CutIndex(edges, y)
  {
    if edges != [] {
      CutIndexMonotone(edges[1..], x, y);
    }
  }

  /* ---------- goal-difference category ---------- */

  datatype Category = LargeLoss | SmallLoss | Close | SmallWin | LargeWin

  function CategoryName(c: Category): string {
    match c
    case LargeLoss => "large_loss"
    case SmallLoss => "small_loss"
    case Close => "close"
    case SmallWin => "small_win"
    case LargeWin => "large_win"
  }

  /** Position in the label order large_loss < small_loss < close < small_win < large_win. */
  function Rank(c: Category): nat {
    match c
    case LargeLoss => 0
    case SmallLoss => 1
    case Close => 2
    case SmallWin => 3
    case LargeWin => 4
  }

  /** The finite edges of `bins=[-inf, -3, -1, 1, 3, inf]` and the labels of the bins between them. */
  const GoalEdges: seq<int> := [-3, -1, 1, 3]
  const Categories: seq<Category> := [LargeLoss, SmallLoss, Close, SmallWin, LargeWin]

  /** The category of a goal difference; total over the integers. */
  function GoalDiffCategory(d: int): (c: Category)
    ensures c == LargeLoss <==> d <= -3
    ensures c == SmallLoss <==> -3 < d <= -1
    ensures c == Close <==> -1 < d <= 1
    ensures c == SmallWin <==> 1 < d <= 3
    ensures c == LargeWin <==> 3 < d
  {
    CutIndexBin(GoalEdges, d);
    Categories[CutIndex(GoalEdges, d)]
  }

  /** The bins are right-closed, hence asymmetric around zero. */
  lemma CategoryAsymmetry()
    ensures GoalDiffCategory(-1) == SmallLoss && GoalDiffCategory(1) == Close
    ensures GoalDiffCategory(-3) == LargeLoss && GoalDiffCategory(3) == SmallWin
  {
  }

  /** The category never decreases as the goal difference grows. */
  lemma CategoryMonotone(d1: int, d2: int)
    requires d1 <= d2
    ensures Rank(GoalDiffCategory(d1)) <= Rank(GoalDiffCategory(d2))
  {
    CutIndexMonotone(GoalEdges, d1, d2);
    assert forall k :: 0 <= k < |Categories| ==> Rank(Categories[k]) == k;
  }

  /* ---------- duration bucket ---------- */

  datatype Bucket = Short | Normal | Long | VeryLong

  function BucketName(b: Bucket): string {
    match b
    case Short => "short"
    case Normal => "normal"
    case Long => "long"
    case VeryLong => "very_long"
  }

  /** `bins=[0, 300, 360, 420, inf]`: a lower edge of 0 (excluded), then these edges. */
  const DurationEdges: seq<int> := [300, 360, 420]
  const Buckets: seq<Bucket> := [Short, Normal, Long, VeryLong]

  /** The bucket of a duration; a duration of 0 or less is outside every bin. */
  function DurationBucket(t: int): (b: Option<Bucket>)
    ensures b.None? <==> t <= 0
    ensures b == Some(Short) <==> 0 < t <= 300
    ensures b == Some(Normal) <==> 300 < t <= 360
    ensures b == Some(Long) <==> 360 < t <= 420
    ensures b == Some(VeryLong) <==> 420 < t
  {
    CutIndexBin(DurationEdges, t);
    if t <= 0 then None else Some(Buckets[CutIndex(DurationEdges, t)])
  }

  /* ---------- competitiveness and team/mode ---------- */

  /** `(abs(d) <= 2).astype(int)` */
  function Competitive(d: int): (r: int)
    ensures r == 0 || r == 1
    ensures r == 1 <==> -2 <= d <= 2
  {
    if (if d < 0 then -d else d) <= 2 then 1 else 0
  }

  /**
   * A competitive match is close or a small margin; a close match is always
   * competitive; a large margin never is.
   */
  lemma CompetitiveVersusCategory(d: int)
    ensures Competitive(d) == 1 ==> GoalDiffCategory(d) in {SmallLoss, Close, SmallWin}
    ensures GoalDiffCategory(d) == Close ==> Competitive(d) == 1
    ensures GoalDiffCategory(d) in {LargeLoss, LargeWin} ==> Competitive(d) == 0
  {
  }

  /** `team_color + '_' + game_mode` */
  function TeamMode(color: string, mode: string): (r: string)
    ensures |r| == |color| + 1 + |mode|
    ensures r[..|color|] == color && r[|color|] == '_' && r[|color| + 1..] == mode
  {
    color + "_" + mode
  }

  /** For colours without an underscore the combined string determines both parts. */
  lemma TeamModeInjective(a: string, m: string, b: string, n: string)
    requires '_' !in a && '_' !in b
    requires TeamMode(a, m) == TeamMode(b, n)
    ensures a == b && m == n
  {
  }

  /* ---------- the table operation ---------- */

  const DerivedColumns: seq<string> := ["goal_diff_category", "duration_bucket", "is_competitive", "team_mode"]

  /** The category cell of a goal-difference cell (strings cannot be binned). */
  function CategoryCell(v: Value): Value
    requires !v.Str?
  {
    if v.Int? then Str(CategoryName(GoalDiffCategory(v.i))) else Null
  }

  /** The bucket cell of a duration cell; out-of-range durations give a missing value. */
  function BucketCell(v: Value): Value
    requires !v.Str?
  {
    if v.Int? && DurationBucket(v.i).Some? then Str(BucketName(DurationBucket(v.i).value)) else Null
  }

  /** The competitiveness cell; a missing goal difference compares false and gives 0. */
  function CompetitiveCell(v: Value): Value
    requires !v.Str?
  {
    if v.Int? then Int(Competitive(v.i)) else Int(0)
  }

  /** String concatenation of the two cells; a missing value propagates. */
  function TeamModeCell(color: Value, mode: Value): Value
    requires !color.Int? && !mode.Int?
  {
    if color.Null? || mode.Null? then Null else Str(TeamMode(color.s, mode.s))
  }

  predicate NoStrings(f: Frame, name: string)
    requires WellFormed(f) && name in f.columns
  {
    forall i :: 0 <= i < |f.rows| ==> !Cell(f, i, name).Str?
  }

  predicate NoNumbers(f: Frame, name: string)
    requires WellFormed(f) && name in f.columns
  {
    forall i :: 0 <= i < |f.rows| ==> !Cell(f, i, name).Int?
  }

  /**
   * Some cell of the column is a string. A non-empty column with none (every
   * cell missing) has a float dtype, and adding a string to it raises.
   */
  predicate SomeString(f: Frame, name: string)
    requires WellFormed(f) && name in f.columns
  {
    exists i :: 0 <= i < |f.rows| && Cell(f, i, name).Str?
  }

  /** The colour column can be concatenated with "_": no number in it, and a string unless it is empty. */
  predicate ConcatenableColour(f: Frame)
    requires WellFormed(f) && "team_color" in f.columns
  {
    NoNumbers(f, "team_color") && (|f.rows| > 0 ==> SomeString(f, "team_color"))
  }

  /**
   * The tables `create_features` can process: the four source columns exist and hold usable cells.
   * An all-missing `game_mode` column is usable: an object column plus a float one
   * only combines the rows where both are present.
   */
  predicate Processable(f: Frame)
    requires WellFormed(f)
  {
    && "goal_difference" in f.columns && NoStrings(f, "goal_difference")
    && "match_duration" in f.columns && NoStrings(f, "match_duration")
    && "team_color" in f.columns && ConcatenableColour(f)
    && "game_mode" in f.columns && NoNumbers(f, "game_mode")
  }

  /**
   * The exception `create_features` raises, in the order its statements meet
   * them: a `KeyError` for an absent column, a `TypeError` for a string to
   * bin or a number to concatenate.
   */
  function ProcessingError(f: Frame): (e: Option<Error>)
    requires WellFormed(f)
    ensures e.None? <==> Processable(f)
    ensures e.Some? ==> e.value.MissingColumn? || e.value.WrongType?
  {
    if "goal_difference" !in f.columns then Some(MissingColumn("goal_difference"))
    else if !NoStrings(f, "goal_difference") then Some(WrongType("goal_difference"))
    else if "match_duration" !in f.columns then Some(MissingColumn("match_duration"))
    else if !NoStrings(f, "match_duration") then Some(WrongType("match_duration"))
    else if "team_color" !in f.columns then Some(MissingColumn("team_color"))
    else if !ConcatenableColour(f) then Some(WrongType("team_color"))
    else if "game_mode" !in f.columns then Some(MissingColumn("game_mode"))
    else if !NoNumbers(f, "game_mode") then Some(WrongType("game_mode"))
    else None
  }

  /** Assigning the four derived columns, in the source's order. */
  function WriteDerived(f: Frame, categories: seq<Value>, buckets: seq<Value>, flags: seq<Value>, combined: seq<Value>): (r: Frame)
    requires WellFormed(f)
    requires |categories| == |buckets| == |flags| == |combined| == |f.rows|
    ensures WellFormed(r) && |r.rows| == |f.rows|
  {
    var f1 := SetColumn(f, "goal_diff_category", categories);
    var f2 := SetColumn(f1, "duration_bucket", buckets);
    var f3 := SetColumn(f2, "is_competitive", flags);
    SetColumn(f3, "team_mode", combined)
  }

  /** Column names after one assignment: the old ones first, at most one more, which is the assigned one. */
  lemma SetColumnNames(f: Frame, name: string, values: seq<Value>)
    requires WellFormed(f) && |values| == |f.rows|
    ensures var r := SetColumn(f, name, values);
      && |f.columns| <= |r.columns| <= |f.columns| + 1
      && r.columns[..|f.columns|] == f.columns
      && forall c :: c in r.columns ==> c in f.columns || c == name
  {
  }

  lemma {:induction false} PrefixTransitive(a: seq<string>, b: seq<string>, c: seq<string>)
    requires |a| <= |b| <= |c| && b[..|a|] == a && c[..|b|] == b
    ensures c[..|a|] == a
  {
    assert c[..|a|] == c[..|b|][..|a|];
  }

  lemma DerivedNames()
    ensures "goal_diff_category" in DerivedColumns && "duration_bucket" in DerivedColumns
    ensures "is_competitive" in DerivedColumns && "team_mode" in DerivedColumns
  {
  }

  lemma WriteDerivedColumns(f: Frame, categories: seq<Value>, buckets: seq<Value>, flags: seq<Value>, combined: seq<Value>)
    requires WellFormed(f)
    requires |categories| == |buckets| == |flags| == |combined| == |f.rows|
    ensures var r := WriteDerived(f, categories, buckets, flags, combined);
      && |f.columns| <= |r.columns| <= |f.columns| + 4
      && r.columns[..|f.columns|] == f.columns
      && forall c :: c in r.columns ==> c in f.columns || c in DerivedColumns
  {
    var f1 := SetColumn(f, "goal_diff_category", categories);
    var f2 := SetColumn(f1, "duration_bucket", buckets);
    var f3 := SetColumn(f2, "is_competitive", flags);
    var r := SetColumn(f3, "team_mode", combined);
    SetColumnNames(f, "goal_diff_category", categories);
    SetColumnNames(f1, "duration_bucket", buckets);
    SetColumnNames(f2, "is_competitive", flags);
    SetColumnNames(f3, "team_mode", combined);
    PrefixTransitive(f.columns, f1.columns, f2.columns);
    PrefixTransitive(f.columns, f2.columns, f3.columns);
    PrefixTransitive(f.columns, f3.columns, r.columns);
    DerivedNames();
  }

  /** One cell after the four assignments. */
  lemma WriteDerivedCell(f: Frame, categories: seq<Value>, buckets: seq<Value>, flags: seq<Value>, combined: seq<Value>, i: nat, c: string)
    requires WellFormed(f)
    requires |categories| == |buckets| == |flags| == |combined| == |f.rows|
    requires i < |f.rows|
    requires c in f.columns || c in DerivedColumns
    ensures var r := WriteDerived(f, categories, buckets, flags, combined);
      && c in r.columns
      && Cell(r, i, c) ==
           if c == "goal_diff_category" then categories[i]
           else if c == "duration_bucket" then buckets[i]
           else if c == "is_competitive" then flags[i]
           else if c == "team_mode" then combined[i]
           else Cell(f, i, c)
  {
    var f1 := SetColumn(f, "goal_diff_category", categories);
    var f2 := SetColumn(f1, "duration_bucket", buckets);
    var f3 := SetColumn(f2, "is_competitive", flags);
    var r := SetColumn(f3, "team_mode", combined);
    assert c in f.columns ==> c in f1.columns && c in f2.columns && c in f3.columns;
    if c == "team_mode" {
    } else if c == "is_competitive" {
      assert Cell(r, i, c) == Cell(f3, i, c);
    } else if c == "duration_bucket" {
      assert Cell(r, i, c) == Cell(f3, i, c) == Cell(f2, i, c);
    } else if c == "goal_diff_category" {
      assert Cell(r, i, c) == Cell(f3, i, c) == Cell(f2, i, c) == Cell(f1, i, c);
    } else {
      assert Cell(r, i, c) == Cell(f3, i, c) == Cell(f2, i, c) == Cell(f1, i, c) == Cell(f, i, c);
    }
  }

  /** The four derived columns of a processable table. */
  function DerivedCells(f: Frame): (cs: (seq<Value>, seq<Value>, seq<Value>, seq<Value>))
    requires WellFormed(f) && Processable(f)
    ensures |cs.0| == |cs.1| == |cs.2| == |cs.3| == |f.rows|
    ensures forall i :: 0 <= i < |f.rows| ==>
      && cs.0[i] == CategoryCell(Cell(f, i, "goal_difference"))
      && cs.1[i] == BucketCell(Cell(f, i, "match_duration"))
      && cs.2[i] == CompetitiveCell(Cell(f, i, "goal_difference"))
      && cs.3[i] == TeamModeCell(Cell(f, i, "team_color"), Cell(f, i, "game_mode"))
  {
    var n := |f.rows|;
    (seq(n, i requires 0 <= i < n => CategoryCell(Cell(f, i, "goal_difference"))),
     seq(n, i requires 0 <= i < n => BucketCell(Cell(f, i, "match_duration"))),
     seq(n, i requires 0 <= i < n => CompetitiveCell(Cell(f, i, "goal_difference"))),
     seq(n, i requires 0 <= i < n => TeamModeCell(Cell(f, i, "team_color"), Cell(f, i, "game_mode"))))
  }

  /** `create_features` */
  function CreateFeatures(f: Frame): (r: Result<Frame, Error>)
    requires WellFormed(f)
    ensures r.Success? <==> Processable(f)
    ensures r.Failure? ==> Some(r.error) == ProcessingError(f)
    ensures r.Success? ==> WellFormed(r.value) && |r.value.rows| == |f.rows|
  {
    match ProcessingError(f)
    case Some(e) => Failure(e)
    case None =>
      var cs := DerivedCells(f);
      Success(WriteDerived(f, cs.0, cs.1, cs.2, cs.3))
  }

  /**
   * Row count and every original column are kept; only the four derived
   * columns are added (after the others) or overwritten in place.
   */
  lemma CreateFeaturesPreserves(f: Frame)
    requires WellFormed(f) && Processable(f)
    ensures var r := CreateFeatures(f).value;
      && |r.rows| == |f.rows|
      && |f.columns| <= |r.columns| <= |f.columns| + 4
      && r.columns[..|f.columns|] == f.columns
      && (forall c :: c in r.columns ==> c in f.columns || c in DerivedColumns)
      && forall i, c :: 0 <= i < |f.rows| && c in f.columns && c !in DerivedColumns ==> Cell(r, i, c) == Cell(f, i, c)
  {
    var cs := DerivedCells(f);
    WriteDerivedColumns(f, cs.0, cs.1, cs.2, cs.3);
    forall i, c | 0 <= i < |f.rows| && c in f.columns && c !in DerivedColumns
      ensures Cell(CreateFeatures(f).value, i, c) == Cell(f, i, c)
    {
      WriteDerivedCell(f, cs.0, cs.1, cs.2, cs.3, i, c);
    }
  }

  /** Each derived cell of row `i` is computed from that row's source cells. */
  lemma CreateFeaturesCells(f: Frame, i: nat)
    requires WellFormed(f) && Processable(f) && i < |f.rows|
    ensures var r := CreateFeatures(f).value;
      && Cell(r, i, "goal_diff_category") == CategoryCell(Cell(f, i, "goal_difference"))
      && Cell(r, i, "duration_bucket") == BucketCell(Cell(f, i, "match_duration"))
      && Cell(r, i, "is_competitive") == CompetitiveCell(Cell(f, i, "goal_difference"))
      && Cell(r, i, "team_mode") == TeamModeCell(Cell(f, i, "team_color"), Cell(f, i, "game_mode"))
  {
    var cs := DerivedCells(f);
    assert DerivedColumns[0] == "goal_diff_category" && DerivedColumns[1] == "duration_bucket";
    assert DerivedColumns[2] == "is_competitive" && DerivedColumns[3] == "team_mode";
    WriteDerivedCell(f, cs.0, cs.1, cs.2, cs.3, i, "goal_diff_category");
    WriteDerivedCell(f, cs.0, cs.1, cs.2, cs.3, i, "duration_bucket");
    WriteDerivedCell(f, cs.0, cs.1, cs.2, cs.3, i, "is_competitive");
    WriteDerivedCell(f, cs.0, cs.1, cs.2, cs.3, i, "team_mode");
  }

  /** The four derived cells of one row, stated in terms of the row's values. */
  lemma CreateFeaturesRow(f: Frame, i: nat)
    requires WellFormed(f) && Processable(f) && i < |f.rows|
    ensures var r := CreateFeatures(f).value;
      && (Cell(f, i, "goal_difference").Int? ==>
            var d := Cell(f, i, "goal_difference").i;
            && Cell(r, i, "goal_diff_category") == Str(CategoryName(GoalDiffCategory(d)))
            && Cell(r, i, "is_competitive") == Int(if -2 <= d <= 2 then 1 else 0))
      && (Cell(f, i, "goal_difference").Null? ==>
            Cell(r, i, "goal_diff_category") == Null && Cell(r, i, "is_competitive") == Int(0))
      && (Cell(f, i, "match_duration").Int? ==>
            var t := Cell(f, i, "match_duration").i;
            Cell(r, i, "duration_bucket") == if t <= 0 then Null else Str(BucketName(DurationBucket(t).value)))
      && (Cell(f, i, "team_color").Str? && Cell(f, i, "game_mode").Str? ==>
            Cell(r, i, "team_mode") == Str(Cell(f, i, "team_color").s + "_" + Cell(f, i, "game_mode").s))
  {
    CreateFeaturesCells(f, i);
    var r := CreateFeatures(f).value;
    var g := Cell(f, i, "goal_difference");
    if g.Int? {
      assert CompetitiveCell(g) == Int(Competitive(g.i));
    }
    var t := Cell(f, i, "match_duration");
    if t.Int? {
      assert BucketCell(t) == if t.i <= 0 then Null else Str(BucketName(DurationBucket(t.i).value));
    }
  }

  /**
   * A non-empty table whose colours are all missing fails at the concatenation,
   * whatever its modes, while an all-missing mode column does not stop it.
   */
  lemma AllMissingColourFails(f: Frame)
    requires WellFormed(f) && |f.rows| > 0
    requires "goal_difference" in f.columns && NoStrings(f, "goal_difference")
    requires "match_duration" in f.columns && NoStrings(f, "match_duration")
    requires "team_color" in f.columns && forall i :: 0 <= i < |f.rows| ==> Cell(f, i, "team_color").Null?
    ensures CreateFeatures(f) == Failure(WrongType("team_color"))
  {
    assert !SomeString(f, "team_color");
  }

  lemma AllMissingModeIsProcessable(f: Frame)
    requires WellFormed(f)
    requires "goal_difference" in f.columns && NoStrings(f, "goal_difference")
    requires "match_duration" in f.columns && NoStrings(f, "match_duration")
    requires "team_color" in f.columns && ConcatenableColour(f)
    requires "game_mode" in f.columns && forall i :: 0 <= i < |f.rows| ==> Cell(f, i, "game_mode").Null?
    ensures CreateFeatures(f).Success?
    ensures forall i :: 0 <= i < |f.rows| ==> Cell(CreateFeatures(f).value, i, "team_mode") == Null
  {
    forall i | 0 <= i < |f.rows|
      ensures Cell(CreateFeatures(f).value, i, "team_mode") == Null
    {
      CreateFeaturesCells(f, i);
    }
  }
}
