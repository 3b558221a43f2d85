/**
 * The training script's feature list and its availability filter
 * (`[f for f in features if f in df.columns]`). Fitting the classifier is
 * not part of this model.
 */
module Training {
  import opened Frames

  /** The declared features, in the order the classifier is trained on. */
  const DeclaredFeatures: seq<string> := [
    "team_color_encoded",
    "goal_difference",
    "match_duration",
    "mode_Duel",
    "mode_Doubles",
    "mode_Standard",
    "is_competitive",
    "overtime"
  ]

  lemma DeclaredFeaturesDistinct()
    ensures |DeclaredFeatures| == 8
    ensures Distinct(DeclaredFeatures)
  {
  }

  /** `xs` can be obtained from `ys` by deleting elements. */
  predicate IsSubsequence<T(==)>(xs: seq<T>, ys: seq<T>)
    decreases |ys|
  {
    if xs == [] then true
    else if ys == [] then false
    else if xs[0] == ys[0] then IsSubsequence(xs[1..], ys[1..])
    else IsSubsequence(xs, ys[1..])
  }

  /** The declared names that are available, in declared order. */
  function KeepAvailable(declared: seq<string>, available: set<string>): (r: seq<string>)
    ensures forall x :: x in r <==> x in declared && x in available
    ensures |r| <= |declared|
  {
    if declared == [] then []
    else (if declared[0] in available then [declared[0]] else []) + KeepAvailable(declared[1..], available)
  }

  /** The filter keeps the declared relative order. */
  lemma {:induction false} KeepAvailableIsSubsequence(declared: seq<string>, available: set<string>)
    ensures IsSubsequence(KeepAvailable(declared, available), declared)
  {
    if declared != [] {
      var rest := KeepAvailable(declared[1..], available);
      KeepAvailableIsSubsequence(declared[1..], available);
      if declared[0] in available {
        assert KeepAvailable(declared, available) == [declared[0]] + rest;
        assert ([declared[0]] + rest)[1..] == rest;
      } else {
        assert KeepAvailable(declared, available) == rest;
        SubsequenceOfTail(rest, declared);
      }
    }
  }

  lemma {:induction false} SubsequenceOfTail<T>(xs: seq<T>, ys: seq<T>)
    requires ys != [] && IsSubsequence(xs, ys[1..])
    ensures IsSubsequence(xs, ys)
    decreases |ys|, 0
  {
    if xs != [] && xs[0] == ys[0] {
      if |ys| > 1 {
        SubsequenceDropHead(xs, ys[1..]);
      }
    }
  }

  lemma {:induction false} SubsequenceDropHead<T>(xs: seq<T>, ys: seq<T>)
    requires xs != [] && IsSubsequence(xs, ys)
    ensures IsSubsequence(xs[1..], ys)
    decreases |ys|, 1
  {
    if xs[0] == ys[0] {
      if xs[1..] != [] {
        SubsequenceOfTail(xs[1..], ys);
      }
    } else {
      SubsequenceDropHead(xs, ys[1..]);
      if xs[1..] != [] {
        SubsequenceOfTail(xs[1..], ys);
      }
    }
  }

  /** A filter that drops nothing returns the declared list itself. */
  lemma {:induction false} KeepAllAvailable(declared: seq<string>, available: set<string>)
    requires forall x :: x in declared ==> x in available
    ensures KeepAvailable(declared, available) == declared
  {
    if declared != [] {
      KeepAllAvailable(declared[1..], available);
      assert [declared[0]] + declared[1..] == declared;
    }
  }

  /** Filtering a list of distinct names keeps them distinct. */
  lemma {:induction false} KeepAvailableDistinct(declared: seq<string>, available: set<string>)
    requires Distinct(declared)
    ensures Distinct(KeepAvailable(declared, available))
  {
    if declared != [] {
      assert Distinct(declared[1..]);
      KeepAvailableDistinct(declared[1..], available);
      var rest := KeepAvailable(declared[1..], available);
      assert declared[0] !in declared[1..];
      assert declared[0] !in rest;
    }
  }
}
