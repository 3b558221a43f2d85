/**
 * Aggregates over a column of labels or confidences: pandas `value_counts()`
 * (kept here in order of first appearance; pandas orders by count, which
 * this model does not track) and the arithmetic mean.
 */
module Counts {
  import opened Frames

  datatype Entry = Entry(key: string, count: nat)

  /** How many times `k` occurs in `xs`. */
  function Occurrences(xs: seq<string>, k: string): nat {
    if xs == [] then 0
    else Occurrences(xs[..|xs| - 1], k) + (if xs[|xs| - 1] == k then 1 else 0)
  }

  function Keys(t: seq<Entry>): (ks: seq<string>)
    ensures |ks| == |t| && forall i :: 0 <= i < |t| ==> ks[i] == t[i].key
  {
    seq(|t|, i requires 0 <= i < |t| => t[i].key)
  }

  /** The sum of the counts. */
  function Total(t: seq<Entry>): nat {
    if t == [] then 0 else t[0].count + Total(t[1..])
  }

  /** One more occurrence of `k`: its entry goes up by one, or a new entry is appended. */
  function Bump(t: seq<Entry>, k: string): (r: seq<Entry>)
    requires Distinct(Keys(t))
    ensures Distinct(Keys(r))
    ensures |r| == if k in Keys(t) then |t| else |t| + 1
    ensures forall i :: 0 <= i < |t| ==> r[i].key == t[i].key
    ensures forall i :: 0 <= i < |t| ==> r[i].count == t[i].count + (if t[i].key == k then 1 else 0)
    ensures k !in Keys(t) ==> r[|t|] == Entry(k, 1)
  {
    if k in Keys(t) then
      var j := IndexOf(Keys(t), k);
      t[j := Entry(k, t[j].count + 1)]
    else
      t + [Entry(k, 1)]
  }

  lemma BumpKeys(t: seq<Entry>, k: string)
    requires Distinct(Keys(t))
    ensures Keys(Bump(t, k)) == if k in Keys(t) then Keys(t) else Keys(t) + [k]
  {
  }

  lemma {:induction false} TotalAppend(t: seq<Entry>, e: Entry)
    ensures Total(t + [e]) == Total(t) + e.count
  {
    if t != [] {
      assert (t + [e])[1..] == t[1..] + [e];
      TotalAppend(t[1..], e);
    }
  }

  lemma {:induction false} TotalIncrement(t: seq<Entry>, j: nat)
    requires j < |t|
    ensures Total(t[j := Entry(t[j].key, t[j].count + 1)]) == Total(t) + 1
  {
    if j == 0 {
      assert t[j := Entry(t[j].key, t[j].count + 1)][1..] == t[1..];
    } else {
      assert t[j := Entry(t[j].key, t[j].count + 1)][1..] == t[1..][j - 1 := Entry(t[j].key, t[j].count + 1)];
      TotalIncrement(t[1..], j - 1);
    }
  }

  lemma {:induction false} BumpTotal(t: seq<Entry>, k: string)
    requires Distinct(Keys(t))
    ensures Total(Bump(t, k)) == Total(t) + 1
  {
    if k in Keys(t) {
      var j := IndexOf(Keys(t), k);
      assert Bump(t, k) == t[j := Entry(t[j].key, t[j].count + 1)];
      TotalIncrement(t, j);
    } else {
      assert Bump(t, k) == t + [Entry(k, 1)];
      TotalAppend(t, Entry(k, 1));
    }
  }

  /** `value_counts()`: one entry per distinct label, counting its occurrences. */
  function ValueCounts(xs: seq<string>): (t: seq<Entry>)
    ensures Distinct(Keys(t))
  {
    if xs == [] then [] else Bump(ValueCounts(xs[..|xs| - 1]), xs[|xs| - 1])
  }

  lemma OccurrencesAbsent(xs: seq<string>, k: string)
    requires k !in xs
    ensures Occurrences(xs, k) == 0
  {
    if xs != [] {
      assert k !in xs[..|xs| - 1];
      OccurrencesAbsent(xs[..|xs| - 1], k);
    }
  }

  /** Every label of the column has exactly one entry, which counts its occurrences. */
  lemma {:induction false} ValueCountsEntries(xs: seq<string>)
    ensures forall k :: k in Keys(ValueCounts(xs)) <==> k in xs
    ensures forall i :: 0 <= i < |ValueCounts(xs)| ==>
      ValueCounts(xs)[i].count == Occurrences(xs, ValueCounts(xs)[i].key) > 0
  {
    if xs != [] {
      var init := xs[..|xs| - 1];
      var k := xs[|xs| - 1];
      var prev := ValueCounts(init);
      var t := ValueCounts(xs);
      ValueCountsEntries(init);
      BumpKeys(prev, k);
      assert t == Bump(prev, k);
      assert forall x :: x in xs <==> x in init || x == k;
      forall i | 0 <= i < |t|
        ensures t[i].count == Occurrences(xs, t[i].key) > 0
      {
        if i == |prev| {
          OccurrencesAbsent(init, k);
        }
      }
    }
  }

  /** The counts add up to the number of labels. */
  lemma {:induction false} ValueCountsTotal(xs: seq<string>)
    ensures Total(ValueCounts(xs)) == |xs|
  {
    if xs != [] {
      var init := xs[..|xs| - 1];
      ValueCountsTotal(init);
      BumpTotal(ValueCounts(init), xs[|xs| - 1]);
    }
  }

  function Sum(xs: seq<real>): real {
    if xs == [] then 0.0 else xs[0] + Sum(xs[1..])
  }

  lemma {:induction false} SumBounds(xs: seq<real>, lo: real, hi: real)
    requires forall i :: 0 <= i < |xs| ==> lo <= xs[i] <= hi
    ensures |xs| as real * lo <= Sum(xs) <= |xs| as real * hi
  {
    if xs != [] {
      SumBounds(xs[1..], lo, hi);
    }
  }

  /** `mean()` of a non-empty column. */
  function Mean(xs: seq<real>): real
    requires |xs| > 0
  {
    Sum(xs) / |xs| as real
  }

  /** The mean lies between any bounds of the values. */
  lemma MeanBounds(xs: seq<real>, lo: real, hi: real)
    requires |xs| > 0
    requires forall i :: 0 <= i < |xs| ==> lo <= xs[i] <= hi
    ensures lo <= Mean(xs) <= hi
  {
    SumBounds(xs, lo, hi);
    var n := |xs| as real;
    assert n * lo <= Sum(xs) <= n * hi;
    assert Mean(xs) * n == Sum(xs);
  }
}
