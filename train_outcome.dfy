/**
  The deterministic parts of the outcome model's training: the target column, the
  year-based train/validation/test split, the choice of splits that get metrics, and
  the importance mapping ordered by decreasing importance.

  The gradient-boosting model, the label encoders, the median fill and the metric
  computations are library code and are not modelled.
*/
module TrainOutcome {
  import opened Wrappers

  // ---------------------------------------------------------------------------
  // Target
  // ---------------------------------------------------------------------------

  /** `(elo_diff > 0).astype(int)`; a missing difference compares false, so its target is 0. */
  function Target(eloDiff: Option<real>): (t: int)
    ensures t == 0 || t == 1
    ensures t == 1 <==> eloDiff.Some? && eloDiff.value > 0.0
  {
    if eloDiff.Some? && eloDiff.value > 0.0 then 1 else 0
  }

  /** The target column; no target is ever missing, so the missing-target filter keeps every row. */
  function Targets(eloDiffs: seq<Option<real>>): (ts: seq<int>)
    ensures |ts| == |eloDiffs|
    ensures forall i :: 0 <= i < |ts| ==> (ts[i] == 1 <==> eloDiffs[i].Some? && eloDiffs[i].value > 0.0)
    ensures forall i :: 0 <= i < |ts| ==> ts[i] == 0 || ts[i] == 1
  {
    seq(|eloDiffs|, i requires 0 <= i < |eloDiffs| => Target(eloDiffs[i]))
  }

  // ---------------------------------------------------------------------------
  // Temporal splits
  // ---------------------------------------------------------------------------

  datatype Split = Train | Val | Test

  const LastTrainYear: int := 2022
  const ValYear: int := 2023
  const FirstTestYear: int := 2024

  /** The split a row's year puts it in: up to 2022, 2023, from 2024; a row without a year is in none. */
  function SplitOf(year: Option<int>): (s: Option<Split>)
    ensures s == Some(Train) <==> year.Some? && year.value <= LastTrainYear
    ensures s == Some(Val) <==> year.Some? && year.value == ValYear
    ensures s == Some(Test) <==> year.Some? && year.value >= FirstTestYear
    ensures s.None? <==> year.None?
  {
    match year
    case None => None
    case Some(y) => if y <= LastTrainYear then Some(Train) else if y == ValYear then Some(Val) else Some(Test)
  }

  predicate StrictlyIncreasing(xs: seq<nat>) {
    forall i, j :: 0 <= i < j < |xs| ==> xs[i] < xs[j]
  }

  /** The positions, in the date-sorted frame, of the rows in split `s`, ascending. */
  function IndicesOf(years: seq<Option<int>>, s: Split): (idx: seq<nat>)
    ensures StrictlyIncreasing(idx)
    ensures forall k :: 0 <= k < |idx| ==> idx[k] < |years|
    ensures forall i :: i in idx <==> 0 <= i < |years| && SplitOf(years[i]) == Some(s)
  {
    if years == [] then []
    else
      var n := |years| - 1;
      var rest := IndicesOf(years[..n], s);
      assert forall i :: 0 <= i < n ==> years[..n][i] == years[i];
      if SplitOf(years[n]) == Some(s) then rest + [n] else rest
  }

  /** `create_temporal_splits` over the year column of the date-sorted frame. */
  function TemporalSplits(years: seq<Option<int>>): (r: (seq<nat>, seq<nat>, seq<nat>)) {
    (IndicesOf(years, Train), IndicesOf(years, Val), IndicesOf(years, Test))
  }

  /** The three index lists are pairwise disjoint and together hold exactly the rows with a year. */
  lemma TemporalSplitsPartition(years: seq<Option<int>>)
    ensures var (train, val, test) := TemporalSplits(years);
            && (forall i :: !(i in train && i in val) && !(i in train && i in test) && !(i in val && i in test))
            && (forall i :: 0 <= i < |years| ==> (years[i].Some? <==> i in train || i in val || i in test))
            && |train| + |val| + |test| == WithYear(years)
  {
    SplitSizes(years);
  }

  /** The number of rows that have a year. */
  function WithYear(years: seq<Option<int>>): (n: nat)
    ensures n <= |years|
  {
    if years == [] then 0 else WithYear(years[..|years| - 1]) + (if years[|years| - 1].Some? then 1 else 0)
  }

  lemma {:induction false} SplitSizes(years: seq<Option<int>>)
    ensures |IndicesOf(years, Train)| + |IndicesOf(years, Val)| + |IndicesOf(years, Test)| == WithYear(years)
  {
    if years != [] {
      SplitSizes(years[..|years| - 1]);
    }
  }

  /** `evaluate_model` computes metrics only for the non-empty splits, in train, val, test order. */
  function EvaluatedSplits(train: seq<nat>, val: seq<nat>, test: seq<nat>): (r: seq<Split>)
    ensures |r| <= 3
    ensures Train in r <==> |train| > 0
    ensures Val in r <==> |val| > 0
    ensures Test in r <==> |test| > 0
    ensures forall i, j :: 0 <= i < j < |r| ==> Rank(r[i]) < Rank(r[j])
  {
    (if |train| > 0 then [Train] else []) + (if |val| > 0 then [Val] else []) + (if |test| > 0 then [Test] else [])
  }

  function Rank(s: Split): nat {
    match s
    case Train => 0
    case Val => 1
    case Test => 2
  }

  // ---------------------------------------------------------------------------
  // Feature importance
  // ---------------------------------------------------------------------------

  /** An insertion-ordered string-keyed mapping, as a Python dict keeps it. */
  type Importance = seq<(string, real)>

  function Keys(m: Importance): (ks: seq<string>)
    ensures |ks| == |m|
    ensures forall i :: 0 <= i < |m| ==> ks[i] == m[i].0
  {
    seq(|m|, i requires 0 <= i < |m| => m[i].0)
  }

  predicate DistinctKeys(m: Importance) {
    forall i, j :: 0 <= i < j < |m| ==> m[i].0 != m[j].0
  }

  /** The position of key `k`, if present. */
  function Find(m: Importance, k: string): (r: Option<nat>)
    ensures r.Some? ==> r.value < |m| && m[r.value].0 == k
    ensures r.None? <==> forall i :: 0 <= i < |m| ==> m[i].0 != k
  {
    if m == [] then None
    else if m[|m| - 1].0 == k then Some(|m| - 1)
    else Find(m[..|m| - 1], k)
  }

  /** `d[k] = v` on an insertion-ordered dict: a present key keeps its position, a new one goes last. */
  function Put(m: Importance, k: string, v: real): (r: Importance)
    ensures Find(m, k).None? ==> r == m + [(k, v)]
    ensures Find(m, k).Some? ==> r == m[Find(m, k).value := (k, v)]
    ensures forall key :: key in Keys(r) <==> key in Keys(m) || key == k
    ensures DistinctKeys(m) ==> DistinctKeys(r)
  {
    match Find(m, k)
    case None =>
      KeysSnoc(m, (k, v));
      m + [(k, v)]
    case Some(p) =>
      assert Keys(m[p := (k, v)]) == Keys(m);
      m[p := (k, v)]
  }

  /** The pairs of two lists, position by position, up to the shorter one. */
  function Zipped(names: seq<string>, scores: seq<real>): (z: Importance)
    ensures |z| == Min(|names|, |scores|)
    ensures forall i :: 0 <= i < |z| ==> z[i] == (names[i], scores[i])
  {
    seq(Min(|names|, |scores|), i requires 0 <= i < Min(|names|, |scores|) => (names[i], scores[i]))
  }

  /** Assigns the pairs one after the other into an empty dict. */
  function DictOf(pairs: Importance): (m: Importance)
    ensures DistinctKeys(m)
    ensures |m| <= |pairs|
    ensures forall k :: k in Keys(m) <==> k in Keys(pairs)
  {
    if pairs == [] then []
    else
      var init, last := pairs[..|pairs| - 1], pairs[|pairs| - 1];
      assert pairs == init + [last];
      KeysSnoc(init, last);
      Put(DictOf(init), last.0, last.1)
  }

  /** Pairs whose keys are all different come out of the dict unchanged and in order. */
  lemma {:induction false} DictOfDistinct(pairs: Importance)
    requires DistinctKeys(pairs)
    ensures DictOf(pairs) == pairs
  {
    if pairs != [] {
      var init, last := pairs[..|pairs| - 1], pairs[|pairs| - 1];
      assert pairs == init + [last];
      assert DistinctKeys(init);
      DictOfDistinct(init);
      assert forall i :: 0 <= i < |init| ==> init[i].0 != last.0 by {
        forall i | 0 <= i < |init| ensures init[i].0 != last.0 {
          assert pairs[i].0 != pairs[|pairs| - 1].0;
        }
      }
      assert Find(init, last.0).None?;
    }
  }

  /** `e` is the last of the pairs with its key: a dict entry takes the value assigned last. */
  predicate LastWithKey(pairs: Importance, e: (string, real)) {
    exists i :: 0 <= i < |pairs| && pairs[i] == e && forall j :: i < j < |pairs| ==> pairs[j].0 != e.0
  }

  /** Every entry of the dict is the last assignment to its key. */
  lemma {:induction false} DictOfLast(pairs: Importance)
    ensures forall e :: e in DictOf(pairs) ==> LastWithKey(pairs, e)
  {
    if pairs != [] {
      var n := |pairs| - 1;
      var init, last := pairs[..n], pairs[n];
      assert pairs == init + [last];
      DictOfLast(init);
      var d := DictOf(init);
      assert DictOf(pairs) == Put(d, last.0, last.1);
      forall e | e in DictOf(pairs) ensures LastWithKey(pairs, e) {
        if e == last {
          assert pairs[n] == e;
        } else {
          assert e in d && e.0 != last.0 by {
            match Find(d, last.0)
            case None =>
              assert DictOf(pairs) == d + [last];
            case Some(q) =>
              var r := d[q := last];
              assert DictOf(pairs) == r;
              var k :| 0 <= k < |r| && r[k] == e;
              assert k != q;
              assert d[k] == e;
              assert d[k].0 != d[q].0 by { if k < q { assert d[k].0 != d[q].0; } else { assert d[q].0 != d[k].0; } }
          }
          var i :| 0 <= i < |init| && init[i] == e && forall j :: i < j < |init| ==> init[j].0 != e.0;
          assert pairs[i] == e;
          assert forall j :: i < j < |pairs| ==> pairs[j].0 != e.0 by {
            forall j | i < j < |pairs| ensures pairs[j].0 != e.0 {
              if j < n { assert pairs[j] == init[j]; }
            }
          }
        }
      }
    }
  }

  /**
    `dict(zip(names, scores))`: pairs up to the shorter list; a repeated name keeps its
    first position and takes the later score.
  */
  function ZipDict(names: seq<string>, scores: seq<real>): (m: Importance)
    ensures DistinctKeys(m)
    ensures |m| <= |names| && |m| <= |scores|
    ensures forall k :: k in Keys(m) <==> k in names[..Min(|names|, |scores|)]
  {
    var z := Zipped(names, scores);
    assert Keys(z) == names[..Min(|names|, |scores|)];
    DictOf(z)
  }

  /** With distinct names the mapping is the zipped pairs in order. */
  lemma ZipDictDistinct(names: seq<string>, scores: seq<real>)
    requires forall i, j :: 0 <= i < j < |names| ==> names[i] != names[j]
    ensures ZipDict(names, scores) == Zipped(names, scores)
  {
    DictOfDistinct(Zipped(names, scores));
  }

  /** Each entry pairs a name with the score at its last position among the zipped pairs. */
  lemma ZipDictValues(names: seq<string>, scores: seq<real>)
    ensures forall e :: e in ZipDict(names, scores) ==>
              exists i :: 0 <= i < Min(|names|, |scores|) && e == (names[i], scores[i])
                          && forall j :: i < j < Min(|names|, |scores|) ==> names[j] != names[i]
  {
    var z := Zipped(names, scores);
    DictOfLast(z);
    forall e | e in ZipDict(names, scores)
      ensures exists i :: 0 <= i < Min(|names|, |scores|) && e == (names[i], scores[i])
                          && forall j :: i < j < Min(|names|, |scores|) ==> names[j] != names[i]
    {
      assert LastWithKey(z, e);
      var i :| 0 <= i < |z| && z[i] == e && forall j :: i < j < |z| ==> z[j].0 != e.0;
      assert forall j :: i < j < Min(|names|, |scores|) ==> names[j] != names[i] by {
        forall j | i < j < Min(|names|, |scores|) ensures names[j] != names[i] {
          assert z[j].0 != e.0;
        }
      }
    }
  }

  predicate SortedByImportance(m: Importance) {
    forall i, j :: 0 <= i < j < |m| ==> m[i].1 >= m[j].1
  }

  lemma KeysSnoc(m: Importance, x: (string, real))
    ensures Keys(m + [x]) == Keys(m) + [x.0]
  {
  }

  /** Places `x` after the trailing entries less important than it, keeping the rest in order. */
  function Insert(x: (string, real), m: Importance): (r: Importance)
    ensures multiset(r) == multiset(m) + multiset{x}
  {
    if m == [] || m[|m| - 1].1 >= x.1 then m + [x]
    else
      assert m == m[..|m| - 1] + [m[|m| - 1]];
      Insert(x, m[..|m| - 1]) + [m[|m| - 1]]
  }

  /** Inserting into an ordered mapping keeps it ordered. */
  lemma {:induction false} InsertSorted(x: (string, real), m: Importance)
    requires SortedByImportance(m)
    ensures SortedByImportance(Insert(x, m))
  {
    if !(m == [] || m[|m| - 1].1 >= x.1) {
      var init, last := m[..|m| - 1], m[|m| - 1];
      assert SortedByImportance(init);
      InsertSorted(x, init);
      var ins := Insert(x, init);
      var r := ins + [last];
      assert m == init + [last];
      forall i, j | 0 <= i < j < |r| ensures r[i].1 >= r[j].1 {
        if j == |r| - 1 {
          assert r[i] == ins[i];
          assert ins[i] in multiset(ins);
          assert ins[i] in init || ins[i] == x;
        }
      }
    }
  }

  /** Inserting a new key keeps the keys distinct and adds exactly that key. */
  lemma {:induction false} InsertKeys(x: (string, real), m: Importance)
    requires DistinctKeys(m) && x.0 !in Keys(m)
    ensures DistinctKeys(Insert(x, m))
    ensures forall k :: k in Keys(Insert(x, m)) <==> k in Keys(m) || k == x.0
  {
    if m == [] || m[|m| - 1].1 >= x.1 {
      KeysSnoc(m, x);
    } else {
      var init, last := m[..|m| - 1], m[|m| - 1];
      assert m == init + [last];
      KeysSnoc(init, last);
      assert DistinctKeys(init);
      InsertKeys(x, init);
      var ins := Insert(x, init);
      KeysSnoc(ins, last);
      assert last.0 !in Keys(init) by {
        forall i | 0 <= i < |init| ensures init[i].0 != last.0 {
          assert m[i].0 != m[|m| - 1].0;
        }
      }
      assert last.0 != x.0 by { assert last.0 in Keys(m); }
      assert last.0 !in Keys(ins);
      forall i, j | 0 <= i < j < |ins| + 1 ensures (ins + [last])[i].0 != (ins + [last])[j].0 {
        if j == |ins| {
          assert (ins + [last])[i].0 == Keys(ins)[i];
        }
      }
    }
  }

  /**
    `dict(sorted(items, key=importance, reverse=True))`: a stable sort by decreasing
    importance, built by inserting each entry in turn.
  */
  function SortByImportance(m: Importance): (r: Importance)
    ensures SortedByImportance(r)
    ensures multiset(r) == multiset(m)
  {
    if m == [] then []
    else
      assert m == m[..|m| - 1] + [m[|m| - 1]];
      InsertSorted(m[|m| - 1], SortByImportance(m[..|m| - 1]));
      Insert(m[|m| - 1], SortByImportance(m[..|m| - 1]))
  }

  /** Sorting keeps the length and the key set, and keeps the keys distinct. */
  lemma {:induction false} SortKeepsKeys(m: Importance)
    requires DistinctKeys(m)
    ensures |SortByImportance(m)| == |m|
    ensures forall k :: k in Keys(SortByImportance(m)) <==> k in Keys(m)
    ensures DistinctKeys(SortByImportance(m))
  {
    if m != [] {
      var init, last := m[..|m| - 1], m[|m| - 1];
      assert m == init + [last];
      SortKeepsKeys(init);
      KeysSnoc(init, last);
      InsertKeys(last, SortByImportance(init));
    }
  }

  /** A mapping already in decreasing order comes out of the sort unchanged, ties included. */
  lemma {:induction false} SortSortedIsIdentity(m: Importance)
    requires SortedByImportance(m)
    ensures SortByImportance(m) == m
  {
    if m != [] {
      var init, last := m[..|m| - 1], m[|m| - 1];
      assert m == init + [last];
      assert SortedByImportance(init);
      SortSortedIsIdentity(init);
    }
  }

  /** `get_feature_importance`: the model's scores paired with the feature names, most important first. */
  function FeatureImportance(names: seq<string>, scores: seq<real>): (m: Importance)
    ensures SortedByImportance(m)
    ensures DistinctKeys(m)
    ensures forall k :: k in Keys(m) <==> k in names[..Min(|names|, |scores|)]
    ensures multiset(m) == multiset(ZipDict(names, scores))
  {
    var d := ZipDict(names, scores);
    SortKeepsKeys(d);
    SortByImportance(d)
  }
}
