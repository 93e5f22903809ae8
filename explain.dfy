/**
  Explanation summaries of the outcome model: the importance mapping ordered by
  decreasing importance with its top ten features, and the insight list built from
  such a mapping.

  The SHAP values themselves come from a library and enter as the per-feature
  importances; number formatting inside the insight sentences is not modelled, so
  an insight carries its rank, text and importance as values.
*/
module Explain {
  import opened Wrappers
  import TO = TrainOutcome

  // ---------------------------------------------------------------------------
  // Importance summary
  // ---------------------------------------------------------------------------

  /** How many feature names the summary lists. */
  const TopCount: int := 10

  /**
    The importance mapping of `explain_outcome_model`: each column paired with its
    importance (a repeated column keeps its first position and takes the later
    value), then ordered by decreasing importance.
  */
  function ImportanceSummary(columns: seq<string>, importances: seq<real>): (m: TO.Importance)
    ensures TO.SortedByImportance(m) && TO.DistinctKeys(m)
    ensures forall k :: k in TO.Keys(m) <==> k in columns[..Min(|columns|, |importances|)]
    ensures multiset(m) == multiset(TO.ZipDict(columns, importances))
    ensures forall e :: e in m ==>
              exists i :: 0 <= i < Min(|columns|, |importances|) && e == (columns[i], importances[i])
                          && forall j :: i < j < Min(|columns|, |importances|) ==> columns[j] != columns[i]
  {
    TO.ZipDictValues(columns, importances);
    var m := TO.FeatureImportance(columns, importances);
    forall e | e in m ensures e in TO.ZipDict(columns, importances) {
      assert e in multiset(m);
    }
    m
  }

  /** `list(mapping.keys())[:10]`. */
  function TopFeatures(m: TO.Importance): (top: seq<string>)
    ensures |top| == Min(TopCount, |m|)
    ensures forall i :: 0 <= i < |top| ==> top[i] == m[i].0
  {
    TO.Keys(m)[..Min(TopCount, |m|)]
  }

  /** On an ordered mapping, no feature left out of the top ten is more important than one listed. */
  lemma TopFeaturesAreMostImportant(m: TO.Importance, i: nat, j: nat)
    requires TO.SortedByImportance(m)
    requires i < |TopFeatures(m)| <= j < |m|
    ensures m[i].0 == TopFeatures(m)[i] && m[i].1 >= m[j].1
  {
  }

  /** With distinct columns the summary has one entry per column and lists the ten (or fewer) most important. */
  lemma SummaryOfDistinctColumns(columns: seq<string>, importances: seq<real>)
    requires |columns| == |importances|
    requires forall i, j :: 0 <= i < j < |columns| ==> columns[i] != columns[j]
    ensures |ImportanceSummary(columns, importances)| == |columns|
    ensures |TopFeatures(ImportanceSummary(columns, importances))| == Min(TopCount, |columns|)
    ensures forall i :: 0 <= i < |columns| ==> (columns[i], importances[i]) in ImportanceSummary(columns, importances)
  {
    var z := TO.Zipped(columns, importances);
    TO.ZipDictDistinct(columns, importances);
    TO.SortKeepsKeys(TO.ZipDict(columns, importances));
    forall i | 0 <= i < |columns| ensures (columns[i], importances[i]) in ImportanceSummary(columns, importances) {
      assert z[i] in multiset(z);
    }
  }

  // ---------------------------------------------------------------------------
  // Insights
  // ---------------------------------------------------------------------------

  /** The explanation results the insights read: success, the ordered mapping and the optional complexity. */
  datatype ShapResult = ShapResult(success: bool, featureImportance: TO.Importance, modelComplexity: Option<real>)

  datatype Insight =
    | Ranked(rank: nat, explanation: string, importance: real)
    | EloPredictive
    | RecentFormMatters
    | HeadToHeadMatters
    | ExplanationFailed

  datatype KeyFactor = KeyFactor(feature: string, importance: real, explanation: string, rank: nat)

  datatype Quality = High | Medium

  /** On failure only the insights and key factors are present, so complexity and quality are None. */
  datatype InsightReport = InsightReport(
    insights: seq<Insight>,
    keyFactors: seq<KeyFactor>,
    modelComplexity: Option<real>,
    quality: Option<Quality>)

  /** Insights list the first five features and rank the first three. */
  const InsightWindow: int := 5
  const RankedCount: int := 3
  /** The Elo insight needs the importance of `elo_diff` above this. */
  const EloThreshold: real := 0.1
  const EloFeature: string := "elo_diff"

  /** The human-readable text of the known features. */
  const FeatureTexts: map<string, string> := map[
    "elo_diff" := "Difference in Elo ratings between players (higher = stronger player advantage)",
    "winner_elo_before" := "Winner's Elo rating before the match",
    "loser_elo_before" := "Loser's Elo rating before the match",
    "h2h_win_pct" := "Head-to-head win percentage for the stronger player",
    "h2h_matches" := "Number of previous matches between these players",
    "winner_recent_win_pct" := "Winner's win percentage in recent matches",
    "loser_recent_win_pct" := "Loser's win percentage in recent matches",
    "winner_recent_surface_win_pct" := "Winner's recent win rate on this surface",
    "loser_recent_surface_win_pct" := "Loser's recent win rate on this surface",
    "winner_age" := "Winner's age at time of match",
    "loser_age" := "Loser's age at time of match",
    "age_diff" := "Age difference between players",
    "surface_encoded" := "Court surface type (Hard/Clay/Grass)",
    "round_encoded" := "Tournament round (qualifying, early rounds, finals)",
    "tour" := "Tour type (ATP/WTA)",
    "best_of" := "Match format (best of 3 or 5 sets)",
    "recent_form_diff" := "Difference in recent form between players"]

  /** `explanations.get(feature, f'Feature: {feature}')`. */
  function ExplanationOf(feature: string): string {
    if feature in FeatureTexts then FeatureTexts[feature] else "Feature: " + feature
  }

  /** A known feature gets its canned text; an unknown one its name after "Feature: ". */
  lemma ExplanationExamples()
    ensures ExplanationOf("elo_diff") == "Difference in Elo ratings between players (higher = stronger player advantage)"
    ensures ExplanationOf("feature_3") == "Feature: feature_3"
    ensures ExplanationOf("surface") == "Feature: surface"
  {
    assert "feature_3" !in FeatureTexts;
    assert "surface" !in FeatureTexts;
  }

  /** Python's `needle in hay` on strings. */
  predicate Contains(hay: string, needle: string) {
    exists i :: 0 <= i <= |hay| - |needle| && OccursAt(hay, needle, i)
  }

  predicate OccursAt(hay: string, needle: string, i: int) {
    0 <= i && i + |needle| <= |hay| && hay[i..i + |needle|] == needle
  }

  /** Some of the given feature names contains `needle`. */
  predicate AnyContains(features: seq<string>, needle: string) {
    exists i :: 0 <= i < |features| && Contains(features[i], needle)
  }

  /** `'elo_diff' in mapping and mapping['elo_diff'] > 0.1`. */
  predicate EloStrong(m: TO.Importance) {
    match TO.Find(m, EloFeature)
    case None => false
    case Some(p) => m[p].1 > EloThreshold
  }

  /** The ranked insight and key factor of the `i`-th feature of the mapping. */
  function RankedInsight(m: TO.Importance, i: nat): Insight
    requires i < |m|
  {
    Ranked(i + 1, ExplanationOf(m[i].0), m[i].1)
  }

  function KeyFactorAt(m: TO.Importance, i: nat): KeyFactor
    requires i < |m|
  {
    KeyFactor(m[i].0, m[i].1, ExplanationOf(m[i].0), i + 1)
  }

  /** The general insights that follow the ranked ones, in Elo, recent form, head-to-head order. */
  function GeneralInsights(m: TO.Importance): seq<Insight> {
    var top := TO.Keys(m)[..Min(InsightWindow, |m|)];
    (if EloStrong(m) then [EloPredictive] else [])
    + (if AnyContains(top, "recent") then [RecentFormMatters] else [])
    + (if AnyContains(top, "h2h") then [HeadToHeadMatters] else [])
  }

  /** The ranked insights of the first `k` features, with ranks 1..k. */
  function RankedInsights(m: TO.Importance, k: nat): (r: seq<Insight>)
    requires k <= |m|
    ensures |r| == k
    ensures forall i :: 0 <= i < k ==> r[i] == RankedInsight(m, i) && r[i].Ranked? && r[i].rank == i + 1
  {
    if k == 0 then [] else RankedInsights(m, k - 1) + [RankedInsight(m, k - 1)]
  }

  /** The key factors of the first `k` features, with ranks 1..k. */
  function KeyFactors(m: TO.Importance, k: nat): (r: seq<KeyFactor>)
    requires k <= |m|
    ensures |r| == k
    ensures forall i :: 0 <= i < k ==> r[i] == KeyFactorAt(m, i) && r[i].feature == m[i].0 && r[i].rank == i + 1
  {
    if k == 0 then [] else KeyFactors(m, k - 1) + [KeyFactorAt(m, k - 1)]
  }

  /** The insight list of a successful explanation. */
  function SuccessInsights(m: TO.Importance): seq<Insight> {
    RankedInsights(m, Min(RankedCount, |m|)) + GeneralInsights(m)
  }

  /** The loop over the first three of the top features: a ranked insight and a key factor each. */
  method RankTopFeatures(m: TO.Importance, topFeatures: seq<string>) returns (insights: seq<Insight>, keyFactors: seq<KeyFactor>)
    requires topFeatures == TO.Keys(m)[..Min(InsightWindow, |m|)]
    ensures insights == RankedInsights(m, Min(RankedCount, |m|))
    ensures keyFactors == KeyFactors(m, Min(RankedCount, |m|))
  {
    var k := Min(RankedCount, |topFeatures|);
    assert k == Min(RankedCount, |m|);
    insights, keyFactors := [], [];
    var i := 0;
    while i < k
      invariant 0 <= i <= k
      invariant insights == RankedInsights(m, i)
      invariant keyFactors == KeyFactors(m, i)
    {
      var feature := topFeatures[i];
      var importance := m[i].1;
      var explanation := ExplanationOf(feature);
      assert feature == m[i].0;
      insights := insights + [Ranked(i + 1, explanation, importance)];
      keyFactors := keyFactors + [KeyFactor(feature, importance, explanation, i + 1)];
      i := i + 1;
    }
  }

  /** The three conditional general insights, appended in order. */
  method AddGeneralInsights(m: TO.Importance, topFeatures: seq<string>, ranked: seq<Insight>) returns (insights: seq<Insight>)
    requires topFeatures == TO.Keys(m)[..Min(InsightWindow, |m|)]
    ensures insights == ranked + GeneralInsights(m)
  {
    insights := ranked;
    ghost var extras: seq<Insight> := [];
    if EloStrong(m) {
      insights := insights + [EloPredictive];
      extras := [EloPredictive];
    }
    if AnyContains(topFeatures, "recent") {
      AppendOne(ranked, extras, RecentFormMatters);
      insights := insights + [RecentFormMatters];
      extras := extras + [RecentFormMatters];
    }
    if AnyContains(topFeatures, "h2h") {
      AppendOne(ranked, extras, HeadToHeadMatters);
      insights := insights + [HeadToHeadMatters];
      extras := extras + [HeadToHeadMatters];
    }
    assert extras == GeneralInsights(m);
  }

  /**
    `generate_explanation_insights`: a failed explanation gives only the failure
    insight; otherwise the first `min(3, n)` features get ranked insights and key
    factors with ranks 1..k, the general insights follow, and the quality is "high"
    iff there are at least three insights.
  */
  method GenerateExplanationInsights(shap: ShapResult) returns (report: InsightReport)
    ensures !shap.success ==> report == InsightReport([ExplanationFailed], [], None, None)
    ensures shap.success ==>
              var m := shap.featureImportance;
              && report.keyFactors == KeyFactors(m, Min(RankedCount, |m|))
              && report.insights == SuccessInsights(m)
              && report.modelComplexity == Some(match shap.modelComplexity case Some(c) => c case None => 0.0)
              && report.quality == Some(if |report.insights| >= 3 then High else Medium)
  {
    if !shap.success {
      return InsightReport([ExplanationFailed], [], None, None);
    }
    var m := shap.featureImportance;
    var topFeatures := TO.Keys(m)[..Min(InsightWindow, |m|)];
    var insights, keyFactors := RankTopFeatures(m, topFeatures);
    insights := AddGeneralInsights(m, topFeatures, insights);
    var complexity := match shap.modelComplexity case Some(c) => c case None => 0.0;
    report := InsightReport(insights, keyFactors, Some(complexity), Some(if |insights| >= 3 then High else Medium));
  }

  lemma AppendOne(a: seq<Insight>, b: seq<Insight>, x: Insight)
    ensures (a + b) + [x] == a + (b + [x])
  {
  }

  /** Each general insight is present exactly when its condition holds. */
  lemma GeneralInsightConditions(m: TO.Importance)
    ensures EloPredictive in SuccessInsights(m) <==> EloStrong(m)
    ensures RecentFormMatters in SuccessInsights(m) <==> AnyContains(TO.Keys(m)[..Min(InsightWindow, |m|)], "recent")
    ensures HeadToHeadMatters in SuccessInsights(m) <==> AnyContains(TO.Keys(m)[..Min(InsightWindow, |m|)], "h2h")
    ensures ExplanationFailed !in SuccessInsights(m)
  {
    var ranked := RankedInsights(m, Min(RankedCount, |m|));
    assert forall x :: x in ranked ==> x.Ranked?;
  }

  /** A mapping of at least three features always gives a "high" quality: the ranked insights alone number three. */
  lemma QualityRules(m: TO.Importance)
    ensures |m| >= RankedCount ==> |SuccessInsights(m)| >= 3
    ensures |SuccessInsights(m)| == Min(RankedCount, |m|) + |GeneralInsights(m)|
    ensures |GeneralInsights(m)| <= 3
  {
  }

  /** An empty mapping gives no ranked insight and no key factor; only the general insights can appear, and with no features none of them does. */
  lemma EmptyMappingHasNoInsights(m: TO.Importance)
    requires m == []
    ensures SuccessInsights(m) == []
  {
    var top := TO.Keys(m)[..Min(InsightWindow, |m|)];
    assert top == [];
    assert !AnyContains(top, "recent") && !AnyContains(top, "h2h");
    assert TO.Find(m, EloFeature).None?;
  }

  /** A feature named with "recent" among the first five always brings the recent-form insight. */
  lemma RecentFeatureInTopFive(m: TO.Importance, i: nat)
    requires i < |m| && i < InsightWindow && m[i].0 == "winner_recent_win_pct"
    ensures RecentFormMatters in SuccessInsights(m)
  {
    var top := TO.Keys(m)[..Min(InsightWindow, |m|)];
    assert top[i] == "winner_recent_win_pct";
    assert OccursAt(top[i], "recent", 7);
    assert Contains(top[i], "recent");
    GeneralInsightConditions(m);
  }
}
