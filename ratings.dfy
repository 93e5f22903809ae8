/**
  The surface-specific Elo rating store and the chronological replay that computes
  every match's before/after ratings.

  `10 ** x` has no exact counterpart over the reals: it enters as a function `pow10`
  whose values are positive, and only the identity 10^(-x) * 10^x = 1 is assumed where
  a proof needs it.
*/
module Ratings {
  import opened MatchData

  type Positive = x: real | x > 0.0 witness 1.0

  /** The exponential `10 ** x`, abstracted to a function with positive values. */
  type Power = real -> Positive

  /** `rating -> player -> surface`, where a missing entry reads as the initial rating. */
  type RatingTable = map<PlayerId, map<Surface, real>>

  datatype RatingRecord = RatingRecord(
    date: Date,
    playerId: PlayerId,
    surface: Surface,
    ratingBefore: real,
    ratingAfter: real,
    opponentId: PlayerId,
    won: bool)

  const DefaultKFactor: real := 32.0
  const DefaultInitialRating: real := 1500.0

  /** `expected_score`: 1 / (1 + 10^((b - a) / 400)), always strictly between 0 and 1. */
  function ExpectedScore(pow10: Power, ratingA: real, ratingB: real): (e: real)
    ensures 0.0 < e < 1.0
  {
    var p: real := pow10((ratingB - ratingA) / 400.0);
    assert 1.0 + p > 1.0;
    1.0 / (1.0 + p)
  }

  /** 1 / (1 + p) + 1 / (1 + q) = 1 whenever p * q = 1. */
  lemma ReciprocalShares(p: real, q: real)
    requires p > 0.0 && q > 0.0 && p * q == 1.0
    ensures 1.0 / (1.0 + p) + 1.0 / (1.0 + q) == 1.0
  {
    var a, b := 1.0 / (1.0 + p), 1.0 / (1.0 + q);
    assert a * (1.0 + p) == 1.0;
    assert b * (1.0 + q) == 1.0;
    assert (1.0 + p) * (1.0 + q) == 2.0 + p + q;
    assert (a + b) * (2.0 + p + q) == a * (1.0 + p) * (1.0 + q) + b * (1.0 + q) * (1.0 + p);
    assert (a + b) * (2.0 + p + q) == 2.0 + p + q;
  }

  /** The two players' expected scores add up to one wherever 10^(-x) * 10^x = 1. */
  lemma ExpectedScoresComplementary(pow10: Power, ratingA: real, ratingB: real)
    requires pow10((ratingB - ratingA) / 400.0) * pow10((ratingA - ratingB) / 400.0) == 1.0
    ensures ExpectedScore(pow10, ratingA, ratingB) + ExpectedScore(pow10, ratingB, ratingA) == 1.0
  {
    ReciprocalShares(pow10((ratingB - ratingA) / 400.0), pow10((ratingA - ratingB) / 400.0));
  }

  /** The two new ratings: the winner scores 1, the loser 0, each against its expected score. */
  function EloUpdate(kFactor: real, winnerRating: real, loserRating: real, pow10: Power): (r: (real, real))
    ensures kFactor > 0.0 ==> r.0 > winnerRating && r.1 < loserRating
    ensures kFactor == 0.0 ==> r == (winnerRating, loserRating)
  {
    var winnerExpected := ExpectedScore(pow10, winnerRating, loserRating);
    var loserExpected := ExpectedScore(pow10, loserRating, winnerRating);
    (winnerRating + kFactor * (1.0 - winnerExpected), loserRating + kFactor * (0.0 - loserExpected))
  }

  /** Rating points move from the loser to the winner: an update keeps their sum. */
  lemma EloUpdateConservesSum(kFactor: real, winnerRating: real, loserRating: real, pow10: Power)
    requires pow10((loserRating - winnerRating) / 400.0) * pow10((winnerRating - loserRating) / 400.0) == 1.0
    ensures var r := EloUpdate(kFactor, winnerRating, loserRating, pow10);
            r.0 + r.1 == winnerRating + loserRating
  {
    ExpectedScoresComplementary(pow10, winnerRating, loserRating);
    var e := ExpectedScore(pow10, winnerRating, loserRating);
    var f := ExpectedScore(pow10, loserRating, winnerRating);
    assert kFactor * (1.0 - e) + kFactor * (0.0 - f) == kFactor * (1.0 - (e + f));
  }

  /** Reading the nested default dictionary. */
  function RatingIn(ratings: RatingTable, initialRating: real, player: PlayerId, surface: Surface): real {
    if player in ratings && surface in ratings[player] then ratings[player][surface] else initialRating
  }

  /** `ratings[player][surface] = value`. */
  function WithRating(ratings: RatingTable, player: PlayerId, surface: Surface, value: real): (r: RatingTable)
    ensures forall init :: RatingIn(r, init, player, surface) == value
    ensures forall init, p, s :: (p != player || s != surface) ==> RatingIn(r, init, p, s) == RatingIn(ratings, init, p, s)
  {
    ratings[player := (if player in ratings then ratings[player] else map[])[surface := value]]
  }

  class TennisEloRating {
    const kFactor: real
    const initialRating: real
    var ratings: RatingTable
    var history: seq<RatingRecord>

    constructor (kFactor: real, initialRating: real)
      ensures this.kFactor == kFactor && this.initialRating == initialRating
      ensures ratings == map[] && history == []
    {
      this.kFactor := kFactor;
      this.initialRating := initialRating;
      ratings := map[];
      history := [];
    }

    /** `get_rating`: the stored value, or the initial rating for a pair never updated. */
    function GetRating(player: PlayerId, surface: Surface): (r: real)
      reads this
      ensures !(player in ratings && surface in ratings[player]) ==> r == initialRating
      ensures player in ratings && surface in ratings[player] ==> r == ratings[player][surface]
    {
      RatingIn(ratings, initialRating, player, surface)
    }

    /**
      `update_ratings`: both ratings are read first, both are written (the loser's
      last, so a self-match keeps the loser's value), and two history records are appended.
    */
    method UpdateRatings(winnerId: PlayerId, loserId: PlayerId, surface: Surface, matchDate: Date, pow10: Power)
      returns (winnerNew: real, loserNew: real)
      modifies this
      ensures (winnerNew, loserNew) == EloUpdate(kFactor, old(GetRating(winnerId, surface)), old(GetRating(loserId, surface)), pow10)
      ensures ratings == WithRating(WithRating(old(ratings), winnerId, surface, winnerNew), loserId, surface, loserNew)
      ensures winnerId != loserId ==> GetRating(winnerId, surface) == winnerNew
      ensures GetRating(loserId, surface) == loserNew
      ensures forall p, s :: (p != winnerId && p != loserId) || s != surface ==> GetRating(p, s) == old(GetRating(p, s))
      ensures history == old(history) + [
                RatingRecord(matchDate, winnerId, surface, old(GetRating(winnerId, surface)), winnerNew, loserId, true),
                RatingRecord(matchDate, loserId, surface, old(GetRating(loserId, surface)), loserNew, winnerId, false)]
    {
      var winnerRating := GetRating(winnerId, surface);
      var loserRating := GetRating(loserId, surface);
      var updated := EloUpdate(kFactor, winnerRating, loserRating, pow10);
      winnerNew, loserNew := updated.0, updated.1;
      ratings := WithRating(ratings, winnerId, surface, winnerNew);
      ratings := WithRating(ratings, loserId, surface, loserNew);
      history := history + [
        RatingRecord(matchDate, winnerId, surface, winnerRating, winnerNew, loserId, true),
        RatingRecord(matchDate, loserId, surface, loserRating, loserNew, winnerId, false)];
    }
  }

  // ---------------------------------------------------------------------------
  // compute_elo_ratings
  // ---------------------------------------------------------------------------

  /** The Elo columns added to a match row. */
  datatype EloRow = EloRow(winnerEloBefore: real, loserEloBefore: real, winnerEloAfter: real, loserEloAfter: real, eloDiff: real)

  /** The rating table after one more match. */
  function ApplyMatch(ratings: RatingTable, kFactor: real, initialRating: real, m: MatchRow, pow10: Power): RatingTable {
    var before := (RatingIn(ratings, initialRating, m.winnerId, m.surface), RatingIn(ratings, initialRating, m.loserId, m.surface));
    var after := EloUpdate(kFactor, before.0, before.1, pow10);
    WithRating(WithRating(ratings, m.winnerId, m.surface, after.0), m.loserId, m.surface, after.1)
  }

  /** The rating table after replaying the matches in order from an empty store. */
  function RatingsAfter(matches: seq<MatchRow>, kFactor: real, initialRating: real, pow10: Power): RatingTable {
    if matches == [] then map[]
    else ApplyMatch(RatingsAfter(matches[..|matches| - 1], kFactor, initialRating, pow10), kFactor, initialRating, matches[|matches| - 1], pow10)
  }

  /** The Elo columns of match `m`, played against the table built from the earlier matches. */
  function EloRowOf(ratings: RatingTable, kFactor: real, initialRating: real, m: MatchRow, pow10: Power): EloRow {
    var before := (RatingIn(ratings, initialRating, m.winnerId, m.surface), RatingIn(ratings, initialRating, m.loserId, m.surface));
    var after := EloUpdate(kFactor, before.0, before.1, pow10);
    EloRow(before.0, before.1, after.0, after.1, before.0 - before.1)
  }

  /** The Elo columns for every match of the replay. */
  function EloTable(matches: seq<MatchRow>, kFactor: real, initialRating: real, pow10: Power): seq<EloRow> {
    if matches == [] then []
    else
      var earlier := matches[..|matches| - 1];
      EloTable(earlier, kFactor, initialRating, pow10)
      + [EloRowOf(RatingsAfter(earlier, kFactor, initialRating, pow10), kFactor, initialRating, matches[|matches| - 1], pow10)]
  }

  lemma {:induction false} EloTableLength(matches: seq<MatchRow>, kFactor: real, initialRating: real, pow10: Power)
    ensures |EloTable(matches, kFactor, initialRating, pow10)| == |matches|
  {
    if matches != [] {
      EloTableLength(matches[..|matches| - 1], kFactor, initialRating, pow10);
    }
  }

  /** Row `i` of the table is computed from the ratings left by matches `0 .. i-1`. */
  lemma {:induction false} EloTableRow(matches: seq<MatchRow>, kFactor: real, initialRating: real, pow10: Power, i: nat)
    requires i < |matches|
    ensures |EloTable(matches, kFactor, initialRating, pow10)| == |matches|
    ensures EloTable(matches, kFactor, initialRating, pow10)[i]
            == EloRowOf(RatingsAfter(matches[..i], kFactor, initialRating, pow10), kFactor, initialRating, matches[i], pow10)
  {
    EloTableLength(matches, kFactor, initialRating, pow10);
    var n := |matches| - 1;
    var earlier := matches[..n];
    var table := EloTable(earlier, kFactor, initialRating, pow10);
    EloTableLength(earlier, kFactor, initialRating, pow10);
    var last := EloRowOf(RatingsAfter(earlier, kFactor, initialRating, pow10), kFactor, initialRating, matches[n], pow10);
    assert EloTable(matches, kFactor, initialRating, pow10) == table + [last];
    if i < n {
      EloTableRow(earlier, kFactor, initialRating, pow10, i);
      assert earlier[..i] == matches[..i] && earlier[i] == matches[i];
      assert (table + [last])[i] == table[i];
    } else {
      assert (table + [last])[i] == last;
    }
  }

  /** The two history records of one match: the winner's, then the loser's. */
  function MatchRecords(m: MatchRow, row: EloRow): seq<RatingRecord> {
    [WinnerRecord(m, row), LoserRecord(m, row)]
  }

  function WinnerRecord(m: MatchRow, row: EloRow): RatingRecord {
    RatingRecord(m.date, m.winnerId, m.surface, row.winnerEloBefore, row.winnerEloAfter, m.loserId, true)
  }

  function LoserRecord(m: MatchRow, row: EloRow): RatingRecord {
    RatingRecord(m.date, m.loserId, m.surface, row.loserEloBefore, row.loserEloAfter, m.winnerId, false)
  }

  /** The store's history after the replay. */
  function RatingHistory(matches: seq<MatchRow>, kFactor: real, initialRating: real, pow10: Power): seq<RatingRecord> {
    if matches == [] then []
    else
      var earlier := matches[..|matches| - 1];
      RatingHistory(earlier, kFactor, initialRating, pow10)
      + MatchRecords(matches[|matches| - 1], EloRowOf(RatingsAfter(earlier, kFactor, initialRating, pow10), kFactor, initialRating, matches[|matches| - 1], pow10))
  }

  lemma {:induction false} RatingHistoryLength(matches: seq<MatchRow>, kFactor: real, initialRating: real, pow10: Power)
    ensures |RatingHistory(matches, kFactor, initialRating, pow10)| == 2 * |matches|
  {
    if matches != [] {
      RatingHistoryLength(matches[..|matches| - 1], kFactor, initialRating, pow10);
    }
  }

  /** The history as the history of the earlier matches followed by the last match's two records. */
  lemma RatingHistorySnoc(matches: seq<MatchRow>, kFactor: real, initialRating: real, pow10: Power)
    requires |matches| > 0
    ensures var n := |matches| - 1;
            && |RatingHistory(matches[..n], kFactor, initialRating, pow10)| == 2 * n
            && |EloTable(matches, kFactor, initialRating, pow10)| == |matches|
            && RatingHistory(matches, kFactor, initialRating, pow10)
               == RatingHistory(matches[..n], kFactor, initialRating, pow10)
                  + MatchRecords(matches[n], EloTable(matches, kFactor, initialRating, pow10)[n])
  {
    var n := |matches| - 1;
    RatingHistoryLength(matches[..n], kFactor, initialRating, pow10);
    EloTableRow(matches, kFactor, initialRating, pow10, n);
  }

  lemma EloTablePrefix(matches: seq<MatchRow>, kFactor: real, initialRating: real, pow10: Power, i: nat)
    requires i < |matches| - 1
    ensures |EloTable(matches[..|matches| - 1], kFactor, initialRating, pow10)| == |matches| - 1
    ensures |EloTable(matches, kFactor, initialRating, pow10)| == |matches|
    ensures EloTable(matches[..|matches| - 1], kFactor, initialRating, pow10)[i] == EloTable(matches, kFactor, initialRating, pow10)[i]
  {
    EloTableLength(matches[..|matches| - 1], kFactor, initialRating, pow10);
    EloTableLength(matches, kFactor, initialRating, pow10);
  }

  /** The history holds exactly two records per match: the winner's at 2i, the loser's at 2i+1, matching row i of the table. */
  lemma {:induction false} RatingHistoryRecords(matches: seq<MatchRow>, kFactor: real, initialRating: real, pow10: Power, i: nat)
    requires i < |matches|
    ensures |RatingHistory(matches, kFactor, initialRating, pow10)| == 2 * |matches|
    ensures |EloTable(matches, kFactor, initialRating, pow10)| == |matches|
    ensures RatingHistory(matches, kFactor, initialRating, pow10)[2 * i] == WinnerRecord(matches[i], EloTable(matches, kFactor, initialRating, pow10)[i])
    ensures RatingHistory(matches, kFactor, initialRating, pow10)[2 * i + 1] == LoserRecord(matches[i], EloTable(matches, kFactor, initialRating, pow10)[i])
  {
    var n := |matches| - 1;
    var earlier := matches[..n];
    RatingHistorySnoc(matches, kFactor, initialRating, pow10);
    if i < n {
      RatingHistoryRecords(earlier, kFactor, initialRating, pow10, i);
      EloTablePrefix(matches, kFactor, initialRating, pow10, i);
    }
  }

  /** In every row, `elo_diff` is the difference of the two pre-match ratings, and with K > 0 the winner gains and the loser loses. */
  lemma EloRowInvariants(ratings: RatingTable, kFactor: real, initialRating: real, m: MatchRow, pow10: Power)
    ensures var row := EloRowOf(ratings, kFactor, initialRating, m, pow10);
            && row.eloDiff == row.winnerEloBefore - row.loserEloBefore
            && row.winnerEloBefore == RatingIn(ratings, initialRating, m.winnerId, m.surface)
            && row.loserEloBefore == RatingIn(ratings, initialRating, m.loserId, m.surface)
            && (kFactor > 0.0 ==> row.winnerEloAfter > row.winnerEloBefore && row.loserEloAfter < row.loserEloBefore)
  {
  }

  /** A player who never appears on a surface still reads the initial rating there after the whole replay. */
  lemma {:induction false} UninvolvedKeepsInitial(matches: seq<MatchRow>, kFactor: real, initialRating: real, pow10: Power,
                                                  player: PlayerId, surface: Surface)
    requires forall i :: 0 <= i < |matches| && matches[i].surface == surface ==>
               matches[i].winnerId != player && matches[i].loserId != player
    ensures RatingIn(RatingsAfter(matches, kFactor, initialRating, pow10), initialRating, player, surface) == initialRating
  {
    if matches != [] {
      UninvolvedKeepsInitial(matches[..|matches| - 1], kFactor, initialRating, pow10, player, surface);
    }
  }

  /** The four Elo lists of `compute_elo_ratings` (as rows) and the store's rating history. */
  method ComputeEloRatings(matches: seq<MatchRow>, pow10: Power) returns (rows: seq<EloRow>, history: seq<RatingRecord>)
    ensures rows == EloTable(matches, DefaultKFactor, DefaultInitialRating, pow10)
    ensures history == RatingHistory(matches, DefaultKFactor, DefaultInitialRating, pow10)
  {
    var elo := new TennisEloRating(DefaultKFactor, DefaultInitialRating);
    rows := [];
    var i := 0;
    while i < |matches|
      invariant 0 <= i <= |matches|
      invariant elo.kFactor == DefaultKFactor && elo.initialRating == DefaultInitialRating
      invariant elo.ratings == RatingsAfter(matches[..i], DefaultKFactor, DefaultInitialRating, pow10)
      invariant rows == EloTable(matches[..i], DefaultKFactor, DefaultInitialRating, pow10)
      invariant elo.history == RatingHistory(matches[..i], DefaultKFactor, DefaultInitialRating, pow10)
    {
      assert matches[..i + 1][..i] == matches[..i];
      var m := matches[i];
      var winnerBefore := elo.GetRating(m.winnerId, m.surface);
      var loserBefore := elo.GetRating(m.loserId, m.surface);
      var winnerAfter, loserAfter := elo.UpdateRatings(m.winnerId, m.loserId, m.surface, m.date, pow10);
      var row := EloRow(winnerBefore, loserBefore, winnerAfter, loserAfter, winnerBefore - loserBefore);
      assert row == EloRowOf(RatingsAfter(matches[..i], DefaultKFactor, DefaultInitialRating, pow10), DefaultKFactor, DefaultInitialRating, m, pow10);
      rows := rows + [row];
      i := i + 1;
    }
    assert matches[..i] == matches;
    history := elo.history;
  }
}
