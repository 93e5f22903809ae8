/**
  Player archetypes: the per-player statistics fed to clustering, the rules that
  accept or replace the HDBSCAN clustering, and the labelling of each cluster.

  The clustering libraries are not modelled: HDBSCAN's labels (or its failure) and
  KMeans' labels enter as inputs, and so do the normal draws of the branch that
  uses break-point columns.
*/
module ClusterArchetypes {
  import opened Wrappers

  // ---------------------------------------------------------------------------
  // Player statistics
  // ---------------------------------------------------------------------------

  /** The columns of a match row the statistics read; an age or level may be missing. */
  datatype StatsMatch = StatsMatch(
    winnerId: int,
    loserId: int,
    surface: string,
    winnerAge: Option<real>,
    loserAge: Option<real>,
    tourneyLevel: Option<string>)

  datatype PlayerStats = PlayerStats(
    playerId: int,
    totalMatches: nat,
    winPercentage: real,
    serviceHoldRate: real,
    returnGameWinRate: real,
    bigMatchPercentage: real,
    recentForm: real,
    age: real,
    hardWinPct: real,
    hardMatches: nat,
    clayWinPct: real,
    clayMatches: nat,
    grassWinPct: real,
    grassMatches: nat)

  /** Players with fewer matches than this get no statistics. */
  const MinMatches: int := 10
  /** Recent form looks at this many of the latest matches. */
  const RecentWindow: int := 20
  /** The age used when none is recorded. */
  const DefaultAge: real := 25.0

  predicate Involves(m: StatsMatch, p: int) { m.winnerId == p || m.loserId == p }

  /** The matches a player took part in, in table order. */
  function PlayerMatches(matches: seq<StatsMatch>, p: int): (r: seq<StatsMatch>)
    ensures |r| <= |matches|
    ensures forall m :: m in r <==> m in matches && Involves(m, p)
  {
    if matches == [] then []
    else
      var last := matches[|matches| - 1];
      var init := matches[..|matches| - 1];
      assert matches == init + [last];
      PlayerMatches(init, p) + (if Involves(last, p) then [last] else [])
  }

  /** The number of the given matches that `p` won. */
  function WonBy(matches: seq<StatsMatch>, p: int): (n: nat)
    ensures n <= |matches|
  {
    if matches == [] then 0
    else WonBy(matches[..|matches| - 1], p) + (if matches[|matches| - 1].winnerId == p then 1 else 0)
  }

  function OnSurface(matches: seq<StatsMatch>, surface: string): (r: seq<StatsMatch>)
    ensures |r| <= |matches|
    ensures forall m :: m in r <==> m in matches && m.surface == surface
  {
    if matches == [] then []
    else
      var last := matches[|matches| - 1];
      OnSurface(matches[..|matches| - 1], surface) + (if last.surface == surface then [last] else [])
  }

  /** `wins / total`, in [0, 1] because the wins are among the matches counted. */
  function Share(wins: nat, total: nat): (r: real)
    requires wins <= total && total > 0
    ensures 0.0 <= r <= 1.0
  {
    wins as real / total as real
  }

  /** Win share and match count on one surface; a surface never played gets 0.5 and 0. */
  function SurfaceStat(playerMatches: seq<StatsMatch>, p: int, surface: string): (r: (real, nat))
    ensures 0.0 <= r.0 <= 1.0
    ensures r.1 == 0 ==> r.0 == 0.5
  {
    var onSurface := OnSurface(playerMatches, surface);
    if |onSurface| > 0 then (Share(WonBy(onSurface, p), |onSurface|), |onSurface|) else (0.5, 0)
  }

  /** Wins over the latest (at most) 20 matches, or 0.5 without any. */
  function RecentForm(playerMatches: seq<StatsMatch>, p: int): (r: real)
    ensures 0.0 <= r <= 1.0
    ensures playerMatches == [] ==> r == 0.5
  {
    var recent := playerMatches[|playerMatches| - Min(RecentWindow, |playerMatches|)..];
    if |recent| > 0 then Share(WonBy(recent, p), |recent|) else 0.5
  }

  predicate IsBigMatch(m: StatsMatch) {
    m.tourneyLevel == Some("G") || m.tourneyLevel == Some("M") || m.tourneyLevel == Some("A")
  }

  function BigMatches(matches: seq<StatsMatch>): (n: nat)
    ensures n <= |matches|
  {
    if matches == [] then 0
    else BigMatches(matches[..|matches| - 1]) + (if IsBigMatch(matches[|matches| - 1]) then 1 else 0)
  }

  /**
    The big-match share as written: without a `tourney_level` column the selection is
    `player_matches[[]]`, which keeps every row, so the share is total / total.
  */
  function BigMatchPctAsWritten(playerMatches: seq<StatsMatch>, hasTourneyLevel: bool): real {
    var selected := if hasTourneyLevel then BigMatches(playerMatches) else |playerMatches|;
    if |playerMatches| > 0 then selected as real / |playerMatches| as real else 0.0
  }

  /** Without the column every player with matches reads as playing only big matches. */
  lemma BigMatchPctAsWrittenWithoutColumn(playerMatches: seq<StatsMatch>)
    requires |playerMatches| > 0
    ensures BigMatchPctAsWritten(playerMatches, false) == 1.0
  {
    DivSelf(|playerMatches| as real);
  }

  /** The intended share: big matches over all matches, and 0 when the level is not recorded. */
  function BigMatchPct(playerMatches: seq<StatsMatch>, hasTourneyLevel: bool): (r: real)
    ensures 0.0 <= r <= 1.0
    ensures !hasTourneyLevel ==> r == 0.0
    ensures hasTourneyLevel ==> r == BigMatchPctAsWritten(playerMatches, hasTourneyLevel)
  {
    if hasTourneyLevel && |playerMatches| > 0 then Share(BigMatches(playerMatches), |playerMatches|) else 0.0
  }

  function Clamp01(x: real): (r: real)
    ensures 0.0 <= r <= 1.0
    ensures 0.0 <= x <= 1.0 ==> r == x
  {
    if x < 0.0 then 0.0 else if x > 1.0 then 1.0 else x
  }

  /** Service-hold and return estimates: noisy defaults with break-point columns, linear in the win share without. */
  function StyleEstimates(hasBreakPoints: bool, noise: (real, real), winPct: real): (r: (real, real)) {
    if hasBreakPoints then (0.75 + noise.0, 0.25 + noise.1)
    else (0.70 + 0.15 * (winPct - 0.5), 0.20 + 0.15 * (winPct - 0.5))
  }

  /** Without break-point columns the estimates stay inside [0.625, 0.775] and [0.125, 0.275]. */
  lemma StyleEstimatesWithoutBreakPoints(noise: (real, real), winPct: real)
    requires 0.0 <= winPct <= 1.0
    ensures var r := StyleEstimates(false, noise, winPct);
            0.625 <= r.0 <= 0.775 && 0.125 <= r.1 <= 0.275
  {
  }

  /** A player id with the age of that appearance; winners of every row are listed before losers. */
  function Appearances(matches: seq<StatsMatch>): (r: seq<(int, Option<real>)>)
    ensures |r| == 2 * |matches|
  {
    seq(|matches|, i requires 0 <= i < |matches| => (matches[i].winnerId, matches[i].winnerAge))
    + seq(|matches|, i requires 0 <= i < |matches| => (matches[i].loserId, matches[i].loserAge))
  }

  /** `drop_duplicates('player_id')`: the first appearance of every id, in order. */
  function DistinctIds(apps: seq<(int, Option<real>)>): (r: seq<int>)
    ensures forall i, j :: 0 <= i < j < |r| ==> r[i] != r[j]
    ensures forall p :: p in r <==> exists a :: a in apps && a.0 == p
  {
    if apps == [] then []
    else
      var init := apps[..|apps| - 1];
      var last := apps[|apps| - 1];
      assert apps == init + [last];
      var r := DistinctIds(init);
      if last.0 in r then r else r + [last.0]
  }

  /** The age of a player's first appearance, or 25 when that age is missing. */
  function AgeOf(apps: seq<(int, Option<real>)>, p: int): real {
    if apps == [] then DefaultAge
    else if apps[0].0 == p then (match apps[0].1 case Some(a) => a case None => DefaultAge)
    else AgeOf(apps[1..], p)
  }

  /** The statistics of one player, or None for a player with fewer than ten matches. */
  function PlayerStatsOf(matches: seq<StatsMatch>, p: int, hasBreakPoints: bool, hasTourneyLevel: bool,
                         noise: int -> (real, real)): (r: Option<PlayerStats>)
    ensures r.None? <==> |PlayerMatches(matches, p)| < MinMatches
    ensures r.Some? ==> ValidStats(r.value) && r.value.playerId == p && r.value.totalMatches == |PlayerMatches(matches, p)|
  {
    var pm := PlayerMatches(matches, p);
    if |pm| < MinMatches then None
    else
      var winPct := Share(WonBy(pm, p), |pm|);
      var hard, clay, grass := SurfaceStat(pm, p, "Hard"), SurfaceStat(pm, p, "Clay"), SurfaceStat(pm, p, "Grass");
      var style := StyleEstimates(hasBreakPoints, noise(p), winPct);
      Some(PlayerStats(p, |pm|, winPct, Clamp01(style.0), Clamp01(style.1), BigMatchPct(pm, hasTourneyLevel),
                       RecentForm(pm, p), AgeOf(Appearances(matches), p),
                       hard.0, hard.1, clay.0, clay.1, grass.0, grass.1))
  }

  /**
    A row's big-match share is the corrected one: the share as written when the tournament
    level is recorded, and 0 (where the code as written gives 1.0) when it is not.
  */
  lemma PlayerStatsBigMatchShare(matches: seq<StatsMatch>, p: int, hasBreakPoints: bool, hasTourneyLevel: bool,
                                 noise: int -> (real, real))
    requires |PlayerMatches(matches, p)| >= MinMatches
    ensures var s := PlayerStatsOf(matches, p, hasBreakPoints, hasTourneyLevel, noise).value;
            && s.bigMatchPercentage == BigMatchPct(PlayerMatches(matches, p), hasTourneyLevel)
            && (hasTourneyLevel ==> s.bigMatchPercentage == BigMatchPctAsWritten(PlayerMatches(matches, p), true))
            && (!hasTourneyLevel ==> s.bigMatchPercentage == 0.0 && BigMatchPctAsWritten(PlayerMatches(matches, p), false) == 1.0)
  {
    BigMatchPctAsWrittenWithoutColumn(PlayerMatches(matches, p));
  }

  /** What every statistics row satisfies: at least ten matches, every share and rate in [0, 1], surface defaults. */
  predicate ValidStats(s: PlayerStats) {
    && s.totalMatches >= MinMatches
    && 0.0 <= s.winPercentage <= 1.0
    && 0.0 <= s.serviceHoldRate <= 1.0
    && 0.0 <= s.returnGameWinRate <= 1.0
    && 0.0 <= s.bigMatchPercentage <= 1.0
    && 0.0 <= s.recentForm <= 1.0
    && 0.0 <= s.hardWinPct <= 1.0 && (s.hardMatches == 0 ==> s.hardWinPct == 0.5)
    && 0.0 <= s.clayWinPct <= 1.0 && (s.clayMatches == 0 ==> s.clayWinPct == 0.5)
    && 0.0 <= s.grassWinPct <= 1.0 && (s.grassMatches == 0 ==> s.grassWinPct == 0.5)
  }

  /** The statistics rows of the listed players, skipping those with too few matches. */
  function StatsFor(matches: seq<StatsMatch>, players: seq<int>, hasBreakPoints: bool, hasTourneyLevel: bool,
                    noise: int -> (real, real)): seq<PlayerStats> {
    if players == [] then []
    else
      var rest := StatsFor(matches, players[..|players| - 1], hasBreakPoints, hasTourneyLevel, noise);
      match PlayerStatsOf(matches, players[|players| - 1], hasBreakPoints, hasTourneyLevel, noise)
      case None => rest
      case Some(s) => rest + [s]
  }

  /**
    Every row is valid and belongs to a listed player, there are no more rows than players,
    and no player appears twice.
  */
  lemma {:induction false} StatsForProperties(matches: seq<StatsMatch>, players: seq<int>, hasBreakPoints: bool,
                                              hasTourneyLevel: bool, noise: int -> (real, real))
    requires forall i, j :: 0 <= i < j < |players| ==> players[i] != players[j]
    ensures var r := StatsFor(matches, players, hasBreakPoints, hasTourneyLevel, noise);
            && |r| <= |players|
            && (forall k :: 0 <= k < |r| ==> ValidStats(r[k]) && r[k].playerId in players)
            && (forall k, l :: 0 <= k < l < |r| ==> r[k].playerId != r[l].playerId)
  {
    if players != [] {
      var init := players[..|players| - 1];
      var p := players[|players| - 1];
      StatsForProperties(matches, init, hasBreakPoints, hasTourneyLevel, noise);
      var rest := StatsFor(matches, init, hasBreakPoints, hasTourneyLevel, noise);
      assert forall k :: 0 <= k < |rest| ==> rest[k].playerId in init;
      assert p !in init;
    }
  }

  /** `s` is the statistics row `PlayerStatsOf` gives for its own player. */
  predicate IsOwnRow(matches: seq<StatsMatch>, s: PlayerStats, hasBreakPoints: bool, hasTourneyLevel: bool,
                     noise: int -> (real, real)) {
    PlayerStatsOf(matches, s.playerId, hasBreakPoints, hasTourneyLevel, noise) == Some(s)
  }

  /** Every row in `rows` is the statistics `PlayerStatsOf` gives for its own player. */
  predicate AllOwnRows(matches: seq<StatsMatch>, rows: seq<PlayerStats>, hasBreakPoints: bool, hasTourneyLevel: bool,
                       noise: int -> (real, real)) {
    forall k :: 0 <= k < |rows| ==> IsOwnRow(matches, rows[k], hasBreakPoints, hasTourneyLevel, noise)
  }

  /** The rows `PlayerStatsOf` contributes: none, or its one row. */
  function RowsOf(row: Option<PlayerStats>): (r: seq<PlayerStats>)
    ensures |r| <= 1 && (r != [] <==> row.Some?) && (row.Some? ==> r == [row.value])
  {
    match row
    case None => []
    case Some(s) => [s]
  }

  /** One step of `StatsFor`: the last listed player contributes its row, if any, after the others' rows. */
  lemma StatsForStep(matches: seq<StatsMatch>, players: seq<int>, hasBreakPoints: bool, hasTourneyLevel: bool,
                     noise: int -> (real, real))
    requires players != []
    ensures StatsFor(matches, players, hasBreakPoints, hasTourneyLevel, noise)
         == StatsFor(matches, players[..|players| - 1], hasBreakPoints, hasTourneyLevel, noise)
            + RowsOf(PlayerStatsOf(matches, players[|players| - 1], hasBreakPoints, hasTourneyLevel, noise))
  {
  }

  /** Concatenating two lists of own rows gives a list of own rows. */
  lemma OwnRowsAppend(matches: seq<StatsMatch>, a: seq<PlayerStats>, b: seq<PlayerStats>, hasBreakPoints: bool,
                      hasTourneyLevel: bool, noise: int -> (real, real))
    requires AllOwnRows(matches, a, hasBreakPoints, hasTourneyLevel, noise)
    requires AllOwnRows(matches, b, hasBreakPoints, hasTourneyLevel, noise)
    ensures AllOwnRows(matches, a + b, hasBreakPoints, hasTourneyLevel, noise)
  {
    forall k | 0 <= k < |a + b| ensures IsOwnRow(matches, (a + b)[k], hasBreakPoints, hasTourneyLevel, noise) {
      if k < |a| {
        assert (a + b)[k] == a[k];
      } else {
        assert (a + b)[k] == b[k - |a|];
      }
    }
  }

  /** The row `PlayerStatsOf` gives, if any, is its player's own row. */
  lemma OwnRowOf(matches: seq<StatsMatch>, p: int, hasBreakPoints: bool, hasTourneyLevel: bool,
                 noise: int -> (real, real))
    ensures AllOwnRows(matches, RowsOf(PlayerStatsOf(matches, p, hasBreakPoints, hasTourneyLevel, noise)),
                       hasBreakPoints, hasTourneyLevel, noise)
  {
  }

  /** Every row is the statistics `PlayerStatsOf` gives for its own player. */
  lemma {:induction false} StatsForOwnRows(matches: seq<StatsMatch>, players: seq<int>, hasBreakPoints: bool,
                                           hasTourneyLevel: bool, noise: int -> (real, real))
    ensures AllOwnRows(matches, StatsFor(matches, players, hasBreakPoints, hasTourneyLevel, noise),
                       hasBreakPoints, hasTourneyLevel, noise)
  {
    if players != [] {
      var init, p := players[..|players| - 1], players[|players| - 1];
      StatsForOwnRows(matches, init, hasBreakPoints, hasTourneyLevel, noise);
      StatsForStep(matches, players, hasBreakPoints, hasTourneyLevel, noise);
      OwnRowOf(matches, p, hasBreakPoints, hasTourneyLevel, noise);
      OwnRowsAppend(matches, StatsFor(matches, init, hasBreakPoints, hasTourneyLevel, noise),
                    RowsOf(PlayerStatsOf(matches, p, hasBreakPoints, hasTourneyLevel, noise)),
                    hasBreakPoints, hasTourneyLevel, noise);
    }
  }

  /** Some row of `rows` belongs to player `q`. */
  predicate HasRowFor(rows: seq<PlayerStats>, q: int) {
    exists k :: 0 <= k < |rows| && rows[k].playerId == q
  }

  /** A row for `q` in either part is a row for `q` in the concatenation. */
  lemma RowForAppend(a: seq<PlayerStats>, b: seq<PlayerStats>, q: int)
    requires HasRowFor(a, q) || HasRowFor(b, q)
    ensures HasRowFor(a + b, q)
  {
    if HasRowFor(a, q) {
      var k :| 0 <= k < |a| && a[k].playerId == q;
      assert (a + b)[k] == a[k];
    } else {
      var k :| 0 <= k < |b| && b[k].playerId == q;
      assert (a + b)[|a| + k] == b[k];
    }
  }

  /** A player with at least ten matches gets a row of its own. */
  lemma RowForOf(matches: seq<StatsMatch>, q: int, hasBreakPoints: bool, hasTourneyLevel: bool,
                 noise: int -> (real, real))
    requires |PlayerMatches(matches, q)| >= MinMatches
    ensures HasRowFor(RowsOf(PlayerStatsOf(matches, q, hasBreakPoints, hasTourneyLevel, noise)), q)
  {
    assert RowsOf(PlayerStatsOf(matches, q, hasBreakPoints, hasTourneyLevel, noise))[0].playerId == q;
  }

  /** A listed id other than the last one is in the list without its last element. */
  lemma InPrefix(players: seq<int>, q: int)
    requires q in players && q != players[|players| - 1]
    ensures q in players[..|players| - 1]
  {
    assert players == players[..|players| - 1] + [players[|players| - 1]];
  }

  /** Every listed player with at least ten matches has a row. */
  lemma {:induction false} StatsForComplete(matches: seq<StatsMatch>, players: seq<int>, hasBreakPoints: bool,
                                            hasTourneyLevel: bool, noise: int -> (real, real), q: int)
    requires q in players && |PlayerMatches(matches, q)| >= MinMatches
    ensures HasRowFor(StatsFor(matches, players, hasBreakPoints, hasTourneyLevel, noise), q)
  {
    var init, p := players[..|players| - 1], players[|players| - 1];
    StatsForStep(matches, players, hasBreakPoints, hasTourneyLevel, noise);
    if q == p {
      RowForOf(matches, q, hasBreakPoints, hasTourneyLevel, noise);
    } else {
      InPrefix(players, q);
      StatsForComplete(matches, init, hasBreakPoints, hasTourneyLevel, noise, q);
    }
    RowForAppend(StatsFor(matches, init, hasBreakPoints, hasTourneyLevel, noise),
                 RowsOf(PlayerStatsOf(matches, p, hasBreakPoints, hasTourneyLevel, noise)), q);
  }

  /** Without break-point columns every statistics row has its service-hold and return estimates inside the linear band. */
  lemma {:induction false} StatsWithoutBreakPoints(matches: seq<StatsMatch>, players: seq<int>, hasTourneyLevel: bool,
                                                   noise: int -> (real, real))
    ensures forall s :: s in StatsFor(matches, players, false, hasTourneyLevel, noise) ==>
              s.serviceHoldRate <= 0.775 && s.returnGameWinRate <= 0.275
  {
    if players != [] {
      var init := players[..|players| - 1];
      StatsWithoutBreakPoints(matches, init, hasTourneyLevel, noise);
      var p := players[|players| - 1];
      var pm := PlayerMatches(matches, p);
      if |pm| >= MinMatches {
        StyleEstimatesWithoutBreakPoints(noise(p), Share(WonBy(pm, p), |pm|));
      }
    }
  }

  /** `calculate_player_statistics`: the loop over distinct players, appending the rows of those with enough matches. */
  method CalculatePlayerStatistics(matches: seq<StatsMatch>, hasBreakPoints: bool, hasTourneyLevel: bool,
                                   noise: int -> (real, real)) returns (stats: seq<PlayerStats>)
    ensures stats == StatsFor(matches, DistinctIds(Appearances(matches)), hasBreakPoints, hasTourneyLevel, noise)
    ensures forall k :: 0 <= k < |stats| ==> ValidStats(stats[k])
    ensures AllOwnRows(matches, stats, hasBreakPoints, hasTourneyLevel, noise)
    ensures forall k, l :: 0 <= k < l < |stats| ==> stats[k].playerId != stats[l].playerId
    ensures forall q :: q in DistinctIds(Appearances(matches)) && |PlayerMatches(matches, q)| >= MinMatches ==>
              HasRowFor(stats, q)
  {
    var players := DistinctIds(Appearances(matches));
    stats := [];
    var i := 0;
    while i < |players|
      invariant 0 <= i <= |players|
      invariant stats == StatsFor(matches, players[..i], hasBreakPoints, hasTourneyLevel, noise)
    {
      assert players[..i + 1][..i] == players[..i];
      var row := PlayerStatsOf(matches, players[i], hasBreakPoints, hasTourneyLevel, noise);
      if row.Some? {
        stats := stats + [row.value];
      }
      i := i + 1;
    }
    assert players[..i] == players;
    StatsForProperties(matches, players, hasBreakPoints, hasTourneyLevel, noise);
    StatsForOwnRows(matches, players, hasBreakPoints, hasTourneyLevel, noise);
    forall q | q in players && |PlayerMatches(matches, q)| >= MinMatches
      ensures HasRowFor(stats, q)
    {
      StatsForComplete(matches, players, hasBreakPoints, hasTourneyLevel, noise, q);
    }
  }

  // ---------------------------------------------------------------------------
  // Clustering rules
  // ---------------------------------------------------------------------------

  /** HDBSCAN's noise label. */
  const Noise: int := -1

  /** `max(5, n // 20)`. */
  function MinClusterSize(n: nat): (r: int)
    ensures r >= 5 && r >= n / 20
    ensures r == 5 || r == n / 20
  {
    Max(5, n / 20)
  }

  /** `min(6, max(3, n // 30))`: the fallback always asks KMeans for three to six clusters. */
  function KMeansClusterCount(n: nat): (r: int)
    ensures 3 <= r <= 6
    ensures n / 30 <= 3 ==> r == 3
    ensures n / 30 >= 6 ==> r == 6
  {
    Min(6, Max(3, n / 30))
  }

  function LabelSet(labels: seq<int>): (r: set<int>)
    ensures forall c :: c in r <==> c in labels
  {
    set i | 0 <= i < |labels| :: labels[i]
  }

  /** `len(set(labels)) - (1 if -1 in labels else 0)`: the number of distinct non-noise labels. */
  function ClusterCount(labels: seq<int>): (n: nat)
    ensures n == |LabelSet(labels) - {Noise}|
  {
    var all := LabelSet(labels);
    if Noise in all then
      assert all == (all - {Noise}) + {Noise};
      |all| - 1
    else
      assert all - {Noise} == all;
      |all|
  }

  function NoiseCount(labels: seq<int>): (n: nat)
    ensures n <= |labels|
    ensures n == 0 <==> Noise !in labels
  {
    if labels == [] then 0
    else
      var init := labels[..|labels| - 1];
      assert labels == init + [labels[|labels| - 1]];
      NoiseCount(init) + (if labels[|labels| - 1] == Noise then 1 else 0)
  }

  /**
    HDBSCAN's labels are kept iff there are at least two clusters and at most half the
    points are noise; with no points there is no cluster, so that case falls back too.
  */
  predicate HdbscanAccepted(labels: seq<int>) {
    && |labels| > 0
    && ClusterCount(labels) >= 2
    && !(NoiseCount(labels) as real / |labels| as real > 0.5)
  }

  /** The noise test is the integer test 2 * noise <= n. */
  lemma HdbscanAcceptedExact(labels: seq<int>)
    ensures HdbscanAccepted(labels) <==>
              |labels| > 0 && ClusterCount(labels) >= 2 && 2 * NoiseCount(labels) <= |labels|
  {
    if |labels| > 0 {
      MoreThanHalf(NoiseCount(labels) as real, |labels| as real);
    }
  }

  lemma MoreThanHalf(x: real, n: real)
    requires n > 0.0
    ensures x / n > 0.5 <==> 2.0 * x > n
  {
    var q := x / n;
    assert q * n == x;
    if q > 0.5 {
      assert q * n > 0.5 * n;
    } else {
      assert q * n <= 0.5 * n;
    }
  }

  datatype Clustering = Hdbscan(labels: seq<int>) | KMeans(clusters: int, labels: seq<int>)

  /**
    `perform_clustering`: HDBSCAN's result (None when the library raises) is kept when
    accepted; otherwise KMeans is run with the fallback cluster count.
  */
  function PerformClustering(n: nat, hdbscan: Option<seq<int>>, kmeans: int -> seq<int>): (c: Clustering)
    ensures c.Hdbscan? <==> hdbscan.Some? && HdbscanAccepted(hdbscan.value)
    ensures c.Hdbscan? ==> ClusterCount(c.labels) >= 2 && 2 * NoiseCount(c.labels) <= |c.labels|
    ensures c.KMeans? ==> 3 <= c.clusters <= 6 && c.clusters == KMeansClusterCount(n) && c.labels == kmeans(c.clusters)
  {
    if hdbscan.Some? && HdbscanAccepted(hdbscan.value) then
      HdbscanAcceptedExact(hdbscan.value);
      Hdbscan(hdbscan.value)
    else
      var k := KMeansClusterCount(n);
      KMeans(k, kmeans(k))
  }

  // ---------------------------------------------------------------------------
  // Archetype labels
  // ---------------------------------------------------------------------------

  const UniqueStyle: string := "Unique Style"
  const ServeCannon: string := "Serve Cannon"
  const AggressiveReturner: string := "Aggressive Returner"
  const ClayCourtSpecialist: string := "Clay Court Specialist"
  const AllCourtElite: string := "All-Court Elite"
  const DevelopingPlayer: string := "Developing Player"
  const BaselineGrinder: string := "Baseline Grinder"

  /** The averages of one cluster that pick its label. */
  datatype Profile = Profile(serviceHold: real, returnRate: real, clayPreference: real, winPct: real)

  /** The if/elif ladder: the first true test decides. */
  function Archetype(p: Profile): (name: string)
    ensures name == ServeCannon <==> p.serviceHold > 0.8
    ensures name == AggressiveReturner <==> p.serviceHold <= 0.8 && p.returnRate > 0.3
    ensures name == ClayCourtSpecialist <==> p.serviceHold <= 0.8 && p.returnRate <= 0.3 && p.clayPreference > 0.1
    ensures name == AllCourtElite <==>
              p.serviceHold <= 0.8 && p.returnRate <= 0.3 && p.clayPreference <= 0.1 && p.winPct > 0.7
    ensures name == DevelopingPlayer <==>
              p.serviceHold <= 0.8 && p.returnRate <= 0.3 && p.clayPreference <= 0.1 && p.winPct < 0.4
    ensures name == BaselineGrinder <==>
              p.serviceHold <= 0.8 && p.returnRate <= 0.3 && p.clayPreference <= 0.1 && 0.4 <= p.winPct <= 0.7
    ensures name != UniqueStyle
  {
    if p.serviceHold > 0.8 then ServeCannon
    else if p.returnRate > 0.3 then AggressiveReturner
    else if p.clayPreference > 0.1 then ClayCourtSpecialist
    else if p.winPct > 0.7 then AllCourtElite
    else if p.winPct < 0.4 then DevelopingPlayer
    else BaselineGrinder
  }

  /** The rows whose cluster label is `c`, in row order. */
  function Members(stats: seq<PlayerStats>, labels: seq<int>, c: int): (r: seq<PlayerStats>)
    requires |labels| == |stats|
    ensures forall s :: s in r ==> s in stats
    ensures c in labels ==> |r| > 0
  {
    if stats == [] then []
    else
      var n := |stats| - 1;
      var rest := Members(stats[..n], labels[..n], c);
      assert c in labels && c !in labels[..n] ==> labels[n] == c;
      if labels[n] == c then rest + [stats[n]] else rest
  }

  /** How many rows carry label `c`. */
  function LabelCount(labels: seq<int>, c: int): nat {
    if labels == [] then 0
    else LabelCount(labels[..|labels| - 1], c) + (if labels[|labels| - 1] == c then 1 else 0)
  }

  /** A cluster's members are exactly the rows labelled `c`, one entry per such row. */
  lemma {:induction false} MembersExact(stats: seq<PlayerStats>, labels: seq<int>, c: int)
    requires |labels| == |stats|
    ensures |Members(stats, labels, c)| == LabelCount(labels, c)
    ensures forall s :: s in Members(stats, labels, c) <==> exists i :: 0 <= i < |stats| && labels[i] == c && stats[i] == s
  {
    if stats != [] {
      var n := |stats| - 1;
      var ps, pl := stats[..n], labels[..n];
      MembersExact(ps, pl, c);
      var r := Members(stats, labels, c);
      var rest := Members(ps, pl, c);
      assert r == if labels[n] == c then rest + [stats[n]] else rest;
      forall s ensures s in r <==> exists i :: 0 <= i < |stats| && labels[i] == c && stats[i] == s {
        if s in r {
          if labels[n] == c && s == stats[n] {
            assert labels[n] == c && stats[n] == s;
          } else {
            assert s in rest;
            var i :| 0 <= i < |ps| && pl[i] == c && ps[i] == s;
            assert labels[i] == c && stats[i] == s;
          }
        }
        if exists i :: 0 <= i < |stats| && labels[i] == c && stats[i] == s {
          var i :| 0 <= i < |stats| && labels[i] == c && stats[i] == s;
          if i < n {
            assert pl[i] == c && ps[i] == s;
          }
        }
      }
    }
  }

  function SumOf(xs: seq<PlayerStats>, field: PlayerStats -> real): real {
    if xs == [] then 0.0 else SumOf(xs[..|xs| - 1], field) + field(xs[|xs| - 1])
  }

  function Mean(xs: seq<PlayerStats>, field: PlayerStats -> real): real {
    if xs == [] then 0.0 else SumOf(xs, field) / |xs| as real
  }

  /** A mean of values that are all at most `bound` is at most `bound`. */
  lemma {:induction false} SumBound(xs: seq<PlayerStats>, field: PlayerStats -> real, bound: real)
    requires forall s :: s in xs ==> field(s) <= bound
    ensures SumOf(xs, field) <= |xs| as real * bound
  {
    if xs != [] {
      var init := xs[..|xs| - 1];
      assert forall s :: s in init ==> s in xs;
      assert xs[|xs| - 1] in xs;
      SumBound(init, field, bound);
    }
  }

  lemma MeanBound(xs: seq<PlayerStats>, field: PlayerStats -> real, bound: real)
    requires |xs| > 0 && forall s :: s in xs ==> field(s) <= bound
    ensures Mean(xs, field) <= bound
  {
    SumBound(xs, field, bound);
    var n := |xs| as real;
    var q := SumOf(xs, field) / n;
    assert q * n == SumOf(xs, field);
    if q > bound {
      assert q * n > bound * n;
    }
  }

  function ServiceHold(s: PlayerStats): real { s.serviceHoldRate }
  function ReturnRate(s: PlayerStats): real { s.returnGameWinRate }
  function WinPct(s: PlayerStats): real { s.winPercentage }
  function ClayPct(s: PlayerStats): real { s.clayWinPct }
  function HardPct(s: PlayerStats): real { s.hardWinPct }
  function GrassPct(s: PlayerStats): real { s.grassWinPct }

  /** The cluster's averages; clay preference is the clay mean minus the mean of the hard and grass means. */
  function ClusterProfile(members: seq<PlayerStats>): Profile {
    Profile(Mean(members, ServiceHold), Mean(members, ReturnRate),
            Mean(members, ClayPct) - (Mean(members, HardPct) + Mean(members, GrassPct)) / 2.0,
            Mean(members, WinPct))
  }

  /** The label of cluster `c`: "Unique Style" for noise, otherwise the ladder on the cluster's averages. */
  function LabelFor(stats: seq<PlayerStats>, labels: seq<int>, c: int): (name: string)
    requires |labels| == |stats|
    ensures c == Noise <==> name == UniqueStyle
  {
    if c == Noise then UniqueStyle else Archetype(ClusterProfile(Members(stats, labels, c)))
  }

  /** Without break-point columns no cluster can be a "Serve Cannon" or an "Aggressive Returner". */
  lemma NoServeOrReturnArchetypes(stats: seq<PlayerStats>, labels: seq<int>, c: int)
    requires |labels| == |stats| && c in labels
    requires forall s :: s in stats ==> s.serviceHoldRate <= 0.775 && s.returnGameWinRate <= 0.275
    ensures LabelFor(stats, labels, c) != ServeCannon && LabelFor(stats, labels, c) != AggressiveReturner
  {
    if c != Noise {
      var members := Members(stats, labels, c);
      MeanBound(members, ServiceHold, 0.775);
      MeanBound(members, ReturnRate, 0.275);
    }
  }

  /**
    `assign_archetype_labels`: a label for every distinct cluster, then each row's
    archetype through that map. A label list of the wrong length makes the column
    assignment raise: None.
  */
  method AssignArchetypeLabels(stats: seq<PlayerStats>, labels: seq<int>)
    returns (r: Option<(map<int, string>, seq<string>)>)
    ensures r.None? <==> |labels| != |stats|
    ensures r.Some? ==>
              var (archetypeMap, archetypes) := r.value;
              && archetypeMap.Keys == LabelSet(labels)
              && (forall c :: c in archetypeMap ==> archetypeMap[c] == LabelFor(stats, labels, c))
              && |archetypes| == |stats|
              && (forall i :: 0 <= i < |stats| ==> archetypes[i] == LabelFor(stats, labels, labels[i]))
  {
    if |labels| != |stats| {
      return None;
    }
    var archetypeMap: map<int, string> := map[];
    var i := 0;
    while i < |labels|
      invariant 0 <= i <= |labels|
      invariant archetypeMap.Keys == LabelSet(labels[..i])
      invariant forall c :: c in archetypeMap ==> archetypeMap[c] == LabelFor(stats, labels, c)
    {
      assert labels[..i + 1] == labels[..i] + [labels[i]];
      var clusterId := labels[i];
      if clusterId !in archetypeMap {
        if clusterId == Noise {
          archetypeMap := archetypeMap[clusterId := UniqueStyle];
        } else {
          var archetype := Archetype(ClusterProfile(Members(stats, labels, clusterId)));
          archetypeMap := archetypeMap[clusterId := archetype];
        }
      }
      i := i + 1;
    }
    assert labels[..i] == labels;
    var archetypes := seq(|labels|, k requires 0 <= k < |labels| => archetypeMap[labels[k]]);
    r := Some((archetypeMap, archetypes));
  }
}
