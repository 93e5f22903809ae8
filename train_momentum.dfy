/**
  Momentum sequences: per-game features of each match (running game counts, counts
  over the last five games, break-point running totals, a bounded momentum score) and
  the "server wins the next game" target.

  The point-by-point table comes in already grouped by match (in order of first
  appearance) and each match's games already sorted by game number.
*/
module TrainMomentum {
  import opened Wrappers

  /** One game of a match; player 1 is winner/server 0 and player 2 is 1. */
  datatype Game = Game(gameNum: int, server: int, gameWinner: int, breakPointsFaced: int, breakPointsSaved: int)

  datatype MomentumRow = MomentumRow(
    gameNum: int,
    server: int,
    cumulativeP1Games: nat,
    cumulativeP2Games: nat,
    totalGames: nat,
    recentP1Games: nat,
    recentP2Games: nat,
    cumulativeBpFaced: int,
    cumulativeBpSaved: int,
    momentumScore: real,
    nextGameServerWins: Option<bool>)

  /** Matches with fewer games than this are skipped. */
  const MinGames: int := 5

  /** The rolling window of the recent-games counts. */
  const Window: int := 5

  /** The number of the games won by `player`. */
  function GamesWon(games: seq<Game>, player: int): (n: nat)
    ensures n <= |games|
  {
    if games == [] then 0
    else GamesWon(games[..|games| - 1], player) + (if games[|games| - 1].gameWinner == player then 1 else 0)
  }

  /** Two different players cannot both win a game, and when every game has one of them as winner the counts add up. */
  lemma {:induction false} GamesWonSplit(games: seq<Game>)
    ensures GamesWon(games, 0) + GamesWon(games, 1) <= |games|
    ensures (forall i :: 0 <= i < |games| ==> games[i].gameWinner in {0, 1}) ==>
              GamesWon(games, 0) + GamesWon(games, 1) == |games|
  {
    if games != [] {
      GamesWonSplit(games[..|games| - 1]);
    }
  }

  function SumFaced(games: seq<Game>): int {
    if games == [] then 0 else SumFaced(games[..|games| - 1]) + games[|games| - 1].breakPointsFaced
  }

  function SumSaved(games: seq<Game>): int {
    if games == [] then 0 else SumSaved(games[..|games| - 1]) + games[|games| - 1].breakPointsSaved
  }

  /** `(r1 - r2) / max(1, r1 + r2)`. */
  function MomentumScore(recentP1: nat, recentP2: nat): (m: real)
    ensures -1.0 <= m <= 1.0
    ensures m > 0.0 <==> recentP1 > recentP2
  {
    var d := Max(1, recentP1 + recentP2) as real;
    var m := (recentP1 - recentP2) as real / d;
    assert (recentP1 - recentP2) as real <= d && -d <= (recentP1 - recentP2) as real;
    DivisionBounds((recentP1 - recentP2) as real, d);
    m
  }

  lemma DivisionBounds(x: real, d: real)
    requires d > 0.0 && -d <= x <= d
    ensures -1.0 <= x / d <= 1.0
    ensures x / d > 0.0 <==> x > 0.0
  {
    var q := x / d;
    assert x == q * d;
    if q > 0.0 {
      assert q * d > 0.0;
    } else {
      assert q * d <= 0.0;
    }
  }

  /** The games of the rolling window ending at game `i`: the last at most five, including game `i`. */
  function RecentGames(games: seq<Game>, i: nat): (w: seq<Game>)
    requires i < |games|
    ensures 1 <= |w| <= Window
    ensures |w| == (if i + 1 < Window then i + 1 else Window) && w[|w| - 1] == games[i]
  {
    games[Max(0, i - (Window - 1))..i + 1]
  }

  /** The features of game `i`; the target is `winner == server` of the next game, missing after the last game. */
  function RowAt(games: seq<Game>, i: nat, hasBreakPoints: bool): MomentumRow
    requires i < |games|
  {
    var played := games[..i + 1];
    var recent := RecentGames(games, i);
    var p1, p2 := GamesWon(played, 0), GamesWon(played, 1);
    var r1, r2 := GamesWon(recent, 0), GamesWon(recent, 1);
    MomentumRow(
      games[i].gameNum, games[i].server,
      p1, p2, p1 + p2,
      r1, r2,
      if hasBreakPoints then SumFaced(played) else 0,
      if hasBreakPoints then SumSaved(played) else 0,
      MomentumScore(r1, r2),
      if i + 1 < |games| then Some(games[i + 1].gameWinner == games[i + 1].server) else None)
  }

  /** The rows one match contributes: every game but the last; none for a match of fewer than five games. */
  function MatchRows(games: seq<Game>, hasBreakPoints: bool): (rows: seq<MomentumRow>)
    ensures |games| < MinGames ==> rows == []
    ensures |games| >= MinGames ==> |rows| == |games| - 1
    ensures forall i :: 0 <= i < |rows| ==> rows[i] == RowAt(games, i, hasBreakPoints)
  {
    if |games| < MinGames then []
    else seq(|games| - 1, i requires 0 <= i < |games| - 1 => RowAt(games, i, hasBreakPoints))
  }

  /** Every kept row has a target: the next game's `winner == server`. */
  lemma KeptRowsHaveTargets(games: seq<Game>, hasBreakPoints: bool, i: nat)
    requires i < |MatchRows(games, hasBreakPoints)|
    ensures MatchRows(games, hasBreakPoints)[i].nextGameServerWins == Some(games[i + 1].gameWinner == games[i + 1].server)
  {
  }

  /**
    The counting columns of a row: the running counts add up to the games played so
    far (when every winner is 0 or 1), the recent counts cover at most five games,
    and the momentum score lies in [-1, 1].
  */
  lemma RowCounts(games: seq<Game>, i: nat, hasBreakPoints: bool)
    requires i < |games|
    ensures var r := RowAt(games, i, hasBreakPoints);
            && r.totalGames == r.cumulativeP1Games + r.cumulativeP2Games
            && r.totalGames <= i + 1
            && r.recentP1Games + r.recentP2Games <= Window
            && r.recentP1Games + r.recentP2Games <= i + 1
            && -1.0 <= r.momentumScore <= 1.0
    ensures (forall j :: 0 <= j <= i ==> games[j].gameWinner in {0, 1}) ==> RowAt(games, i, hasBreakPoints).totalGames == i + 1
  {
    var played := games[..i + 1];
    GamesWonSplit(played);
    GamesWonSplit(RecentGames(games, i));
    if forall j :: 0 <= j <= i ==> games[j].gameWinner in {0, 1} {
      assert forall j :: 0 <= j < |played| ==> played[j].gameWinner in {0, 1} by {
        forall j | 0 <= j < |played| ensures played[j].gameWinner in {0, 1} {
          assert played[j] == games[j];
        }
      }
    }
  }

  /** The break-point columns are running totals: each row adds the game's own count to the previous row's. */
  lemma BreakPointsRunningTotals(games: seq<Game>, i: nat, hasBreakPoints: bool)
    requires 0 < i < |games|
    ensures hasBreakPoints ==>
              RowAt(games, i, hasBreakPoints).cumulativeBpFaced
              == RowAt(games, i - 1, hasBreakPoints).cumulativeBpFaced + games[i].breakPointsFaced
    ensures hasBreakPoints ==>
              RowAt(games, i, hasBreakPoints).cumulativeBpSaved
              == RowAt(games, i - 1, hasBreakPoints).cumulativeBpSaved + games[i].breakPointsSaved
    ensures !hasBreakPoints ==>
              RowAt(games, i, hasBreakPoints).cumulativeBpFaced == 0 && RowAt(games, i, hasBreakPoints).cumulativeBpSaved == 0
  {
    assert games[..i + 1][..i] == games[..i];
  }

  /** The result table: the rows of every match, match after match. */
  function MomentumSequences(matches: seq<seq<Game>>, hasBreakPoints: bool): seq<MomentumRow> {
    if matches == [] then []
    else MomentumSequences(matches[..|matches| - 1], hasBreakPoints) + MatchRows(matches[|matches| - 1], hasBreakPoints)
  }

  /** Rows of matches that are all too short: none at all. */
  lemma {:induction false} ShortMatchesOnly(matches: seq<seq<Game>>, hasBreakPoints: bool)
    requires forall k :: 0 <= k < |matches| ==> |matches[k]| < MinGames
    ensures MomentumSequences(matches, hasBreakPoints) == []
  {
    if matches != [] {
      ShortMatchesOnly(matches[..|matches| - 1], hasBreakPoints);
    }
  }

  /** Every row of the result has a target, so the missing-target filter drops nothing. */
  lemma {:induction false} AllRowsHaveTargets(matches: seq<seq<Game>>, hasBreakPoints: bool)
    ensures forall r :: r in MomentumSequences(matches, hasBreakPoints) ==> r.nextGameServerWins.Some?
  {
    if matches != [] {
      AllRowsHaveTargets(matches[..|matches| - 1], hasBreakPoints);
      var games := matches[|matches| - 1];
      forall r | r in MatchRows(games, hasBreakPoints) ensures r.nextGameServerWins.Some? {
        var i :| 0 <= i < |MatchRows(games, hasBreakPoints)| && MatchRows(games, hasBreakPoints)[i] == r;
        KeptRowsHaveTargets(games, hasBreakPoints, i);
      }
    }
  }

  /** `create_momentum_sequences`: the loop over matches, skipping the short ones. */
  method CreateMomentumSequences(matches: seq<seq<Game>>, hasBreakPoints: bool) returns (rows: seq<MomentumRow>)
    ensures rows == MomentumSequences(matches, hasBreakPoints)
  {
    rows := [];
    var k := 0;
    while k < |matches|
      invariant 0 <= k <= |matches|
      invariant rows == MomentumSequences(matches[..k], hasBreakPoints)
    {
      assert matches[..k + 1][..k] == matches[..k];
      var matchData := matches[k];
      if |matchData| >= MinGames {
        rows := rows + MatchRows(matchData, hasBreakPoints);
      }
      k := k + 1;
    }
    assert matches[..k] == matches;
  }

  /** The missing-target filter of `prepare_momentum_features`, with the target as 0/1. */
  function Targets(rows: seq<MomentumRow>): (y: seq<int>)
    ensures |y| <= |rows|
    ensures forall t :: t in y ==> t == 0 || t == 1
  {
    if rows == [] then []
    else
      var last := rows[|rows| - 1];
      Targets(rows[..|rows| - 1]) + (match last.nextGameServerWins case None => [] case Some(b) => [if b then 1 else 0])
  }

  lemma {:induction false} TargetsKeepAll(rows: seq<MomentumRow>)
    requires forall r :: r in rows ==> r.nextGameServerWins.Some?
    ensures |Targets(rows)| == |rows|
    ensures forall i :: 0 <= i < |rows| ==> Targets(rows)[i] == (if rows[i].nextGameServerWins.value then 1 else 0)
  {
    if rows != [] {
      assert rows[|rows| - 1] in rows;
      assert forall r :: r in rows[..|rows| - 1] ==> r in rows;
      TargetsKeepAll(rows[..|rows| - 1]);
    }
  }

  /** On the sequences this module builds, the target filter keeps every row. */
  lemma TargetFilterKeepsEverything(matches: seq<seq<Game>>, hasBreakPoints: bool)
    ensures |Targets(MomentumSequences(matches, hasBreakPoints))| == |MomentumSequences(matches, hasBreakPoints)|
  {
    AllRowsHaveTargets(matches, hasBreakPoints);
    TargetsKeepAll(MomentumSequences(matches, hasBreakPoints));
  }
}
