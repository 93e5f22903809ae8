/**
  Match-level feature builders: surface-name normalisation, head-to-head records
  kept per unordered player pair, and rolling form over each player's earlier matches.
*/
module BuildFeatures {
  import opened Wrappers
  import opened MatchData

  // ---------------------------------------------------------------------------
  // Surface normalisation
  // ---------------------------------------------------------------------------

  predicate IsUpper(c: char) { 'A' <= c <= 'Z' }
  predicate IsLower(c: char) { 'a' <= c <= 'z' }
  predicate IsCased(c: char) { IsUpper(c) || IsLower(c) }

  function ToUpper(c: char): char { if IsLower(c) then (c as int - 32) as char else c }
  function ToLower(c: char): char { if IsUpper(c) then (c as int + 32) as char else c }

  /**
    `str.title()` on ASCII text: a letter is upper-cased when the character before
    it is not a letter, and lower-cased otherwise.
  */
  function TitleFrom(s: string, afterCased: bool): (t: string)
    ensures |t| == |s|
    ensures forall i :: 0 <= i < |s| ==> IsCased(t[i]) == IsCased(s[i])
  {
    if s == [] then []
    else
      var c := s[0];
      [if afterCased then ToLower(c) else ToUpper(c)] + TitleFrom(s[1..], IsCased(c))
  }

  function Title(s: string): string { TitleFrom(s, false) }

  /** Title-casing twice is title-casing once. */
  lemma {:induction false} TitleFromIdempotent(s: string, afterCased: bool)
    ensures TitleFrom(TitleFrom(s, afterCased), afterCased) == TitleFrom(s, afterCased)
  {
    if s != [] {
      var t := TitleFrom(s, afterCased);
      TitleFromIdempotent(s[1..], IsCased(s[0]));
      assert t[1..] == TitleFrom(s[1..], IsCased(s[0]));
      assert IsCased(t[0]) == IsCased(s[0]);
    }
  }

  const Hard: string := "Hard"
  const Clay: string := "Clay"
  const Grass: string := "Grass"

  /**
    The surface column after `fillna('Unknown').str.title()` and the mapping:
    Clay and Grass are kept, everything else (Hard, Carpet, Unknown, unmapped) becomes Hard.
  */
  function NormalizeSurface(raw: Option<string>): (r: string)
    ensures r == Hard || r == Clay || r == Grass
    ensures r == Clay <==> raw.Some? && Title(raw.value) == Clay
    ensures r == Grass <==> raw.Some? && Title(raw.value) == Grass
  {
    var titled := Title(if raw.None? then "Unknown" else raw.value);
    if titled == Clay then Clay
    else if titled == Grass then Grass
    else Hard
  }

  /** Normalisation is insensitive to the case the raw data uses, and a missing surface is hard court. */
  lemma NormalizeSurfaceExamples()
    ensures NormalizeSurface(Some("clay")) == Clay
    ensures NormalizeSurface(Some("GRASS")) == Grass
    ensures NormalizeSurface(Some("Carpet")) == Hard
    ensures NormalizeSurface(None) == Hard
  {
    TitleLowerClay();
    TitleUpperGrass();
    assert |Title("Carpet")| == 6 && |Title("Unknown")| == 7;
  }

  lemma TitleLowerClay()
    ensures Title("clay") == Clay
  {
    assert TitleFrom("y", true) == "y";
    assert TitleFrom("ay", true) == "ay";
    assert TitleFrom("lay", true) == "lay";
  }

  lemma TitleUpperGrass()
    ensures Title("GRASS") == Grass
  {
    assert TitleFrom("S", true) == "s";
    assert TitleFrom("SS", true) == "ss";
    assert TitleFrom("ASS", true) == "ass";
    assert TitleFrom("RASS", true) == "rass";
  }

  /** A lower-case tail stays as it is after a letter. */
  lemma {:induction false} LowerTail(s: string)
    requires forall i :: 0 <= i < |s| ==> IsLower(s[i])
    ensures TitleFrom(s, true) == s
  {
    if s != [] {
      LowerTail(s[1..]);
      assert [s[0]] + s[1..] == s;
    }
  }

  /** A capitalised word is its own title case. */
  lemma TitleOfTitled(s: string)
    requires |s| > 0 && IsUpper(s[0]) && forall i :: 1 <= i < |s| ==> IsLower(s[i])
    ensures Title(s) == s
  {
    LowerTail(s[1..]);
    assert [s[0]] + s[1..] == s;
  }

  /** Normalising an already-normalised surface changes nothing. */
  lemma NormalizeSurfaceIdempotent(raw: Option<string>)
    ensures NormalizeSurface(Some(NormalizeSurface(raw))) == NormalizeSurface(raw)
  {
    TitleOfTitled(Hard);
    TitleOfTitled(Clay);
    TitleOfTitled(Grass);
  }

  // ---------------------------------------------------------------------------
  // Head-to-head
  // ---------------------------------------------------------------------------

  type PairKey = (PlayerId, PlayerId)

  /** `tuple(sorted([a, b]))`. */
  function Key(a: PlayerId, b: PlayerId): (k: PairKey)
    ensures k.0 <= k.1
    ensures (k.0 == a && k.1 == b) || (k.0 == b && k.1 == a)
  {
    if a <= b then (a, b) else (b, a)
  }

  /** Both orders of a pair share one record. */
  lemma KeySymmetric(a: PlayerId, b: PlayerId)
    ensures Key(a, b) == Key(b, a)
  {
  }

  function KeyOf(m: MatchRow): PairKey { Key(m.winnerId, m.loserId) }

  /** Earlier meetings of the pair `k`. */
  function Meetings(matches: seq<MatchRow>, k: PairKey): nat {
    if matches == [] then 0
    else Meetings(matches[..|matches| - 1], k) + (if KeyOf(matches[|matches| - 1]) == k then 1 else 0)
  }

  /** Earlier meetings of the pair `k` won by `p`. */
  function MeetingsWon(matches: seq<MatchRow>, k: PairKey, p: PlayerId): nat {
    if matches == [] then 0
    else
      var m := matches[|matches| - 1];
      MeetingsWon(matches[..|matches| - 1], k, p) + (if KeyOf(m) == k && m.winnerId == p then 1 else 0)
  }

  lemma {:induction false} MeetingsWonBound(matches: seq<MatchRow>, k: PairKey, p: PlayerId)
    ensures MeetingsWon(matches, k, p) <= Meetings(matches, k)
  {
    if matches != [] {
      MeetingsWonBound(matches[..|matches| - 1], k, p);
    }
  }

  /** For two distinct players, their head-to-head wins add up to the number of meetings. */
  lemma {:induction false} MeetingsWonPartition(matches: seq<MatchRow>, a: PlayerId, b: PlayerId)
    requires a < b
    ensures MeetingsWon(matches, (a, b), a) + MeetingsWon(matches, (a, b), b) == Meetings(matches, (a, b))
  {
    if matches != [] {
      MeetingsWonPartition(matches[..|matches| - 1], a, b);
    }
  }

  /** A pair's head-to-head record: meetings and wins per player. */
  datatype H2HRecord = H2HRecord(matches: nat, wins: map<PlayerId, nat>)

  datatype H2HRow = H2HRow(h2hWins: nat, h2hLosses: int, h2hMatches: nat, h2hWinPct: real)

  /** Win share with the 0.5 default for an empty denominator. */
  function Pct(wins: nat, total: nat): (r: real)
    ensures wins <= total ==> 0.0 <= r <= 1.0
    ensures total == 0 ==> r == 0.5
  {
    if total > 0 then wins as real / total as real else 0.5
  }

  function H2HRowOf(total: nat, winnerWins: nat): H2HRow {
    H2HRow(winnerWins, total - winnerWins, total, Pct(winnerWins, total))
  }

  /** The head-to-head columns of match `i`, from the meetings before it. */
  function H2HRowAt(matches: seq<MatchRow>, i: nat): H2HRow
    requires i < |matches|
  {
    H2HRowOf(Meetings(matches[..i], KeyOf(matches[i])), MeetingsWon(matches[..i], KeyOf(matches[i]), matches[i].winnerId))
  }

  /** Every head-to-head row is consistent: losses = matches - wins, 0 <= wins <= matches, and the share in [0, 1]. */
  lemma H2HRowConsistent(matches: seq<MatchRow>, i: nat)
    requires i < |matches|
    ensures var r := H2HRowAt(matches, i);
            && r.h2hLosses == r.h2hMatches - r.h2hWins
            && 0 <= r.h2hWins <= r.h2hMatches
            && 0 <= r.h2hLosses
            && 0.0 <= r.h2hWinPct <= 1.0
            && (r.h2hMatches == 0 ==> r.h2hWinPct == 0.5)
  {
    MeetingsWonBound(matches[..i], KeyOf(matches[i]), matches[i].winnerId);
  }

  /** The dictionary of records kept by the loop agrees with the reference counts. */
  ghost predicate RecordsMatch(records: map<PairKey, H2HRecord>, prefix: seq<MatchRow>) {
    && (forall k :: k in records ==> k.0 <= k.1 && records[k].wins.Keys == {k.0, k.1})
    && (forall k :: k in records ==> records[k].matches == Meetings(prefix, k))
    && (forall k, p :: k in records && p in records[k].wins ==> records[k].wins[p] == MeetingsWon(prefix, k, p))
    && (forall k :: k !in records ==> Meetings(prefix, k) == 0)
  }

  /** A pair that never met has no wins either. */
  lemma NoMeetingsNoWins(prefix: seq<MatchRow>, k: PairKey, p: PlayerId)
    requires Meetings(prefix, k) == 0
    ensures MeetingsWon(prefix, k, p) == 0
  {
    MeetingsWonBound(prefix, k, p);
  }

  /** Creating the empty record of a new pair keeps the records consistent. */
  lemma RecordsInsert(records: map<PairKey, H2HRecord>, prefix: seq<MatchRow>, m: MatchRow)
    requires RecordsMatch(records, prefix) && KeyOf(m) !in records
    ensures RecordsMatch(records[KeyOf(m) := H2HRecord(0, map[m.winnerId := 0, m.loserId := 0])], prefix)
  {
    NoMeetingsNoWins(prefix, KeyOf(m), m.winnerId);
    NoMeetingsNoWins(prefix, KeyOf(m), m.loserId);
  }

  /** Counting match `i` into its pair's record gives the records of `matches[..i + 1]`. */
  lemma RecordsStep(records: map<PairKey, H2HRecord>, matches: seq<MatchRow>, i: nat)
    requires i < |matches| && RecordsMatch(records, matches[..i]) && KeyOf(matches[i]) in records
    ensures matches[i].winnerId in records[KeyOf(matches[i])].wins
    ensures var m := matches[i];
            var data := records[KeyOf(m)];
            RecordsMatch(records[KeyOf(m) := H2HRecord(data.matches + 1, data.wins[m.winnerId := data.wins[m.winnerId] + 1])],
                         matches[..i + 1])
  {
    var m := matches[i];
    var key := KeyOf(m);
    assert matches[..i + 1][..i] == matches[..i];
    var data := records[key];
    var updated := records[key := H2HRecord(data.matches + 1, data.wins[m.winnerId := data.wins[m.winnerId] + 1])];
    forall k | k !in updated ensures Meetings(matches[..i + 1], k) == 0 {
      assert k != key;
    }
  }

  /** One iteration of the head-to-head loop: the row of match `i` and the records with it counted. */
  method HeadToHeadStep(records: map<PairKey, H2HRecord>, matches: seq<MatchRow>, i: nat)
    returns (row: H2HRow, next: map<PairKey, H2HRecord>)
    requires i < |matches| && RecordsMatch(records, matches[..i])
    ensures row == H2HRowAt(matches, i)
    ensures RecordsMatch(next, matches[..i + 1])
  {
    var m := matches[i];
    var key := Key(m.winnerId, m.loserId);
    next := records;
    if key !in next {
      RecordsInsert(next, matches[..i], m);
      next := next[key := H2HRecord(0, map[m.winnerId := 0, m.loserId := 0])];
    }
    var data := next[key];
    var totalMatches := data.matches;
    var winnerWins := if m.winnerId in data.wins then data.wins[m.winnerId] else 0;
    row := H2HRow(winnerWins, totalMatches as int - winnerWins as int, totalMatches,
                  if totalMatches > 0 then winnerWins as real / totalMatches as real else 0.5);
    RecordsStep(next, matches, i);
    next := next[key := H2HRecord(data.matches + 1, data.wins[m.winnerId := data.wins[m.winnerId] + 1])];
  }

  /** `add_head_to_head_features`: one row per match, from the record of the pair before the match is added. */
  method AddHeadToHeadFeatures(matches: seq<MatchRow>) returns (rows: seq<H2HRow>)
    ensures |rows| == |matches|
    ensures forall i :: 0 <= i < |matches| ==> rows[i] == H2HRowAt(matches, i)
  {
    var records: map<PairKey, H2HRecord> := map[];
    rows := [];
    var i := 0;
    while i < |matches|
      invariant 0 <= i <= |matches|
      invariant |rows| == i
      invariant forall j :: 0 <= j < i ==> rows[j] == H2HRowAt(matches, j)
      invariant RecordsMatch(records, matches[..i])
    {
      var row;
      row, records := HeadToHeadStep(records, matches, i);
      ghost var earlierRows := rows;
      rows := rows + [row];
      forall j | 0 <= j < i + 1 ensures rows[j] == H2HRowAt(matches, j) {
        if j < i {
          assert rows[j] == earlierRows[j];
        }
      }
      i := i + 1;
    }
  }

  // ---------------------------------------------------------------------------
  // Rolling form
  // ---------------------------------------------------------------------------

  /** One entry of a player's match history. */
  datatype FormEntry = FormEntry(date: Date, surface: Surface, won: bool, opponent: PlayerId)

  /** The rolling-form columns of one player for one match. */
  datatype FormStats = FormStats(
    recentWins: nat,
    recentMatches: nat,
    recentWinPct: real,
    recentSurfaceWins: nat,
    recentSurfaceMatches: nat,
    recentSurfaceWinPct: real)

  datatype FormRow = FormRow(winner: FormStats, loser: FormStats)

  const FormHorizonDays: int := 365
  const DefaultWindowSize: int := 10

  /** The history entries at most 365 days before `date`, in order. */
  function WithinHorizon(history: seq<FormEntry>, date: Date): (r: seq<FormEntry>)
    ensures |r| <= |history|
    ensures forall e :: e in r <==> e in history && date - e.date <= FormHorizonDays
  {
    if history == [] then []
    else
      var e := history[|history| - 1];
      var init := history[..|history| - 1];
      assert history == init + [e];
      WithinHorizon(init, date) + (if date - e.date <= FormHorizonDays then [e] else [])
  }

  /**
    Python's `s[-k:]`: the last k entries for k > 0 (all of them when fewer), the
    whole list for k = 0 (since -0 is 0), and all but the first -k for k < 0.
  */
  function TailSlice<T>(s: seq<T>, k: int): (r: seq<T>)
    ensures |r| <= |s| && r == s[|s| - |r|..]
    ensures k > 0 ==> |r| == Min(k, |s|)
    ensures k == 0 ==> |r| == |s|
    ensures k < 0 ==> |r| == |s| - Min(-k, |s|)
  {
    if k > 0 then s[|s| - Min(k, |s|)..]
    else if k == 0 then s
    else s[Min(-k, |s|)..]
  }

  function Recent(history: seq<FormEntry>, date: Date, windowSize: int): seq<FormEntry> {
    TailSlice(WithinHorizon(history, date), windowSize)
  }

  function CountWon(entries: seq<FormEntry>): (n: nat)
    ensures n <= |entries|
  {
    if entries == [] then 0
    else CountWon(entries[..|entries| - 1]) + (if entries[|entries| - 1].won then 1 else 0)
  }

  function OnSurface(entries: seq<FormEntry>, surface: Surface): (r: seq<FormEntry>)
    ensures |r| <= |entries|
    ensures CountWon(r) <= CountWon(entries)
    ensures forall e :: e in r <==> e in entries && e.surface == surface
  {
    if entries == [] then []
    else
      var e := entries[|entries| - 1];
      var init := entries[..|entries| - 1];
      assert entries == init + [e];
      var rest := OnSurface(init, surface);
      if e.surface == surface then
        var r := rest + [e];
        assert r[..|r| - 1] == rest;
        r
      else rest
  }

  /**
    The form of a player before a match: the entries of the last 365 days, of which
    the last `windowSize`, counted overall and on the match's surface.
  */
  function FormOf(history: seq<FormEntry>, date: Date, surface: Surface, windowSize: int): (f: FormStats)
    ensures f.recentWins <= f.recentMatches <= |history|
    ensures windowSize > 0 ==> f.recentMatches <= windowSize
    ensures f.recentSurfaceWins <= f.recentSurfaceMatches <= f.recentMatches
    ensures f.recentSurfaceWins <= f.recentWins
    ensures 0.0 <= f.recentWinPct <= 1.0 && 0.0 <= f.recentSurfaceWinPct <= 1.0
    ensures f.recentMatches == 0 ==> f.recentWinPct == 0.5
    ensures f.recentSurfaceMatches == 0 ==> f.recentSurfaceWinPct == 0.5
  {
    var recent := Recent(history, date, windowSize);
    var wins := CountWon(recent);
    var surfaceMatches := OnSurface(recent, surface);
    var surfaceWins := CountWon(surfaceMatches);
    FormStats(wins, |recent|, Pct(wins, |recent|), surfaceWins, |surfaceMatches|, Pct(surfaceWins, |surfaceMatches|))
  }

  /** Every entry the form counts lies within the 365-day horizon and comes from the player's history. */
  lemma RecentWithinHorizon(history: seq<FormEntry>, date: Date, windowSize: int)
    ensures forall e :: e in Recent(history, date, windowSize) ==> e in history && date - e.date <= FormHorizonDays
  {
    var w := WithinHorizon(history, date);
    forall e | e in Recent(history, date, windowSize) ensures e in w {
      var r := Recent(history, date, windowSize);
      var i :| 0 <= i < |r| && r[i] == e;
      if windowSize > 0 {
        assert e == w[|w| - Min(windowSize, |w|) + i];
      } else if windowSize < 0 {
        assert e == w[Min(-windowSize, |w|) + i];
      }
    }
  }

  /** A player's history after the given matches: a win entry when they won, then a loss entry when they lost. */
  function History(matches: seq<MatchRow>, p: PlayerId): seq<FormEntry> {
    if matches == [] then []
    else
      var m := matches[|matches| - 1];
      History(matches[..|matches| - 1], p)
      + (if m.winnerId == p then [FormEntry(m.date, m.surface, true, m.loserId)] else [])
      + (if m.loserId == p then [FormEntry(m.date, m.surface, false, m.winnerId)] else [])
  }

  /** Matches won and lost by `p`, counted independently of the history. */
  function Wins(matches: seq<MatchRow>, p: PlayerId): nat {
    if matches == [] then 0
    else Wins(matches[1..], p) + (if matches[0].winnerId == p then 1 else 0)
  }

  function Losses(matches: seq<MatchRow>, p: PlayerId): nat {
    if matches == [] then 0
    else Losses(matches[1..], p) + (if matches[0].loserId == p then 1 else 0)
  }

  lemma {:induction false} WinsSnoc(matches: seq<MatchRow>, m: MatchRow, p: PlayerId)
    ensures Wins(matches + [m], p) == Wins(matches, p) + (if m.winnerId == p then 1 else 0)
    ensures Losses(matches + [m], p) == Losses(matches, p) + (if m.loserId == p then 1 else 0)
  {
    if matches != [] {
      assert (matches + [m])[1..] == matches[1..] + [m];
      WinsSnoc(matches[1..], m, p);
    }
  }

  lemma {:induction false} CountWonAppend(a: seq<FormEntry>, b: seq<FormEntry>)
    ensures CountWon(a + b) == CountWon(a) + CountWon(b)
  {
    if b != [] {
      assert (a + b)[..|a + b| - 1] == a + b[..|b| - 1];
      CountWonAppend(a, b[..|b| - 1]);
    } else {
      assert a + b == a;
    }
  }

  /**
    Each match adds exactly one won entry to the winner's history and one lost entry
    to the loser's: a history holds one entry per match played, its won entries being the wins.
  */
  lemma {:induction false} HistoryCounts(matches: seq<MatchRow>, p: PlayerId)
    ensures |History(matches, p)| == Wins(matches, p) + Losses(matches, p)
    ensures CountWon(History(matches, p)) == Wins(matches, p)
  {
    if matches != [] {
      var init := matches[..|matches| - 1];
      var m := matches[|matches| - 1];
      assert matches == init + [m];
      HistoryCounts(init, p);
      WinsSnoc(init, m, p);
      var w := if m.winnerId == p then [FormEntry(m.date, m.surface, true, m.loserId)] else [];
      var l := if m.loserId == p then [FormEntry(m.date, m.surface, false, m.winnerId)] else [];
      CountWonAppend(History(init, p), w);
      CountWonAppend(History(init, p) + w, l);
      assert CountWon(w) == (if m.winnerId == p then 1 else 0);
      assert CountWon(l) == 0;
    }
  }

  /** `History(matches[..i + 1], p)` in terms of `History(matches[..i], p)`. */
  lemma HistoryAt(matches: seq<MatchRow>, i: nat, p: PlayerId)
    requires i < |matches|
    ensures var m := matches[i];
            History(matches[..i + 1], p)
            == History(matches[..i], p)
               + (if m.winnerId == p then [FormEntry(m.date, m.surface, true, m.loserId)] else [])
               + (if m.loserId == p then [FormEntry(m.date, m.surface, false, m.winnerId)] else [])
  {
    assert matches[..i + 1][..i] == matches[..i];
  }

  function Lookup(histories: map<PlayerId, seq<FormEntry>>, p: PlayerId): seq<FormEntry> {
    if p in histories then histories[p] else []
  }

  /** The rolling-form columns of match `i`, from both players' histories before it. */
  function FormRowAt(matches: seq<MatchRow>, i: nat, windowSize: int): FormRow
    requires i < |matches|
  {
    var m := matches[i];
    FormRow(FormOf(History(matches[..i], m.winnerId), m.date, m.surface, windowSize),
            FormOf(History(matches[..i], m.loserId), m.date, m.surface, windowSize))
  }

  /** Appending one entry to the winner's list and one to the loser's adds exactly those entries to each history. */
  lemma LookupAfterAppends(base: map<PlayerId, seq<FormEntry>>, w: PlayerId, l: PlayerId, we: FormEntry, le: FormEntry, p: PlayerId)
    requires w in base && l in base
    ensures var first := base[w := base[w] + [we]];
            Lookup(first[l := first[l] + [le]], p)
            == Lookup(base, p) + (if w == p then [we] else []) + (if l == p then [le] else [])
  {
  }

  /** One iteration of the rolling-form loop: the row of match `i` and the histories with it appended. */
  method RollingFormStep(playerMatches: map<PlayerId, seq<FormEntry>>, matches: seq<MatchRow>, i: nat, windowSize: int)
    returns (row: FormRow, next: map<PlayerId, seq<FormEntry>>)
    requires i < |matches|
    requires forall p :: Lookup(playerMatches, p) == History(matches[..i], p)
    ensures row == FormRowAt(matches, i, windowSize)
    ensures forall p :: Lookup(next, p) == History(matches[..i + 1], p)
  {
    var m := matches[i];
    next := playerMatches;
    if m.winnerId !in next {
      next := next[m.winnerId := []];
    }
    if m.loserId !in next {
      next := next[m.loserId := []];
    }
    assert Lookup(next, m.winnerId) == History(matches[..i], m.winnerId);
    assert Lookup(next, m.loserId) == History(matches[..i], m.loserId);
    ghost var base := next;
    assert forall p :: Lookup(base, p) == History(matches[..i], p);
    var winnerForm := FormOf(next[m.winnerId], m.date, m.surface, windowSize);
    var loserForm := FormOf(next[m.loserId], m.date, m.surface, windowSize);
    row := FormRow(winnerForm, loserForm);
    var winEntry := FormEntry(m.date, m.surface, true, m.loserId);
    var lossEntry := FormEntry(m.date, m.surface, false, m.winnerId);
    next := next[m.winnerId := next[m.winnerId] + [winEntry]];
    next := next[m.loserId := next[m.loserId] + [lossEntry]];
    forall p ensures Lookup(next, p) == History(matches[..i + 1], p) {
      HistoryAt(matches, i, p);
      LookupAfterAppends(base, m.winnerId, m.loserId, winEntry, lossEntry, p);
    }
  }

  /** `add_rolling_form_features`: both players' form is read before the match is added to their histories. */
  method AddRollingFormFeatures(matches: seq<MatchRow>, windowSize: int) returns (rows: seq<FormRow>)
    ensures |rows| == |matches|
    ensures forall i :: 0 <= i < |matches| ==> rows[i] == FormRowAt(matches, i, windowSize)
  {
    var playerMatches: map<PlayerId, seq<FormEntry>> := map[];
    rows := [];
    var i := 0;
    while i < |matches|
      invariant 0 <= i <= |matches|
      invariant |rows| == i
      invariant forall j :: 0 <= j < i ==> rows[j] == FormRowAt(matches, j, windowSize)
      invariant forall p :: Lookup(playerMatches, p) == History(matches[..i], p)
    {
      var row;
      row, playerMatches := RollingFormStep(playerMatches, matches, i, windowSize);
      ghost var earlierRows := rows;
      rows := rows + [row];
      forall j | 0 <= j < i + 1 ensures rows[j] == FormRowAt(matches, j, windowSize) {
        if j < i {
          assert rows[j] == earlierRows[j];
        }
      }
      i := i + 1;
    }
  }
}
