/** padel_backend.py: the Flask backend of the padel scoreboard. One
    game_state dict holds the tennis scores, games, sets, the closed sets'
    scores and a detailed match_history; a point at 40 wins the game (no
    advantage), six games with a two-game lead win a set and two sets win
    the match. When the match is won a report is stored in match_storage
    for the winner screen, which marks it displayed and wipes it. */
module Backend {
  import opened Scoring
  import opened Text
  import opened MatchReport

  /** game_state['winner']. */
  datatype Winner = Winner(team: Side, teamName: string, finalSets: string, matchSummary: string,
                           totalGamesWon: int, matchDuration: string)

  /** game_state, less last_updated. Times are seconds on one clock.
      set_history is held as the (black, yellow) game counts of each closed
      set; its text entries such as "6-4" are SetTexts of them. */
  datatype GameState = GameState(
    score1: int, score2: int,
    point1: int, point2: int,
    game1: int, game2: int,
    set1: int, set2: int,
    matchWon: bool,
    winner: Option<Winner>,
    setScores: seq<(int, int)>,
    matchHistory: seq<HistoryEntry>,
    matchStartTime: int,
    matchEndTime: Option<int>)

  /** Everything the process keeps between requests. */
  datatype Server = Server(game: GameState, storage: Storage)

  /** The reply of POST /add_point: success, the 400 for a finished match,
      or the 500 raised when the score field holds no tennis score. */
  datatype Reply = Accepted | AlreadyCompleted | ServerError

  function Score(g: GameState, side: Side): int { if side == Black then g.score1 else g.score2 }
  function Points(g: GameState, side: Side): int { if side == Black then g.point1 else g.point2 }
  function Games(g: GameState, side: Side): int { if side == Black then g.game1 else g.game2 }
  function Sets(g: GameState, side: Side): int { if side == Black then g.set1 else g.set2 }

  /** The state a fresh process, or reset_match, starts from. */
  function Fresh(now: int): GameState
  {
    GameState(0, 0, 0, 0, 0, 0, 0, 0, false, None, [], [], now, None)
  }

  function Initial(now: int): Server
  {
    Server(Fresh(now), Wiped)
  }

  /** add_to_history. */
  function Logged(g: GameState, action: Action, team: Side,
                  scores: ((int, int), (int, int)), games: ((int, int), (int, int)), sets: ((int, int), (int, int)),
                  now: int): GameState
  {
    g.(matchHistory := g.matchHistory + [HistoryEntry(now, action, team, scores.0, scores.1, games.0, games.1, sets.0, sets.1)])
  }

  /** The side check_match_winner declares: Black's two sets are looked at first. */
  function Decided(g: GameState): Option<Side>
  {
    if g.set1 >= 2 then Some(Black) else if g.set2 >= 2 then Some(Yellow) else None
  }

  /** The side check_set_winner closes a set for: Black's games are looked at first. */
  function SetClosedBy(g: GameState): Option<Side>
  {
    if WinsSet(g.game1, g.game2) then Some(Black) else if WinsSet(g.game2, g.game1) then Some(Yellow) else None
  }

  /** What the set and match checks need to read the state back: no
      negative game count, in the closed sets or in the current one (a
      negative count would be written with a sign that int() then rejects
      after the split on '-'). */
  predicate Readable(g: GameState)
  {
    NonNegative(g.setScores) && g.game1 >= 0 && g.game2 >= 0
  }

  /** The winner record check_match_winner builds for `side`. The source
      totals the games by reading the set texts back; WinnerReadsTexts
      proves that reading gives the closed sets' games used here. */
  function WinnerFor(side: Side, sets: (int, int), setScores: seq<(int, int)>, games: int, start: int, now: int): (w: Winner)
    ensures w.team == side && w.teamName == TeamName(side)
    ensures w.totalGamesWon == GamesIn(setScores, side) + games
  {
    Winner(side, TeamName(side), PairText(sets.0, sets.1), Join(SetTexts(setScores), ", "),
           GamesIn(setScores, side) + games, MatchDurationText(start, Some(now)))
  }

  /** total_games_won, as the source computes it: the chosen column of each
      set_history text parsed back, plus the current games. */
  lemma WinnerReadsTexts(side: Side, sets: (int, int), setScores: seq<(int, int)>, games: int, start: int, now: int)
    requires NonNegative(setScores)
    ensures SetScoresReadable(SetTexts(setScores))
    ensures WinnerFor(side, sets, setScores, games, start, now).totalGamesWon == SumColumn(SetTexts(setScores), side) + games
    ensures WinnerFor(side, sets, setScores, games, start, now).matchSummary == Join(SetTexts(setScores), ", ")
  {
    GamesReadBack(setScores, side);
  }

  /** The winning branch of check_match_winner for `side`, on game_state. */
  function DeclaredGame(g: GameState, side: Side, now: int): GameState
    requires NonNegative(g.setScores)
  {
    var g1 := g.(matchWon := true, matchEndTime := Some(now));
    var g2 := g1.(winner := Some(WinnerFor(side, (g.set1, g.set2), g.setScores, Games(g, side), g.matchStartTime, now)));
    Logged(g2, MatchWon, side, ((g.score1, g.score2), (g.score1, g.score2)),
           ((g.game1, g.game2), (g.game1, g.game2)), ((g.set1, g.set2), (g.set1, g.set2)), now)
  }

  /** check_match_winner on game_state. */
  function MatchCheckGame(g: GameState, now: int): GameState
    requires NonNegative(g.setScores)
  {
    match Decided(g)
    case None => g
    case Some(side) => DeclaredGame(g, side, now)
  }

  /** The branch of check_set_winner that closes a set for `side`, before
      the match check: the set is counted, its games logged in set_history,
      a 'set' entry written and both game counts zeroed. */
  function ClosedGame(g: GameState, side: Side, now: int): (r: GameState)
    requires Readable(g)
    ensures NonNegative(r.setScores)
  {
    var setBefore := (g.set1, g.set2);
    var g1 := (if side == Black then g.(set1 := g.set1 + 1) else g.(set2 := g.set2 + 1))
                .(setScores := g.setScores + [(g.game1, g.game2)]);
    var g2 := Logged(g1, SetWon, side, ((g.score1, g.score2), (0, 0)), ((g.game1, g.game2), (0, 0)),
                     (setBefore, (g1.set1, g1.set2)), now);
    g2.(game1 := 0, game2 := 0)
  }

  /** check_set_winner on game_state. */
  function SetCheckGame(g: GameState, now: int): (r: GameState)
    requires Readable(g)
    ensures Readable(r)
  {
    match SetClosedBy(g)
    case None => g
    case Some(side) => MatchCheckGame(ClosedGame(g, side, now), now)
  }

  /** Whether check_set_winner ends the match: it closes a set and the
      closed set leaves one side with two. */
  function SetDecides(g: GameState): bool
  {
    match SetClosedBy(g)
    case None => false
    case Some(side) => Sets(g, side) + 1 >= 2 || Sets(g, Other(side)) >= 2
  }

  /** The counters once `team` wins the game at 40, before the set check. */
  function GameTaken(g: GameState, team: Side): GameState
  {
    var g1 := if team == Black then g.(game1 := g.game1 + 1) else g.(game2 := g.game2 + 1);
    g1.(score1 := 0, score2 := 0, point1 := 0, point2 := 0)
  }

  function WithScore(g: GameState, side: Side, score: int): GameState
  {
    if side == Black then g.(score1 := score) else g.(score2 := score)
  }

  function CountedPoint(g: GameState, team: Side): GameState
  {
    if team == Black then g.(point1 := g.point1 + 1) else g.(point2 := g.point2 + 1)
  }

  /** An entry of `action` for `team` from the counters of `before` to
      those of `after`, appended to the history of `after`. */
  function Step(before: GameState, after: GameState, action: Action, team: Side, now: int): GameState
  {
    Logged(after, action, team, ((before.score1, before.score2), (after.score1, after.score2)),
           ((before.game1, before.game2), (after.game1, after.game2)), ((before.set1, before.set2), (after.set1, after.set2)), now)
  }

  /** A point below 40: one step up the ladder and a 'point' entry. */
  function LadderPoint(g: GameState, team: Side, now: int): GameState
    requires BelowForty(Score(g, team))
  {
    var g1 := CountedPoint(WithScore(g, team, LadderNext(Score(g, team))), team);
    Step(g, g1, Point, team, now)
  }

  /** A point at 40: the game is won, the set check runs, the point counter
      moves, and a 'game' entry is written unless the match is over. */
  function FortyPoint(g: GameState, team: Side, now: int): GameState
    requires Readable(g)
  {
    var g1 := CountedPoint(SetCheckGame(GameTaken(g, team), now), team);
    if g1.matchWon then g1 else Step(g, g1, Game, team, now)
  }

  /** POST /add_point for `team` at time `now`, on game_state. */
  function PointGame(g: GameState, team: Side, now: int): (r: (GameState, Reply))
    requires Readable(g)
    ensures Readable(r.0)
  {
    if g.matchWon then (g, AlreadyCompleted)
    else if BelowForty(Score(g, team)) then (LadderPoint(g, team, now), Accepted)
    else if Score(g, team) == 40 then (FortyPoint(g, team, now), Accepted)
    else (CountedPoint(g, team), ServerError)
  }

  /** check_match_winner: nothing happens before one side has two sets;
      then the match is won at `now`, the winner record names that side
      and totals its games, and one 'match' entry is logged. */
  lemma MatchCheckFacts(g: GameState, now: int)
    requires NonNegative(g.setScores)
    ensures Decided(g).None? ==> MatchCheckGame(g, now) == g
    ensures Decided(g).Some? ==>
      var r, side := MatchCheckGame(g, now), Decided(g).value;
      && r.matchWon && r.matchEndTime == Some(now)
      && r.winner.Some? && r.winner.value.team == side
      && r.winner.value.totalGamesWon == GamesIn(g.setScores, side) + Games(g, side)
      && r.(matchWon := g.matchWon, winner := g.winner, matchEndTime := g.matchEndTime, matchHistory := g.matchHistory) == g
      && |r.matchHistory| == |g.matchHistory| + 1
      && r.matchHistory[..|g.matchHistory|] == g.matchHistory
      && r.matchHistory[|g.matchHistory|].action == MatchWon
      && r.matchHistory[|g.matchHistory|].team == side
  {
  }

  /** check_set_winner: a set is closed only at six games with a two-game
      lead; closing it counts it, records its games, logs a 'set' entry
      and zeroes the games, and the match is won exactly when a side then
      holds two sets. */
  lemma SetCheckFacts(g: GameState, now: int)
    requires Readable(g) && !g.matchWon
    ensures SetClosedBy(g).None? ==> SetCheckGame(g, now) == g
    ensures SetClosedBy(g).Some? ==>
      var r, side := SetCheckGame(g, now), SetClosedBy(g).value;
      && WinsSet(Games(g, side), Games(g, Other(side)))
      && Sets(r, side) == Sets(g, side) + 1 && Sets(r, Other(side)) == Sets(g, Other(side))
      && r.setScores == g.setScores + [(g.game1, g.game2)]
      && r.game1 == 0 && r.game2 == 0
      && (r.score1, r.score2, r.point1, r.point2) == (g.score1, g.score2, g.point1, g.point2)
      && r.matchWon == SetDecides(g) && r.matchWon == (r.set1 >= 2 || r.set2 >= 2)
      && |r.matchHistory| > |g.matchHistory|
      && r.matchHistory[..|g.matchHistory|] == g.matchHistory
      && r.matchHistory[|g.matchHistory|].action == SetWon
      && r.matchHistory[|g.matchHistory|].team == side
  {
    if SetClosedBy(g).Some? {
      SetCheckCounts(g, now);
      SetCheckHistory(g, now);
    }
  }

  lemma SetCheckCounts(g: GameState, now: int)
    requires Readable(g) && !g.matchWon && SetClosedBy(g).Some?
    ensures
      var r, side := SetCheckGame(g, now), SetClosedBy(g).value;
      && WinsSet(Games(g, side), Games(g, Other(side)))
      && Sets(r, side) == Sets(g, side) + 1 && Sets(r, Other(side)) == Sets(g, Other(side))
      && r.setScores == g.setScores + [(g.game1, g.game2)]
      && r.game1 == 0 && r.game2 == 0
      && (r.score1, r.score2, r.point1, r.point2) == (g.score1, g.score2, g.point1, g.point2)
      && r.matchWon == SetDecides(g) && r.matchWon == (r.set1 >= 2 || r.set2 >= 2)
  {
    var side := SetClosedBy(g).value;
    var c := ClosedGame(g, side, now);
    ClosedGameFacts(g, side, now);
    assert SetCheckGame(g, now) == MatchCheckGame(c, now);
    MatchCheckFacts(c, now);
  }

  lemma SetCheckHistory(g: GameState, now: int)
    requires Readable(g) && !g.matchWon && SetClosedBy(g).Some?
    ensures
      var r, side := SetCheckGame(g, now), SetClosedBy(g).value;
      && |r.matchHistory| > |g.matchHistory|
      && r.matchHistory[..|g.matchHistory|] == g.matchHistory
      && r.matchHistory[|g.matchHistory|].action == SetWon
      && r.matchHistory[|g.matchHistory|].team == side
  {
    var side := SetClosedBy(g).value;
    var c := ClosedGame(g, side, now);
    ClosedGameFacts(g, side, now);
    assert SetCheckGame(g, now) == MatchCheckGame(c, now);
    MatchCheckFacts(c, now);
  }

  /** The set-closing branch, field by field. */
  lemma ClosedGameFacts(g: GameState, side: Side, now: int)
    requires Readable(g)
    ensures
      var c, n := ClosedGame(g, side, now), |g.matchHistory|;
      && Sets(c, side) == Sets(g, side) + 1 && Sets(c, Other(side)) == Sets(g, Other(side))
      && c.setScores == g.setScores + [(g.game1, g.game2)]
      && c.game1 == 0 && c.game2 == 0
      && (c.score1, c.score2, c.point1, c.point2) == (g.score1, g.score2, g.point1, g.point2)
      && c.matchWon == g.matchWon
      && |c.matchHistory| == n + 1 && c.matchHistory[..n] == g.matchHistory
      && c.matchHistory[n].action == SetWon && c.matchHistory[n].team == side
  {
  }

  /** add_point on a finished match: refused, nothing changes. */
  lemma PointRefused(g: GameState, team: Side, now: int)
    requires Readable(g) && g.matchWon
    ensures PointGame(g, team, now) == (g, AlreadyCompleted)
  {
  }

  /** add_point below 40: one ladder step, one more point, one 'point'
      entry, nothing else. */
  lemma PointBelowForty(g: GameState, team: Side, now: int)
    requires Readable(g) && !g.matchWon && BelowForty(Score(g, team))
    ensures
      var r := PointGame(g, team, now);
      && r.1 == Accepted
      && Score(r.0, team) == LadderNext(Score(g, team)) && Score(r.0, Other(team)) == Score(g, Other(team))
      && Points(r.0, team) == Points(g, team) + 1 && Points(r.0, Other(team)) == Points(g, Other(team))
      && r.0.(score1 := g.score1, score2 := g.score2, point1 := g.point1, point2 := g.point2,
              matchHistory := g.matchHistory) == g
      && |r.0.matchHistory| == |g.matchHistory| + 1
      && r.0.matchHistory[..|g.matchHistory|] == g.matchHistory
      && r.0.matchHistory[|g.matchHistory|].action == Point
  {
  }

  /** add_point at 40 wins the game whatever the opponent holds: both
      scores back to 0, the scorer's point counter at 1, the scorer's game
      counted (or its set closed, which zeroes the games). */
  lemma PointAtForty(g: GameState, team: Side, now: int)
    requires Readable(g) && !g.matchWon && Score(g, team) == 40
    ensures
      var r := PointGame(g, team, now);
      var t := GameTaken(g, team);
      && r.1 == Accepted
      && r.0.score1 == 0 && r.0.score2 == 0
      && Points(r.0, team) == 1 && Points(r.0, Other(team)) == 0
      && (SetClosedBy(t).None? ==> Games(r.0, team) == Games(g, team) + 1 && Games(r.0, Other(team)) == Games(g, Other(team)))
      && (SetClosedBy(t).Some? ==> r.0.game1 == 0 && r.0.game2 == 0 && r.0.setScores == g.setScores + [(t.game1, t.game2)])
      && r.0.matchWon == SetDecides(t)
      && |r.0.matchHistory| > |g.matchHistory|
      && r.0.matchHistory[..|g.matchHistory|] == g.matchHistory
  {
    assert PointGame(g, team, now) == (FortyPoint(g, team, now), Accepted);
    SetCheckFacts(GameTaken(g, team), now);
  }

  /** A score field off the 0/15/30/40 ladder: the point counter moves,
      then the handler fails on the unbound action. */
  lemma PointOffLadder(g: GameState, team: Side, now: int)
    requires Readable(g) && !g.matchWon && !OnLadder(Score(g, team))
    ensures PointGame(g, team, now) == (CountedPoint(g, team), ServerError)
  {
  }

  /** A point ends the match exactly when it wins a game at 40 that closes
      the scorer's deciding set; the match then has a winner and an end. */
  lemma PointEndsMatch(g: GameState, team: Side, now: int)
    requires Readable(g)
    ensures !g.matchWon ==>
      PointGame(g, team, now).0.matchWon == (Score(g, team) == 40 && SetDecides(GameTaken(g, team)))
    ensures !g.matchWon && PointGame(g, team, now).0.matchWon ==>
      PointGame(g, team, now).0.winner.Some? && PointGame(g, team, now).0.matchEndTime.Some?
  {
    if !g.matchWon && Score(g, team) == 40 {
      var t := GameTaken(g, team);
      SetCheckFacts(t, now);
      if SetClosedBy(t).Some? {
        MatchCheckFacts(ClosedGame(t, SetClosedBy(t).value, now), now);
      }
    }
  }

  /** The match_data store_match_data writes for a won match. */
  function ReportFor(history: seq<HistoryEntry>, setScores: seq<(int, int)>, w: Winner, start: int, end: int): (rep: Report)
    requires NonNegative(setScores)
    ensures rep.winnerTeam == w.team && rep.winnerName == w.teamName && rep.finalSetsScore == w.finalSets
    ensures |rep.setsBreakdown| == |setScores|
    ensures rep.totalPointsWon == (CountEntries(history, Point, Black), CountEntries(history, Point, Yellow))
    ensures rep.totalGamesWon == (CountEntries(history, Game, Black), CountEntries(history, Game, Yellow))
    ensures rep.timestamp == Some(end)
    ensures rep.matchDuration == DurationText(end - start)
  {
    TextsReadable(setScores);
    var stats := CalculateMatchStatistics(history, SetTexts(setScores));
    var display := SetsDisplay(stats.setsBreakdown);
    Report(w.team, w.teamName, w.finalSets, display, DurationText(end - start),
           stats.totalPoints, stats.totalGames, stats.setsBreakdown, CreateMatchSummary(stats, display), Some(end))
  }

  /** The stored detailed_sets, rendered from the parsed breakdown, are the
      set_history texts, and each breakdown row holds its set's games. */
  lemma ReportReadsSets(history: seq<HistoryEntry>, setScores: seq<(int, int)>, w: Winner, start: int, end: int)
    requires NonNegative(setScores)
    ensures ReportFor(history, setScores, w, start, end).detailedSets == SetTexts(setScores)
    ensures forall i :: 0 <= i < |setScores| ==>
      && ReportFor(history, setScores, w, start, end).setsBreakdown[i].blackGames == setScores[i].0
      && ReportFor(history, setScores, w, start, end).setsBreakdown[i].yellowGames == setScores[i].1
  {
    SetTextsEncode(setScores);
    BreakdownRendersHistory(SetTexts(setScores), setScores);
  }

  lemma ReportSetsOf(history: seq<HistoryEntry>, setScores: seq<(int, int)>, w: Winner, start: int, end: int, rep: Report)
    requires NonNegative(setScores) && rep == ReportFor(history, setScores, w, start, end)
    ensures rep.detailedSets == SetTexts(setScores) && |rep.setsBreakdown| == |setScores|
    ensures forall i :: 0 <= i < |setScores| ==> (rep.setsBreakdown[i].blackGames, rep.setsBreakdown[i].yellowGames) == setScores[i]
  {
    ReportReadsSets(history, setScores, w, start, end);
  }

  /** The stored summary: the set texts, then the stored totals. */
  lemma ReportSummaryOf(history: seq<HistoryEntry>, setScores: seq<(int, int)>, w: Winner, start: int, end: int, rep: Report)
    requires NonNegative(setScores) && rep == ReportFor(history, setScores, w, start, end)
    ensures rep.matchSummary == "Sets: " + Join(SetTexts(setScores), ", ")
      + " | Points: " + PairText(rep.totalPointsWon.0, rep.totalPointsWon.1)
      + " | Games: " + PairText(rep.totalGamesWon.0, rep.totalGamesWon.1)
  {
    ReportSetsOf(history, setScores, w, start, end, rep);
    TextsReadable(setScores);
    var stats := CalculateMatchStatistics(history, SetTexts(setScores));
    assert rep.matchSummary == CreateMatchSummary(stats, rep.detailedSets);
  }

  /** A duration text reads back as the duration when it is not negative. */
  lemma DurationReads(d: string, start: int, end: int)
    requires d == DurationText(end - start)
    ensures start <= end ==> ParseDurationText(d) == Some(end - start)
  {
    if start <= end {
      DurationTextRoundTrip(end - start);
    }
  }

  /** A summary built from the set texts and two totals reads the totals
      back. */
  lemma SummaryTotalsRead(summary: string, texts: seq<string>, points: (nat, nat), games: (nat, nat))
    requires summary == "Sets: " + Join(texts, ", ") + " | Points: " + PairText(points.0, points.1) + " | Games: " + PairText(games.0, games.1)
    ensures exists p, q ::
      && summary == "Sets: " + Join(texts, ", ") + " | Points: " + p + " | Games: " + q
      && ParsePair(p) == Some(points)
      && ParsePair(q) == Some(games)
  {
    PairTextRoundTrip(points.0, points.1);
    PairTextRoundTrip(games.0, games.1);
  }

  /** The stored duration reads back as the match's length, and the
      summary lists the set texts and then the point and game totals, each
      readable as the pair stored beside it. */
  lemma ReportTextsOf(history: seq<HistoryEntry>, setScores: seq<(int, int)>, w: Winner, start: int, end: int, rep: Report)
    requires NonNegative(setScores) && rep == ReportFor(history, setScores, w, start, end)
    ensures start <= end ==> ParseDurationText(rep.matchDuration) == Some(end - start)
    ensures exists p, q ::
      && rep.matchSummary == "Sets: " + Join(SetTexts(setScores), ", ") + " | Points: " + p + " | Games: " + q
      && ParsePair(p) == Some(rep.totalPointsWon)
      && ParsePair(q) == Some(rep.totalGamesWon)
  {
    DurationReads(rep.matchDuration, start, end);
    ReportSummaryOf(history, setScores, w, start, end, rep);
    SummaryTotalsRead(rep.matchSummary, SetTexts(setScores), rep.totalPointsWon, rep.totalGamesWon);
  }

  function StoredFor(g: GameState): Storage
    requires NonNegative(g.setScores) && g.winner.Some? && g.matchEndTime.Some?
  {
    Storage(true, Some(ReportFor(g.matchHistory, g.setScores, g.winner.value, g.matchStartTime, g.matchEndTime.value)), false)
  }

  /** store_match_data: only a won match with a winner is stored. */
  function AfterStore(s: Server): (r: Server)
    requires NonNegative(s.game.setScores)
    requires s.game.matchWon && s.game.winner.Some? ==> s.game.matchEndTime.Some?
    ensures r.game == s.game
    ensures !(s.game.matchWon && s.game.winner.Some?) ==> r == s
    ensures s.game.matchWon && s.game.winner.Some? ==>
      && StorageAvailable(r.storage) && StorageOk(r.storage)
      && r.storage.matchData.value.winnerTeam == s.game.winner.value.team
  {
    if !s.game.matchWon || s.game.winner.None? then s
    else s.(storage := StoredFor(s.game))
  }

  /** check_match_winner on the server: the game changes as MatchCheckGame
      says and a declared match is stored. */
  function AfterMatchCheck(s: Server, now: int): (r: Server)
    requires NonNegative(s.game.setScores)
    ensures r.game == MatchCheckGame(s.game, now)
    ensures Decided(s.game).None? ==> r.storage == s.storage
    ensures Decided(s.game).Some? ==> r.storage == StoredFor(r.game)
  {
    if Decided(s.game).Some? then AfterStore(s.(game := MatchCheckGame(s.game, now))) else s
  }

  /** check_set_winner on the server. */
  function AfterSetCheck(s: Server, now: int): (r: Server)
    requires Readable(s.game)
    ensures r.game == SetCheckGame(s.game, now)
    ensures !SetDecides(s.game) ==> r.storage == s.storage
    ensures SetDecides(s.game) ==> r.game.winner.Some? && r.game.matchEndTime.Some? && r.storage == StoredFor(r.game)
  {
    match SetClosedBy(s.game)
    case None => s
    case Some(side) =>
      var closed := ClosedGame(s.game, side, now);
      assert Decided(closed).Some? == SetDecides(s.game);
      AfterMatchCheck(s.(game := closed), now)
  }

  /** POST /add_point on the server: at 40 the set check (which stores
      the report of a won match) runs before the point counter moves and
      the 'game' entry is written. */
  function AfterPoint(s: Server, team: Side, now: int): (r: (Server, Reply))
    requires Readable(s.game)
    ensures (r.0.game, r.1) == PointGame(s.game, team, now)
    ensures s.game.matchWon ==> r == (s, AlreadyCompleted)
  {
    if s.game.matchWon then (s, AlreadyCompleted)
    else if BelowForty(Score(s.game, team)) then (s.(game := LadderPoint(s.game, team, now)), Accepted)
    else if Score(s.game, team) == 40 then
      var checked := AfterSetCheck(s.(game := GameTaken(s.game, team)), now);
      var g1 := CountedPoint(checked.game, team);
      (Server(if g1.matchWon then g1 else Step(s.game, g1, Game, team, now), checked.storage), Accepted)
    else (s.(game := CountedPoint(s.game, team)), ServerError)
  }

  /** A point leaves the storage alone unless it ends the match; then the
      storage holds the report of the final state (the report does not read
      the point counters, so counting the point after storing is the same). */
  lemma AfterPointStorage(s: Server, team: Side, now: int)
    requires Readable(s.game) && !s.game.matchWon
    ensures !AfterPoint(s, team, now).0.game.matchWon ==> AfterPoint(s, team, now).0.storage == s.storage
    ensures AfterPoint(s, team, now).0.game.matchWon ==>
      && AfterPoint(s, team, now).0.game.winner.Some? && AfterPoint(s, team, now).0.game.matchEndTime.Some?
      && AfterPoint(s, team, now).0.storage == StoredFor(AfterPoint(s, team, now).0.game)
  {
    PointEndsMatch(s.game, team, now);
    if Score(s.game, team) == 40 && SetDecides(GameTaken(s.game, team)) {
      StoredIgnoresPoints(SetCheckGame(GameTaken(s.game, team), now), team);
    }
  }

  /** check_set_winner on the server once a set is closed: the set is
      recorded, then the match check runs. */
  /** A decided match check is the winner's branch followed by the store. */
  lemma AfterMatchCheckDeclares(s: Server, side: Side, now: int)
    requires NonNegative(s.game.setScores) && Decided(s.game) == Some(side)
    ensures AfterMatchCheck(s, now) == AfterStore(s.(game := DeclaredGame(s.game, side, now)))
  {
  }

  lemma AfterSetCheckCloses(s: Server, now: int)
    requires Readable(s.game) && SetClosedBy(s.game).Some?
    ensures AfterSetCheck(s, now) == AfterMatchCheck(s.(game := ClosedGame(s.game, SetClosedBy(s.game).value, now)), now)
    ensures Decided(ClosedGame(s.game, SetClosedBy(s.game).value, now)).Some? == SetDecides(s.game)
  {
    var side := SetClosedBy(s.game).value;
    var closed := ClosedGame(s.game, side, now);
    assert Sets(closed, side) == Sets(s.game, side) + 1 && Sets(closed, Other(side)) == Sets(s.game, Other(side));
  }

  /** POST /mark_match_displayed: the reply says whether there was a report. */
  function AfterMarkDisplayed(s: Server, wipeImmediately: bool): (r: (Server, bool))
    ensures r.0.game == s.game
    ensures (r.0.storage, r.1) == MarkMatchDisplayed(s.storage, wipeImmediately)
  {
    var (st, ok) := MarkMatchDisplayed(s.storage, wipeImmediately);
    (s.(storage := st), ok)
  }

  /** POST /reset_match: storage wiped, a new match starting at `now`. */
  function AfterReset(now: int): (r: Server)
    ensures r.storage == Wiped && !r.game.matchWon && r.game.matchHistory == [] && r.game.setScores == []
    ensures r.game.matchStartTime == now
  {
    Initial(now)
  }

  /** The report reads the history, the closed sets, the winner and the
      times, not the point counters. */
  lemma StoredIgnoresPoints(g: GameState, team: Side)
    requires NonNegative(g.setScores) && g.winner.Some? && g.matchEndTime.Some?
    ensures StoredFor(CountedPoint(g, team)) == StoredFor(g)
  {
    var h := CountedPoint(g, team);
    assert h.matchHistory == g.matchHistory && h.setScores == g.setScores && h.winner == g.winner;
    assert h.matchStartTime == g.matchStartTime && h.matchEndTime == g.matchEndTime;
  }

  /** The requests that change the server's state. */
  datatype Request = AddPoint(team: Side, now: int) | MarkDisplayed(wipeImmediately: bool) | ResetMatch(now: int)

  /** How many 'game', 'set' and 'match' entries each side has, as
      (black, yellow). */
  datatype Tally = Tally(games: (int, int), sets: (int, int), matches: (int, int))

  function Credit(p: (int, int), side: Side): (int, int)
  {
    if side == Black then (p.0 + 1, p.1) else (p.0, p.1 + 1)
  }

  function Bump(t: Tally, e: HistoryEntry): Tally
  {
    match e.action
    case Point => t
    case Game => t.(games := Credit(t.games, e.team))
    case SetWon => t.(sets := Credit(t.sets, e.team))
    case MatchWon => t.(matches := Credit(t.matches, e.team))
  }

  function TallyOf(history: seq<HistoryEntry>): Tally
    decreases |history|
  {
    if |history| == 0 then Tally((0, 0), (0, 0), (0, 0))
    else Bump(TallyOf(history[..|history| - 1]), history[|history| - 1])
  }

  lemma TallyAppend(history: seq<HistoryEntry>, e: HistoryEntry)
    ensures TallyOf(history + [e]) == Bump(TallyOf(history), e)
  {
    assert (history + [e])[..|history|] == history;
  }

  /** The tally holds the counts the statistics filter out of the history. */
  lemma {:induction false} TallyCounts(history: seq<HistoryEntry>)
    ensures TallyOf(history).games == (CountEntries(history, Game, Black), CountEntries(history, Game, Yellow))
    ensures TallyOf(history).sets == (CountEntries(history, SetWon, Black), CountEntries(history, SetWon, Yellow))
    ensures TallyOf(history).matches == (CountEntries(history, MatchWon, Black), CountEntries(history, MatchWon, Yellow))
    decreases |history|
  {
    if |history| > 0 {
      TallyCounts(history[..|history| - 1]);
    }
  }

  /** The side holding two sets in a finished match. */
  function Winning(g: GameState): Side
  {
    if g.set1 == 2 then Black else Yellow
  }

  /** 1 for the side whose point won the match: that game has no 'game' entry. */
  function Finisher(g: GameState, side: Side): int
  {
    if g.matchWon && Sets(g, side) == 2 then 1 else 0
  }

  /** The history one expects: a 'set' entry per set won, a 'match' entry
      for the winner, a 'game' entry per game won except the match's last. */
  function ExpectedTally(g: GameState): Tally
  {
    Tally((GamesIn(g.setScores, Black) + g.game1 - Finisher(g, Black),
           GamesIn(g.setScores, Yellow) + g.game2 - Finisher(g, Yellow)),
          (g.set1, g.set2), (Finisher(g, Black), Finisher(g, Yellow)))
  }

  /** Every closed set was won with six games and a two-game lead. */
  predicate ClosedPairs(sets: seq<(int, int)>)
  {
    forall i :: 0 <= i < |sets| ==> WinsSet(sets[i].0, sets[i].1) || WinsSet(sets[i].1, sets[i].0)
  }

  lemma ClosedAppend(sets: seq<(int, int)>, a: int, b: int)
    requires ClosedPairs(sets) && NonNegative(sets) && a >= 0 && b >= 0 && (WinsSet(a, b) || WinsSet(b, a))
    ensures ClosedPairs(sets + [(a, b)]) && NonNegative(sets + [(a, b)])
  {
  }

  /** Scores on the ladder, no negative counter, no set left pending. */
  ghost predicate ScoresOk(g: GameState)
  {
    && OnLadder(g.score1) && OnLadder(g.score2)
    && g.point1 >= 0 && g.point2 >= 0 && g.game1 >= 0 && g.game2 >= 0
    && !WinsSet(g.game1, g.game2) && !WinsSet(g.game2, g.game1)
  }

  /** The set counters, the closed sets and the outcome agree. */
  ghost predicate SetsOk(g: GameState)
  {
    && 0 <= g.set1 <= 2 && 0 <= g.set2 <= 2 && !(g.set1 == 2 && g.set2 == 2)
    && g.matchWon == (g.set1 == 2 || g.set2 == 2)
    && g.winner.Some? == g.matchWon && g.matchEndTime.Some? == g.matchWon
    && NonNegative(g.setScores) && ClosedPairs(g.setScores)
    && |g.setScores| == g.set1 + g.set2
    && SetsTo(g.setScores, Black) == g.set1 && SetsTo(g.setScores, Yellow) == g.set2
  }

  /** A finished match has its winner record, built when the last set closed. */
  ghost predicate WinnerOk(g: GameState)
    requires SetsOk(g)
  {
    g.matchWon ==>
      && g.game1 == 0 && g.game2 == 0
      && g.winner == Some(WinnerFor(Winning(g), (g.set1, g.set2), g.setScores, 0, g.matchStartTime, g.matchEndTime.value))
  }

  /** The history's tally is the expected one. */
  ghost predicate TallyOk(g: GameState)
  {
    TallyOf(g.matchHistory) == ExpectedTally(g)
  }

  ghost predicate GameReachable(g: GameState)
  {
    ScoresOk(g) && SetsOk(g) && WinnerOk(g) && TallyOk(g)
  }

  /** The storage holds this match's report, possibly marked shown, or nothing. */
  ghost predicate StorageMatches(s: Server)
    requires SetsOk(s.game)
  {
    if !s.game.matchWon then s.storage == Wiped
    else s.storage == Wiped || s.storage == StoredFor(s.game) || s.storage == StoredFor(s.game).(displayShown := true)
  }

  /** The bookkeeping one can read off any state the server reaches. */
  ghost predicate Reachable(s: Server)
  {
    GameReachable(s.game) && StorageMatches(s)
  }

  lemma InitialReachable(now: int)
    ensures Reachable(Initial(now))
  {
  }

  /** Below 40 the point only moves the scorer up the ladder. */
  lemma LadderKeeps(g: GameState, team: Side, now: int)
    requires GameReachable(g) && !g.matchWon && BelowForty(Score(g, team))
    ensures GameReachable(LadderPoint(g, team, now))
  {
    var g1 := CountedPoint(WithScore(g, team, LadderNext(Score(g, team))), team);
    var r := LadderPoint(g, team, now);
    assert r.matchHistory == g1.matchHistory + [r.matchHistory[|g1.matchHistory|]];
    TallyAppend(g1.matchHistory, r.matchHistory[|g1.matchHistory|]);
  }

  /** The state after a game won at 40 that closes no set. */
  function GameShape(g: GameState, team: Side, now: int): GameState
  {
    Step(g, CountedPoint(GameTaken(g, team), team), Game, team, now)
  }

  /** The state after a game that closes a set short of the match. */
  function SetShape(g: GameState, team: Side, now: int): GameState
    requires Readable(g)
  {
    Step(g, CountedPoint(ClosedGame(GameTaken(g, team), team, now), team), Game, team, now)
  }

  /** The state after the game that wins the match. */
  function MatchShape(g: GameState, team: Side, now: int): GameState
    requires Readable(g)
  {
    CountedPoint(DeclaredGame(ClosedGame(GameTaken(g, team), team, now), team, now), team)
  }

  lemma GameScoresKeep(g: GameState, team: Side, now: int)
    requires ScoresOk(g) && Score(g, team) == 40 && SetClosedBy(GameTaken(g, team)).None?
    ensures ScoresOk(GameShape(g, team, now))
  {
  }

  lemma GameSetsKeep(g: GameState, team: Side, now: int)
    requires SetsOk(g) && WinnerOk(g) && !g.matchWon
    ensures SetsOk(GameShape(g, team, now)) && WinnerOk(GameShape(g, team, now))
  {
  }

  lemma GameTallyKeeps(g: GameState, team: Side, now: int)
    requires TallyOk(g) && !g.matchWon
    ensures TallyOk(GameShape(g, team, now))
  {
    var g1 := CountedPoint(GameTaken(g, team), team);
    var r := GameShape(g, team, now);
    assert r.matchHistory == g1.matchHistory + [r.matchHistory[|g1.matchHistory|]];
    TallyAppend(g1.matchHistory, r.matchHistory[|g1.matchHistory|]);
  }

  /** A game won at 40 that closes no set: one more game and its entry. */
  lemma GameKeeps(g: GameState, team: Side, now: int)
    requires GameReachable(g) && !g.matchWon && Score(g, team) == 40
    requires SetClosedBy(GameTaken(g, team)).None?
    ensures GameReachable(GameShape(g, team, now))
  {
    GameScoresKeep(g, team, now);
    GameSetsKeep(g, team, now);
    GameTallyKeeps(g, team, now);
  }

  /** In a reachable state only the scorer can close a set with the game
      just taken. */
  lemma OnlyScorerCloses(g: GameState, team: Side)
    requires ScoresOk(g)
    ensures SetClosedBy(GameTaken(g, team)).Some? ==> SetClosedBy(GameTaken(g, team)) == Some(team)
  {
  }

  /** The closed set joins the closed sets and goes to the scorer. */
  lemma ClosedSetsFacts(g: GameState, team: Side, now: int)
    requires SetsOk(g) && ScoresOk(g) && !g.matchWon
    requires SetClosedBy(GameTaken(g, team)) == Some(team)
    ensures
      var t := GameTaken(g, team);
      var c := ClosedGame(t, team, now);
      && NonNegative(c.setScores) && ClosedPairs(c.setScores) && |c.setScores| == c.set1 + c.set2
      && GamesIn(c.setScores, team) == GamesIn(g.setScores, team) + Games(g, team) + 1
      && GamesIn(c.setScores, Other(team)) == GamesIn(g.setScores, Other(team)) + Games(g, Other(team))
      && SetsTo(c.setScores, Black) == c.set1 && SetsTo(c.setScores, Yellow) == c.set2
  {
    var t := GameTaken(g, team);
    var c := ClosedGame(t, team, now);
    AppendSet(g.setScores, t.game1, t.game2);
    ClosedAppend(g.setScores, t.game1, t.game2);
    assert c.setScores == g.setScores + [(t.game1, t.game2)];
  }

  /** Closing the set adds its games to the totals. */
  lemma ClosedGamesFacts(g: GameState, team: Side, now: int)
    requires Readable(g)
    ensures
      var t := GameTaken(g, team);
      var c := ClosedGame(t, team, now);
      && GamesIn(c.setScores, team) == GamesIn(g.setScores, team) + Games(g, team) + 1
      && GamesIn(c.setScores, Other(team)) == GamesIn(g.setScores, Other(team)) + Games(g, Other(team))
  {
    var t := GameTaken(g, team);
    AppendSet(g.setScores, t.game1, t.game2);
    assert ClosedGame(t, team, now).setScores == g.setScores + [(t.game1, t.game2)];
  }

  /** Closing the set writes its 'set' entry. */
  lemma ClosedTallyFacts(g: GameState, team: Side, now: int)
    requires Readable(g)
    ensures TallyOf(ClosedGame(GameTaken(g, team), team, now).matchHistory)
      == TallyOf(g.matchHistory).(sets := Credit(TallyOf(g.matchHistory).sets, team))
  {
    var c := ClosedGame(GameTaken(g, team), team, now);
    assert c.matchHistory == g.matchHistory + [c.matchHistory[|g.matchHistory|]];
    TallyAppend(g.matchHistory, c.matchHistory[|g.matchHistory|]);
  }

  lemma SetSetsKeep(g: GameState, team: Side, now: int)
    requires SetsOk(g) && ScoresOk(g) && WinnerOk(g) && !g.matchWon
    requires SetClosedBy(GameTaken(g, team)) == Some(team) && !SetDecides(GameTaken(g, team))
    ensures SetsOk(SetShape(g, team, now)) && WinnerOk(SetShape(g, team, now))
  {
    ClosedSetsFacts(g, team, now);
  }

  lemma SetTallyKeeps(g: GameState, team: Side, now: int)
    requires TallyOk(g) && Readable(g) && !g.matchWon
    ensures TallyOk(SetShape(g, team, now))
  {
    ClosedGamesFacts(g, team, now);
    ClosedTallyFacts(g, team, now);
    var g1 := CountedPoint(ClosedGame(GameTaken(g, team), team, now), team);
    var r := SetShape(g, team, now);
    assert r.matchHistory == g1.matchHistory + [r.matchHistory[|g1.matchHistory|]];
    TallyAppend(g1.matchHistory, r.matchHistory[|g1.matchHistory|]);
  }

  /** A game that closes a set short of the match: the set, then the game entry. */
  lemma SetKeeps(g: GameState, team: Side, now: int)
    requires GameReachable(g) && !g.matchWon && Score(g, team) == 40
    requires SetClosedBy(GameTaken(g, team)) == Some(team) && !SetDecides(GameTaken(g, team))
    ensures GameReachable(SetShape(g, team, now))
  {
    assert ScoresOk(SetShape(g, team, now));
    SetSetsKeep(g, team, now);
    SetTallyKeeps(g, team, now);
  }

  lemma MatchSetsKeep(g: GameState, team: Side, now: int)
    requires SetsOk(g) && ScoresOk(g) && !g.matchWon
    requires SetClosedBy(GameTaken(g, team)) == Some(team) && SetDecides(GameTaken(g, team))
    ensures SetsOk(MatchShape(g, team, now)) && WinnerOk(MatchShape(g, team, now))
  {
    ClosedSetsFacts(g, team, now);
  }

  /** What the winning game leaves, field by field. */
  lemma MatchShapeFields(g: GameState, team: Side, now: int)
    requires Readable(g) && !g.matchWon && Sets(g, team) == 1 && Sets(g, Other(team)) <= 1
    ensures
      var r, n := MatchShape(g, team, now), |g.matchHistory|;
      && r.matchWon && Sets(r, team) == 2 && Sets(r, Other(team)) == Sets(g, Other(team))
      && r.game1 == 0 && r.game2 == 0
      && r.setScores == g.setScores + [(GameTaken(g, team).game1, GameTaken(g, team).game2)]
      && |r.matchHistory| == n + 2
      && r.matchHistory == g.matchHistory + [r.matchHistory[n]] + [r.matchHistory[n + 1]]
      && r.matchHistory[n].action == SetWon && r.matchHistory[n].team == team
      && r.matchHistory[n + 1].action == MatchWon && r.matchHistory[n + 1].team == team
  {
  }

  /** The tally after a 'set' and a 'match' entry for the side that takes
      its second set. */
  lemma MatchTallyFromFields(g: GameState, r: GameState, team: Side, e1: HistoryEntry, e2: HistoryEntry)
    requires TallyOk(g) && !g.matchWon && Sets(g, team) == 1 && Sets(g, Other(team)) <= 1
    requires r.matchHistory == g.matchHistory + [e1] + [e2]
    requires e1.action == SetWon && e1.team == team && e2.action == MatchWon && e2.team == team
    requires r.matchWon && Sets(r, team) == 2 && Sets(r, Other(team)) == Sets(g, Other(team))
    requires r.game1 == 0 && r.game2 == 0
    requires GamesIn(r.setScores, team) == GamesIn(g.setScores, team) + Games(g, team) + 1
    requires GamesIn(r.setScores, Other(team)) == GamesIn(g.setScores, Other(team)) + Games(g, Other(team))
    ensures TallyOk(r)
  {
    TallyAppend(g.matchHistory, e1);
    TallyAppend(g.matchHistory + [e1], e2);
  }

  lemma MatchTallyKeeps(g: GameState, team: Side, now: int)
    requires TallyOk(g) && Readable(g) && !g.matchWon && Sets(g, team) == 1 && Sets(g, Other(team)) <= 1
    ensures TallyOk(MatchShape(g, team, now))
  {
    var r, n := MatchShape(g, team, now), |g.matchHistory|;
    MatchShapeFields(g, team, now);
    ClosedGamesFacts(g, team, now);
    assert ClosedGame(GameTaken(g, team), team, now).setScores == r.setScores;
    MatchTallyFromFields(g, r, team, r.matchHistory[n], r.matchHistory[n + 1]);
  }

  /** The game that wins the match: the set, then the 'match' entry and the
      winner record. */
  lemma MatchKeeps(g: GameState, team: Side, now: int)
    requires GameReachable(g) && !g.matchWon && Score(g, team) == 40
    requires SetClosedBy(GameTaken(g, team)) == Some(team) && SetDecides(GameTaken(g, team))
    ensures GameReachable(MatchShape(g, team, now))
  {
    assert ScoresOk(MatchShape(g, team, now));
    MatchSetsKeep(g, team, now);
    MatchTallyKeeps(g, team, now);
  }

  /** Which of the three shapes a point at 40 leaves. */
  lemma FortyNoSet(g: GameState, team: Side, now: int)
    requires Readable(g) && !g.matchWon && SetClosedBy(GameTaken(g, team)).None?
    ensures FortyPoint(g, team, now) == GameShape(g, team, now)
  {
  }

  lemma FortySet(g: GameState, team: Side, now: int)
    requires Readable(g) && !g.matchWon && g.set1 <= 1 && g.set2 <= 1 && SetClosedBy(GameTaken(g, team)) == Some(team) && !SetDecides(GameTaken(g, team))
    ensures FortyPoint(g, team, now) == SetShape(g, team, now)
  {
    assert SetCheckGame(GameTaken(g, team), now) == ClosedGame(GameTaken(g, team), team, now);
  }

  lemma FortyMatch(g: GameState, team: Side, now: int)
    requires Readable(g) && !g.matchWon && g.set1 <= 1 && g.set2 <= 1 && SetClosedBy(GameTaken(g, team)) == Some(team) && SetDecides(GameTaken(g, team))
    ensures FortyPoint(g, team, now) == MatchShape(g, team, now)
  {
    var c := ClosedGame(GameTaken(g, team), team, now);
    assert SetCheckGame(GameTaken(g, team), now) == DeclaredGame(c, team, now);
  }

  /** A point at 40 keeps the bookkeeping, whichever way the set check goes. */
  lemma FortyKeeps(g: GameState, team: Side, now: int)
    requires GameReachable(g) && !g.matchWon && Score(g, team) == 40
    ensures GameReachable(FortyPoint(g, team, now))
  {
    var t := GameTaken(g, team);
    OnlyScorerCloses(g, team);
    if SetClosedBy(t).None? {
      FortyNoSet(g, team, now);
      GameKeeps(g, team, now);
    } else if SetDecides(t) {
      FortyMatch(g, team, now);
      MatchKeeps(g, team, now);
    } else {
      FortySet(g, team, now);
      SetKeeps(g, team, now);
    }
  }

  /** add_point keeps the game bookkeeping. */
  lemma PointGameReachable(g: GameState, team: Side, now: int)
    requires GameReachable(g)
    ensures GameReachable(PointGame(g, team, now).0)
  {
    if !g.matchWon {
      if BelowForty(Score(g, team)) {
        LadderKeeps(g, team, now);
      } else if Score(g, team) == 40 {
        FortyKeeps(g, team, now);
      }
    }
  }

  /** `r`'s history is `g`'s followed by one entry of each of `actions`,
      in that order, all for `team`. */
  predicate Appended(g: GameState, r: GameState, team: Side, actions: seq<Action>)
  {
    var n := |g.matchHistory|;
    && |r.matchHistory| == n + |actions|
    && r.matchHistory[..n] == g.matchHistory
    && forall i :: 0 <= i < |actions| ==> r.matchHistory[n + i].action == actions[i] && r.matchHistory[n + i].team == team
  }

  /** The entries an accepted point on the 0/15/30/40 ladder writes. */
  function PointEntries(g: GameState, team: Side): seq<Action>
  {
    var t := GameTaken(g, team);
    if BelowForty(Score(g, team)) then [Point]
    else if SetClosedBy(t).None? then [Game]
    else if SetDecides(t) then [SetWon, MatchWon]
    else [SetWon, Game]
  }

  lemma LadderEntries(g: GameState, team: Side, now: int)
    requires BelowForty(Score(g, team))
    ensures Appended(g, LadderPoint(g, team, now), team, [Point])
  {
  }

  lemma GameEntries(g: GameState, team: Side, now: int)
    ensures Appended(g, GameShape(g, team, now), team, [Game])
  {
  }

  lemma SetEntries(g: GameState, team: Side, now: int)
    requires Readable(g)
    ensures Appended(g, SetShape(g, team, now), team, [SetWon, Game])
  {
    var c := ClosedGame(GameTaken(g, team), team, now);
    assert c.matchHistory == g.matchHistory + [c.matchHistory[|g.matchHistory|]];
  }

  lemma AppendedTwo(g: GameState, r: GameState, team: Side, e1: HistoryEntry, e2: HistoryEntry)
    requires r.matchHistory == g.matchHistory + [e1] + [e2] && e1.team == team && e2.team == team
    ensures Appended(g, r, team, [e1.action, e2.action])
  {
  }

  lemma MatchEntries(g: GameState, team: Side, now: int)
    requires Readable(g) && !g.matchWon && Sets(g, team) == 1 && Sets(g, Other(team)) <= 1
    ensures Appended(g, MatchShape(g, team, now), team, [SetWon, MatchWon])
  {
    var r, n := MatchShape(g, team, now), |g.matchHistory|;
    MatchShapeFields(g, team, now);
    AppendedTwo(g, r, team, r.matchHistory[n], r.matchHistory[n + 1]);
  }

  /** What one accepted point appends to match_history, all for the scorer:
      a 'point' entry below 40; at 40 a 'game' entry, preceded by a 'set'
      entry when the game closes the set; and on the point that wins the
      match a 'set' and then a 'match' entry, with no 'game' entry. */
  lemma PointHistoryEntries(g: GameState, team: Side, now: int)
    requires GameReachable(g) && !g.matchWon && OnLadder(Score(g, team))
    ensures Appended(g, PointGame(g, team, now).0, team, PointEntries(g, team))
  {
    var t := GameTaken(g, team);
    if BelowForty(Score(g, team)) {
      LadderEntries(g, team, now);
    } else {
      assert PointGame(g, team, now).0 == FortyPoint(g, team, now);
      OnlyScorerCloses(g, team);
      if SetClosedBy(t).None? {
        FortyNoSet(g, team, now);
        GameEntries(g, team, now);
      } else if SetDecides(t) {
        FortyMatch(g, team, now);
        MatchEntries(g, team, now);
      } else {
        FortySet(g, team, now);
        SetEntries(g, team, now);
      }
    }
  }

  lemma AfterPointReachable(s: Server, team: Side, now: int)
    requires Reachable(s)
    ensures Reachable(AfterPoint(s, team, now).0)
  {
    PointGameReachable(s.game, team, now);
    if !s.game.matchWon {
      AfterPointStorage(s, team, now);
    }
  }

  lemma AfterMarkDisplayedReachable(s: Server, wipeImmediately: bool)
    requires Reachable(s)
    ensures Reachable(AfterMarkDisplayed(s, wipeImmediately).0)
  {
  }

  function Apply(s: Server, req: Request): Server
    requires Readable(s.game)
  {
    match req
    case AddPoint(team, now) => AfterPoint(s, team, now).0
    case MarkDisplayed(wipe) => AfterMarkDisplayed(s, wipe).0
    case ResetMatch(now) => AfterReset(now)
  }

  lemma ApplyReachable(s: Server, req: Request)
    requires Reachable(s)
    ensures Reachable(Apply(s, req))
  {
    match req
    case AddPoint(team, now) => AfterPointReachable(s, team, now);
    case MarkDisplayed(wipe) => AfterMarkDisplayedReachable(s, wipe);
    case ResetMatch(now) => InitialReachable(now);
  }

  /** The server after the requests in order. */
  ghost function Play(s: Server, reqs: seq<Request>): (r: Server)
    requires Reachable(s)
    ensures Reachable(r)
    decreases |reqs|
  {
    if |reqs| == 0 then s
    else
      ApplyReachable(s, reqs[0]);
      Play(Apply(s, reqs[0]), reqs[1..])
  }

  /** Whatever requests arrive after start-up, the bookkeeping holds. */
  lemma PlayFromStart(now: int, reqs: seq<Request>)
    ensures Reachable(Play(Initial(now), reqs))
  {
    InitialReachable(now);
  }

  /** A stored report belongs to a won match: it names the winning side. */
  lemma StoredReportWinner(s: Server)
    requires Reachable(s) && s.storage.matchCompleted
    ensures s.game.matchWon && s.storage.matchData.Some?
    ensures s.storage.matchData.value.winnerTeam == Winning(s.game)
    ensures s.storage.matchData.value.winnerName == TeamName(Winning(s.game))
  {
  }

  /** The stored detailed sets are the set_history texts and its breakdown
      holds each closed set's games. */
  lemma StoredReportSets(s: Server)
    requires Reachable(s) && s.storage.matchCompleted
    ensures s.storage.matchData.Some?
    ensures
      var g, rep := s.game, s.storage.matchData.value;
      && rep.detailedSets == SetTexts(g.setScores)
      && |rep.setsBreakdown| == g.set1 + g.set2
      && (forall i :: 0 <= i < |g.setScores| ==>
            (rep.setsBreakdown[i].blackGames, rep.setsBreakdown[i].yellowGames) == g.setScores[i])
  {
    var g, rep := s.game, s.storage.matchData.value;
    assert rep == ReportFor(g.matchHistory, g.setScores, g.winner.value, g.matchStartTime, g.matchEndTime.value);
    ReportSetsOf(g.matchHistory, g.setScores, g.winner.value, g.matchStartTime, g.matchEndTime.value, rep);
  }

  /** The stored game totals count one game fewer for the winner than the
      closed sets hold, because the game that wins the match writes a
      'match' entry and no 'game' entry; the winner record counts them all. */
  lemma StoredReportTotals(s: Server)
    requires Reachable(s) && s.storage.matchCompleted
    ensures s.game.matchWon && s.storage.matchData.Some?
    ensures
      var g, rep := s.game, s.storage.matchData.value;
      var w := Winning(g);
      && rep.totalGamesWon.0 + (if w == Black then 1 else 0) == GamesIn(g.setScores, Black)
      && rep.totalGamesWon.1 + (if w == Yellow then 1 else 0) == GamesIn(g.setScores, Yellow)
      && g.winner.value.totalGamesWon == GamesIn(g.setScores, w)
  {
    TallyCounts(s.game.matchHistory);
  }

  /** What a finished match has stored is exactly the report store_match_data
      assembles from its final state. */
  lemma StoredIsReport(s: Server)
    requires SetsOk(s.game) && StorageMatches(s) && s.storage.matchCompleted
    ensures s.game.matchWon && s.game.winner.Some? && s.game.matchEndTime.Some? && NonNegative(s.game.setScores)
    ensures s.storage.matchData == Some(ReportFor(s.game.matchHistory, s.game.setScores, s.game.winner.value, s.game.matchStartTime, s.game.matchEndTime.value))
  {
  }

  lemma ServerDurationReads(s: Server)
    requires s.storage.matchData.Some? && s.game.matchEndTime.Some?
    requires s.storage.matchData.value.matchDuration == DurationText(s.game.matchEndTime.value - s.game.matchStartTime)
    ensures s.game.matchStartTime <= s.game.matchEndTime.value ==>
      ParseDurationText(s.storage.matchData.value.matchDuration) == Some(s.game.matchEndTime.value - s.game.matchStartTime)
  {
    DurationReads(s.storage.matchData.value.matchDuration, s.game.matchStartTime, s.game.matchEndTime.value);
  }

  /** The stored match_duration of a finished match reads back as its end
      minus its start whenever the clock did not run backwards. */
  lemma StoredReportDuration(s: Server)
    requires Reachable(s) && s.storage.matchCompleted
    ensures s.game.matchWon && s.game.matchEndTime.Some? && s.storage.matchData.Some?
    ensures
      var g, rep := s.game, s.storage.matchData.value;
      g.matchStartTime <= g.matchEndTime.value ==> ParseDurationText(rep.matchDuration) == Some(g.matchEndTime.value - g.matchStartTime)
  {
    StoredIsReport(s);
    ServerDurationReads(s);
  }

  /** The stored match_summary of a finished match carries the set texts
      and then the stored point and game totals, each readable as a pair. */
  lemma StoredReportSummary(s: Server)
    requires Reachable(s) && s.storage.matchCompleted
    ensures s.storage.matchData.Some?
    ensures
      var g, rep := s.game, s.storage.matchData.value;
      exists p, q ::
        && rep.matchSummary == "Sets: " + Join(SetTexts(g.setScores), ", ") + " | Points: " + p + " | Games: " + q
        && ParsePair(p) == Some(rep.totalPointsWon)
        && ParsePair(q) == Some(rep.totalGamesWon)
  {
    StoredIsReport(s);
    var g, rep := s.game, s.storage.matchData.value;
    ReportSummaryOf(g.matchHistory, g.setScores, g.winner.value, g.matchStartTime, g.matchEndTime.value, rep);
    SummaryTotalsRead(rep.matchSummary, SetTexts(g.setScores), rep.totalPointsWon, rep.totalGamesWon);
  }

  /** The per-team block of GET /match_history. */
  datatype TeamHistory = TeamHistory(pointsWon: nat, gamesWon: nat, setsWon: nat,
                                     currentScore: int, currentGames: int, currentSets: int)

  function HistoryStats(g: GameState, side: Side): (t: TeamHistory)
    ensures t.pointsWon == CountEntries(g.matchHistory, Point, side)
    ensures t.currentSets == Sets(g, side)
  {
    TeamHistory(CountEntries(g.matchHistory, Point, side), CountEntries(g.matchHistory, Game, side),
                CountEntries(g.matchHistory, SetWon, side), Score(g, side), Games(g, side), Sets(g, side))
  }

  /** In a reachable state the sets counted from the history are the set
      counters, and the games counted are the games won, less the match's
      last game. */
  lemma HistoryStatsAgree(s: Server, side: Side)
    requires Reachable(s)
    ensures HistoryStats(s.game, side).setsWon == HistoryStats(s.game, side).currentSets
    ensures HistoryStats(s.game, side).gamesWon == GamesIn(s.game.setScores, side) + Games(s.game, side) - Finisher(s.game, side)
  {
    TallyCounts(s.game.matchHistory);
  }

  /** 'match_storage_available' / 'match_stored' of the replies. */
  function StorageAvailable(st: Storage): bool
  {
    st.matchCompleted && !st.displayShown
  }

  /** The point that wins the match leaves a report ready for the winner screen. */
  lemma MatchPointStoresReport(s: Server, team: Side, now: int)
    requires Reachable(s) && !s.game.matchWon
    requires AfterPoint(s, team, now).0.game.matchWon
    ensures StorageAvailable(AfterPoint(s, team, now).0.storage)
    ensures GetMatchData(AfterPoint(s, team, now).0.storage).Some?
  {
    AfterPointStorage(s, team, now);
  }

  /** The running backend: game_state and match_storage as fields. */
  class BackendServer {
    var game: GameState
    var storage: Storage

    function State(): Server
      reads this
    {
      Server(game, storage)
    }

    /** What every handler keeps: the set texts can be read back, and a
        report is stored exactly when the storage says it is completed. */
    predicate Valid()
      reads this
    {
      Readable(game) && StorageOk(storage)
    }

    /** The module-level dicts, created at import time `now`. */
    constructor (now: int)
      ensures State() == Initial(now) && Valid()
    {
      game := Fresh(now);
      storage := Wiped;
    }

    method AddToHistory(action: Action, team: Side, scores: ((int, int), (int, int)), games: ((int, int), (int, int)),
                        sets: ((int, int), (int, int)), now: int)
      modifies this`game
      ensures game == Logged(old(game), action, team, scores, games, sets, now)
    {
      game := game.(matchHistory := game.matchHistory + [HistoryEntry(now, action, team, scores.0, scores.1, games.0, games.1, sets.0, sets.1)]);
    }

    /** calculate_match_statistics over the current history; changes nothing. */
    method CalculateMatchStatistics() returns (stats: Statistics)
      requires NonNegative(game.setScores)
      ensures SetScoresReadable(SetTexts(game.setScores))
      ensures stats == MatchReport.CalculateMatchStatistics(game.matchHistory, SetTexts(game.setScores))
    {
      SetTextsEncode(game.setScores);
      EncodesReadable(SetTexts(game.setScores), game.setScores);
      stats := MatchReport.CalculateMatchStatistics(game.matchHistory, SetTexts(game.setScores));
    }

    /** store_match_data: the report ReportFor assembles from the
        statistics, then the three storage fields in the source's order. */
    method StoreMatchData()
      requires Valid()
      requires game.matchWon && game.winner.Some? ==> game.matchEndTime.Some?
      modifies this`storage
      ensures State() == AfterStore(old(State())) && Valid()
    {
      if !game.matchWon || game.winner.None? {
        return;
      }
      var rep := ReportFor(game.matchHistory, game.setScores, game.winner.value, game.matchStartTime, game.matchEndTime.value);
      storage := storage.(matchCompleted := true);
      storage := storage.(matchData := Some(rep));
      storage := storage.(displayShown := false);
    }

    method WipeMatchStorage()
      modifies this`storage
      ensures storage == Wiped
    {
      storage := Wiped;
    }

    /** One branch of check_match_winner: the source writes it out once
        for each side. */
    method DeclareWinner(side: Side, now: int)
      requires Valid()
      modifies this
      ensures State() == AfterStore(old(State()).(game := DeclaredGame(old(game), side, now))) && Valid()
    {
      var g := game;
      var before, gamesNow, setsNow := (g.score1, g.score2), (g.game1, g.game2), (g.set1, g.set2);
      game := game.(matchWon := true, matchEndTime := Some(now));
      game := game.(winner := Some(WinnerFor(side, setsNow, g.setScores, Games(g, side), g.matchStartTime, now)));
      AddToHistory(MatchWon, side, (before, before), (gamesNow, gamesNow), (setsNow, setsNow), now);
      assert game == DeclaredGame(g, side, now);
      StoreMatchData();
    }

    method CheckMatchWinner(now: int) returns (won: bool)
      requires Valid()
      modifies this
      ensures State() == AfterMatchCheck(old(State()), now) && Valid()
      ensures won == Decided(old(game)).Some?
    {
      if game.set1 >= 2 {
        AfterMatchCheckDeclares(State(), Black, now);
        DeclareWinner(Black, now);
        return true;
      } else if game.set2 >= 2 {
        AfterMatchCheckDeclares(State(), Yellow, now);
        DeclareWinner(Yellow, now);
        return true;
      }
      return false;
    }

    /** One closing branch of check_set_winner, before the match check:
        the source writes it out once for each side. */
    method CloseSet(side: Side, now: int)
      requires Valid()
      modifies this`game
      ensures game == ClosedGame(old(game), side, now)
    {
      var g := game;
      if side == Black {
        game := game.(set1 := game.set1 + 1);
      } else {
        game := game.(set2 := game.set2 + 1);
      }
      game := game.(setScores := game.setScores + [(g.game1, g.game2)]);
      AddToHistory(SetWon, side, ((g.score1, g.score2), (0, 0)), ((g.game1, g.game2), (0, 0)),
                   ((g.set1, g.set2), (game.set1, game.set2)), now);
      game := game.(game1 := 0, game2 := 0);
    }

    method CheckSetWinner(now: int) returns (won: bool)
      requires Valid()
      modifies this
      ensures State() == AfterSetCheck(old(State()), now) && Valid()
      ensures won == SetDecides(old(game))
    {
      if WinsSet(game.game1, game.game2) {
        AfterSetCheckCloses(State(), now);
        CloseSet(Black, now);
        won := CheckMatchWinner(now);
      } else if WinsSet(game.game2, game.game1) {
        AfterSetCheckCloses(State(), now);
        CloseSet(Yellow, now);
        won := CheckMatchWinner(now);
      } else {
        won := false;
      }
    }

    /** POST /add_point. The source writes the black and the yellow branch
        out separately; they differ only in the fields they touch. */
    method AddPoint(team: Side, now: int) returns (reply: Reply)
      requires Valid()
      modifies this
      ensures (State(), reply) == AfterPoint(old(State()), team, now)
      ensures Valid()
    {
      if game.matchWon {
        return AlreadyCompleted;
      }
      var g := game;
      var current := Score(g, team);
      var action: Option<Action> := None;
      if BelowForty(current) {
        game := WithScore(game, team, LadderNext(current));
        action := Some(Point);
      } else if current == 40 {
        game := GameTaken(game, team);
        action := Some(Game);
        var _ := CheckSetWinner(now);
      }
      game := CountedPoint(game, team);
      // action_type is unbound when the score was no tennis score
      if action.None? {
        return ServerError;
      }
      if !game.matchWon {
        AddToHistory(action.value, team, ((g.score1, g.score2), (game.score1, game.score2)),
                     ((g.game1, g.game2), (game.game1, game.game2)), ((g.set1, g.set2), (game.set1, game.set2)), now);
      }
      return Accepted;
    }

    /** GET /get_match_data; changes nothing. */
    method GetMatchData() returns (r: Option<(Report, bool)>)
      requires StorageOk(storage)
      ensures r == MatchReport.GetMatchData(storage)
    {
      if !storage.matchCompleted {
        return None;
      }
      return Some((storage.matchData.value, storage.displayShown));
    }

    /** POST /mark_match_displayed. */
    method MarkMatchDisplayed(wipeImmediately: bool) returns (ok: bool)
      requires Valid()
      modifies this`storage
      ensures (State(), ok) == AfterMarkDisplayed(old(State()), wipeImmediately) && Valid()
    {
      if !storage.matchCompleted {
        return false;
      }
      storage := storage.(displayShown := true);
      if wipeImmediately {
        WipeMatchStorage();
      }
      return true;
    }

    /** POST /reset_match. */
    method ResetMatch(now: int)
      modifies this
      ensures State() == AfterReset(now) && Valid()
    {
      WipeMatchStorage();
      game := Fresh(now);
    }
  }
}
