/** padel_js.js, the browser scoreboard, on its local path: when the backend
    does not answer, addPoint scores the point itself on the no-advantage
    ladder, keeps a one-level undo snapshot (lastAction) and a list of the
    closed sets (setsHistory). */
module ClientScoring {
  import opened Scoring
  import opened Text
  import MatchReport

  /** One entry of setsHistory. */
  datatype SetRecord = SetRecord(blackGames: int, yellowGames: int, winner: Side)

  /** winnerData as checkMatchWin builds it. */
  datatype WinnerData = WinnerData(teamName: string, finalSets: string, matchSummary: string)

  /** lastAction: the counters before the last addPoint. */
  datatype Snapshot = Snapshot(
    team: Side,
    score1: int, score2: int, games1: int, games2: int, sets1: int, sets2: int,
    pointsBlack: int, pointsYellow: int, gamesBlack: int, gamesYellow: int,
    historyLength: nat)

  /** The script's module-level variables (the clock text `time` aside). */
  datatype Board = Board(
    score1: int, score2: int,
    games1: int, games2: int,
    sets1: int, sets2: int,
    matchWon: bool,
    winnerData: Option<WinnerData>,
    pointsBlack: int, pointsYellow: int,
    gamesBlack: int, gamesYellow: int,
    matchStart: int,
    setsHistory: seq<SetRecord>,
    lastAction: Option<Snapshot>)

  /** The variables as the script declares them, `now` being Date.now(). */
  function Initial(now: int): Board
  {
    Board(0, 0, 0, 0, 0, 0, false, None, 0, 0, 0, 0, now, [], None)
  }

  function Score(b: Board, side: Side): int { if side == Black then b.score1 else b.score2 }
  function Games(b: Board, side: Side): int { if side == Black then b.games1 else b.games2 }
  function Sets(b: Board, side: Side): int { if side == Black then b.sets1 else b.sets2 }
  function TotalPoints(b: Board, side: Side): int { if side == Black then b.pointsBlack else b.pointsYellow }
  function TotalGames(b: Board, side: Side): int { if side == Black then b.gamesBlack else b.gamesYellow }

  /** nextTennisScore: one step up the ladder, and back to 0 from 40 or
      from any value off the ladder. */
  function NextTennisScore(current: int): (r: int)
    ensures BelowForty(current) ==> r == LadderNext(current)
    ensures !BelowForty(current) ==> r == 0
  {
    match current
    case 0 => 15
    case 15 => 30
    case 30 => 40
    case 40 => 0
    case _ => 0
  }

  /** addPoint's `score === 0` test after the step is exactly "the score was
      40 or off the ladder": the ladder itself never reaches 0. */
  lemma NextTennisScoreWraps(current: int)
    ensures (NextTennisScore(current) == 0) == !BelowForty(current)
    ensures OnLadder(NextTennisScore(current))
  {
  }

  /** Four points from 0 go round the ladder once. */
  lemma NextTennisScoreCycle()
    ensures NextTennisScore(NextTennisScore(NextTennisScore(NextTennisScore(0)))) == 0
    ensures forall k :: 1 <= k <= 3 ==> Iterate(k) != 0
  {
    assert Iterate(1) == 15 && Iterate(2) == 30 && Iterate(3) == 40;
  }

  /** nextTennisScore applied k times to 0. */
  function Iterate(k: nat): int
  {
    if k == 0 then 0 else NextTennisScore(Iterate(k - 1))
  }

  /** The lastAction record addPoint stores before touching anything. */
  function SnapshotOf(b: Board, team: Side): Snapshot
  {
    Snapshot(team, b.score1, b.score2, b.games1, b.games2, b.sets1, b.sets2,
             b.pointsBlack, b.pointsYellow, b.gamesBlack, b.gamesYellow, |b.setsHistory|)
  }

  /** checkMatchWin(team): only the team that just took a set is looked at;
      showSetsWinner then sets matchWon. */
  function MatchChecked(b: Board, team: Side): (r: Board)
    ensures Sets(b, team) >= 2 ==>
      r == b.(winnerData := Some(WinnerData(TeamName(team), PairText(b.sets1, b.sets2), "Match completed")), matchWon := true)
    ensures Sets(b, team) < 2 ==> r == b
  {
    if (team == Black && b.sets1 >= 2) || (team == Yellow && b.sets2 >= 2) then
      b.(winnerData := Some(WinnerData(if team == Black then "BLACK TEAM" else "YELLOW TEAM",
                                       IntToString(b.sets1) + "-" + IntToString(b.sets2), "Match completed")),
         matchWon := true)
    else b
  }

  /** checkSetWin(team): only the team that just won a game is looked at. */
  function SetChecked(b: Board, team: Side): Board
  {
    if team == Black && b.games1 >= 6 && b.games1 - b.games2 >= 2 then
      MatchChecked(b.(setsHistory := b.setsHistory + [SetRecord(b.games1, b.games2, Black)],
                      sets1 := b.sets1 + 1, games1 := 0, games2 := 0), Black)
    else if team == Yellow && b.games2 >= 6 && b.games2 - b.games1 >= 2 then
      MatchChecked(b.(setsHistory := b.setsHistory + [SetRecord(b.games1, b.games2, Yellow)],
                      sets2 := b.sets2 + 1, games1 := 0, games2 := 0), Yellow)
    else b
  }

  /** A set is closed for `team` exactly when its own games make the set;
      the other side's games are not examined. The closed set is recorded,
      counted, and both game counts restart. */
  lemma SetCheckFacts(b: Board, team: Side)
    ensures !WinsSet(Games(b, team), Games(b, Other(team))) ==> SetChecked(b, team) == b
    ensures WinsSet(Games(b, team), Games(b, Other(team))) ==>
      var r := SetChecked(b, team);
      && r.setsHistory == b.setsHistory + [SetRecord(b.games1, b.games2, team)]
      && Sets(r, team) == Sets(b, team) + 1 && Sets(r, Other(team)) == Sets(b, Other(team))
      && r.games1 == 0 && r.games2 == 0
      && r.matchWon == (b.matchWon || Sets(b, team) + 1 >= 2)
      && (Sets(b, team) + 1 >= 2 ==> r.winnerData == Some(WinnerData(TeamName(team), PairText(r.sets1, r.sets2), "Match completed")))
      && (Sets(b, team) + 1 < 2 ==> r.winnerData == b.winnerData)
      && (r.score1, r.score2, r.lastAction, r.matchStart) == (b.score1, b.score2, b.lastAction, b.matchStart)
      && TotalPoints(r, team) == TotalPoints(b, team) && TotalGames(r, team) == TotalGames(b, team)
      && TotalPoints(r, Other(team)) == TotalPoints(b, Other(team)) && TotalGames(r, Other(team)) == TotalGames(b, Other(team))
  {
  }

  function WithScore(b: Board, side: Side, v: int): Board
  {
    if side == Black then b.(score1 := v) else b.(score2 := v)
  }

  function PointCounted(b: Board, side: Side): Board
  {
    if side == Black then b.(pointsBlack := b.pointsBlack + 1) else b.(pointsYellow := b.pointsYellow + 1)
  }

  /** The scorer's game and total games go up and the opponent's score
      restarts, before the set check. */
  function GameCounted(b: Board, side: Side): Board
  {
    if side == Black then b.(games1 := b.games1 + 1, gamesBlack := b.gamesBlack + 1, score2 := 0)
    else b.(games2 := b.games2 + 1, gamesYellow := b.gamesYellow + 1, score1 := 0)
  }

  /** addPoint(team) on the local path. */
  function LocalPoint(b: Board, team: Side): Board
  {
    if b.matchWon then b
    else
      var counted := PointCounted(b.(lastAction := Some(SnapshotOf(b, team))), team);
      var stepped := WithScore(counted, team, NextTennisScore(Score(counted, team)));
      if Score(stepped, team) == 0 then SetChecked(GameCounted(stepped, team), team) else stepped
  }

  /** A point of a decided match changes nothing. Below 40 only the
      scorer's score and point total move (and the snapshot is taken); from
      40, or from a value off the ladder, the score wraps to 0, the scorer
      takes the game and the set check runs. */
  lemma LocalPointFacts(b: Board, team: Side)
    ensures b.matchWon ==> LocalPoint(b, team) == b
    ensures !b.matchWon && BelowForty(Score(b, team)) ==>
      LocalPoint(b, team) ==
        WithScore(PointCounted(b, team), team, LadderNext(Score(b, team))).(lastAction := Some(SnapshotOf(b, team)))
    ensures !b.matchWon && !BelowForty(Score(b, team)) ==>
      var w := WithScore(PointCounted(b, team), team, 0).(lastAction := Some(SnapshotOf(b, team)));
      && LocalPoint(b, team) == SetChecked(GameCounted(w, team), team)
      && Games(GameCounted(w, team), team) == Games(b, team) + 1
      && Games(GameCounted(w, team), Other(team)) == Games(b, Other(team))
      && TotalGames(GameCounted(w, team), team) == TotalGames(b, team) + 1
      && GameCounted(w, team).score1 == 0 && GameCounted(w, team).score2 == 0
  {
    NextTennisScoreWraps(Score(b, team));
  }

  /** JS slice(0, n) for a length n. */
  function Prefix(s: seq<SetRecord>, n: nat): (p: seq<SetRecord>)
    ensures |p| == if n <= |s| then n else |s|
    ensures forall i :: 0 <= i < |p| ==> p[i] == s[i]
  {
    if n <= |s| then s[..n] else s
  }

  /** The counters of `a` put back, setsHistory cut to its old length and
      lastAction cleared; matchWon, winnerData and the start time stay. */
  function Restored(b: Board, a: Snapshot): Board
  {
    b.(score1 := a.score1, score2 := a.score2, games1 := a.games1, games2 := a.games2,
       sets1 := a.sets1, sets2 := a.sets2,
       pointsBlack := a.pointsBlack, pointsYellow := a.pointsYellow,
       gamesBlack := a.gamesBlack, gamesYellow := a.gamesYellow,
       setsHistory := Prefix(b.setsHistory, a.historyLength), lastAction := None)
  }

  /** undoLastPoint: refused once the match is won, a no-op without a
      snapshot. */
  function Undo(b: Board): Board
  {
    if b.matchWon then b
    else match b.lastAction
      case None => b
      case Some(a) => Restored(b, a)
  }

  /** A local point appends at most one set, so the history before it is
      a prefix of the history after it. */
  lemma LocalPointExtends(b: Board, team: Side)
    ensures var r := LocalPoint(b, team);
      |b.setsHistory| <= |r.setsHistory| <= |b.setsHistory| + 1 && r.setsHistory[..|b.setsHistory|] == b.setsHistory
    ensures !b.matchWon ==> LocalPoint(b, team).lastAction == Some(SnapshotOf(b, team))
    ensures !LocalPoint(b, team).matchWon ==> LocalPoint(b, team).winnerData == b.winnerData
    ensures LocalPoint(b, team).matchStart == b.matchStart
  {
  }

  /** Undoing a point that did not end the match gives back the board as it
      was before the point, with no snapshot left. */
  lemma UndoRestoresPoint(b: Board, team: Side)
    requires !b.matchWon && !LocalPoint(b, team).matchWon
    ensures Undo(LocalPoint(b, team)) == b.(lastAction := None)
  {
    LocalPointExtends(b, team);
  }

  /** Undo is refused once the match is won, a second undo does nothing,
      and the match-winning point can not be undone. */
  lemma UndoFacts(b: Board, team: Side)
    ensures b.matchWon ==> Undo(b) == b
    ensures Undo(b).lastAction.None? || b.matchWon
    ensures Undo(Undo(b)) == Undo(b)
    ensures LocalPoint(b, team).matchWon ==> Undo(LocalPoint(b, team)) == LocalPoint(b, team)
  {
  }

  /** resetMatch when the backend can not be reached and the reset is
      confirmed: every counter back to zero, the history emptied, the start
      time taken again. lastAction is not cleared. */
  function LocalReset(b: Board, now: int): (r: Board)
    ensures r == Initial(now).(lastAction := b.lastAction)
  {
    b.(score1 := 0, score2 := 0, games1 := 0, games2 := 0, sets1 := 0, sets2 := 0,
       matchWon := false, winnerData := None,
       pointsBlack := 0, pointsYellow := 0, gamesBlack := 0, gamesYellow := 0,
       setsHistory := [], matchStart := now)
  }

  /** As written, the snapshot survives a reset: an undo right after it
      brings back the counters from before the last point while the set
      list stays empty. */
  lemma UndoAfterReset(b: Board, now: int)
    requires b.lastAction.Some?
    ensures var a, r := b.lastAction.value, Undo(LocalReset(b, now));
      && (r.score1, r.score2, r.games1, r.games2, r.sets1, r.sets2) == (a.score1, a.score2, a.games1, a.games2, a.sets1, a.sets2)
      && r.setsHistory == [] && !r.matchWon && r.lastAction.None?
  {
  }

  /** One set won 6-0 by Black, then a Black point: a board the scoreboard
      reaches. */
  function ResetExampleBoard(): Board
  {
    LocalPoint(Board(0, 0, 0, 0, 1, 0, false, None, 24, 8, 6, 0, 0, [SetRecord(6, 0, Black)], None), Black)
  }

  lemma ResetExampleReachable()
    ensures Reachable(ResetExampleBoard())
  {
    var b := Board(0, 0, 0, 0, 1, 0, false, None, 24, 8, 6, 0, 0, [SetRecord(6, 0, Black)], None);
    assert SetsWonIn(b.setsHistory, Black) == 1 && GamesIn(b.setsHistory, Black) == 6;
    assert Reachable(b);
    PointReachable(b, Black);
  }

  /** A concrete consequence: from that board a reset and an undo leave a
      board that counts a set while listing none, so the reset board breaks
      the invariant its predecessor met. */
  lemma UndoAfterResetExample()
    ensures var r := Undo(LocalReset(ResetExampleBoard(), 100));
      && !Reachable(LocalReset(ResetExampleBoard(), 100))
      && r.sets1 == 1 && |r.setsHistory| == 0
  {
    var p := ResetExampleBoard();
    var a := Snapshot(Black, 0, 0, 0, 0, 1, 0, 24, 8, 6, 0, 1);
    assert p.lastAction == Some(a);
    UndoAfterReset(p, 100);
    ResetBreaksInvariant(p, 100);
  }

  /** A reset whose kept snapshot counts a set breaks the invariant: undoing
      to that snapshot restores the set count with no set listed. */
  lemma ResetBreaksInvariant(b: Board, now: int)
    requires b.lastAction.Some? && b.lastAction.value.sets1 != 0
    ensures !Reachable(LocalReset(b, now))
  {
    var z := LocalReset(b, now);
    var u := Restored(z, b.lastAction.value);
    assert u.setsHistory == [];
    assert !Consistent(u);
  }

  /** resetMatch with the snapshot cleared as well: the board is the
      page-load board, so it meets the invariant and an undo right after it
      changes nothing. It differs from LocalReset only in lastAction. */
  function ClearedReset(b: Board, now: int): (r: Board)
    ensures r == LocalReset(b, now).(lastAction := None)
    ensures Reachable(r) && Undo(r) == r
  {
    InitialReachable(now);
    Initial(now)
  }

  /** JavaScript's % (the sign follows the dividend) for a positive divisor. */
  function JsRemainder(a: int, n: int): (r: int)
    requires n > 0
    ensures a >= 0 ==> r == a % n
    ensures a < 0 ==> -n < r <= 0
  {
    if a >= 0 then a % n else -((-a) % n)
  }

  /** getMatchDuration for the elapsed milliseconds; Math.floor agrees with
      Dafny's division by a positive number. */
  function ClientDuration(elapsedMs: int): string
  {
    var durationSeconds := elapsedMs / 1000;
    var minutes := durationSeconds / 60;
    var seconds := JsRemainder(durationSeconds, 60);
    if minutes > 0 then IntToString(minutes) + "m " + IntToString(seconds) + "s" else IntToString(seconds) + "s"
  }

  /** For a start time in the past the client writes the same duration text
      as the backend's report, and that text reads back as the whole
      seconds elapsed. */
  lemma ClientDurationAgrees(elapsedMs: int)
    requires elapsedMs >= 0
    ensures ClientDuration(elapsedMs) == MatchReport.DurationText(elapsedMs / 1000)
    ensures MatchReport.ParseDurationText(ClientDuration(elapsedMs)) == Some(elapsedMs / 1000)
  {
    var s := elapsedMs / 1000;
    if s / 60 <= 0 {
      assert s % 60 == s;
    }
    MatchReport.DurationTextRoundTrip(s);
  }

  /** The winner column of the sets table. */
  function SetWinnerLabel(r: SetRecord): string
  {
    if r.blackGames > r.yellowGames then "BLACK" else "YELLOW"
  }

  /** A set entry as checkSetWin records it: the winner's games make the set. */
  predicate Closed(r: SetRecord)
  {
    if r.winner == Black then WinsSet(r.blackGames, r.yellowGames) else WinsSet(r.yellowGames, r.blackGames)
  }

  /** For a set entry as checkSetWin records it, the table names the team
      stored as the set's winner. */
  lemma SetWinnerLabelNamesWinner(r: SetRecord)
    requires Closed(r)
    ensures (SetWinnerLabel(r) == "BLACK") == (r.winner == Black)
  {
  }

  /** How many of the recorded sets `side` won. */
  function SetsWonIn(h: seq<SetRecord>, side: Side): nat
  {
    if |h| == 0 then 0 else SetsWonIn(h[..|h| - 1], side) + (if h[|h| - 1].winner == side then 1 else 0)
  }

  /** The games `side` took in the recorded sets. */
  function GamesIn(h: seq<SetRecord>, side: Side): int
  {
    if |h| == 0 then 0
    else GamesIn(h[..|h| - 1], side) + (if side == Black then h[|h| - 1].blackGames else h[|h| - 1].yellowGames)
  }

  lemma HistoryAppend(h: seq<SetRecord>, r: SetRecord, side: Side)
    ensures SetsWonIn(h + [r], side) == SetsWonIn(h, side) + (if r.winner == side then 1 else 0)
    ensures GamesIn(h + [r], side) == GamesIn(h, side) + (if side == Black then r.blackGames else r.yellowGames)
  {
    assert (h + [r])[..|h|] == h;
  }

  /** What the counters satisfy on a board reached by local points and
      undos: ladder scores, no set left undecided, at most two sets a side
      and a won match exactly at two, one history entry per set won, and
      each side's total games equal to its games in the closed sets plus
      the current set. */
  predicate Consistent(b: Board)
  {
    && OnLadder(b.score1) && OnLadder(b.score2)
    && b.games1 >= 0 && b.games2 >= 0
    && !WinsSet(b.games1, b.games2) && !WinsSet(b.games2, b.games1)
    && 0 <= b.sets1 <= 2 && 0 <= b.sets2 <= 2 && !(b.sets1 == 2 && b.sets2 == 2)
    && b.matchWon == (b.sets1 == 2 || b.sets2 == 2)
    && b.winnerData.Some? == b.matchWon
    && SetsWonIn(b.setsHistory, Black) == b.sets1 && SetsWonIn(b.setsHistory, Yellow) == b.sets2
    && (forall i :: 0 <= i < |b.setsHistory| ==> Closed(b.setsHistory[i]))
    && b.gamesBlack == GamesIn(b.setsHistory, Black) + b.games1
    && b.gamesYellow == GamesIn(b.setsHistory, Yellow) + b.games2
  }

  /** Consistent, and an undo would land on a consistent board too. */
  predicate Reachable(b: Board)
  {
    && Consistent(b)
    && (b.lastAction.Some? && !b.matchWon ==> Consistent(Restored(b, b.lastAction.value)))
  }

  lemma InitialReachable(now: int)
    ensures Reachable(Initial(now))
  {
  }

  /** The board after a game is counted and before checkSetWin runs: as
      Consistent, except that the scorer's games may now make the set, and
      the match is still open. */
  predicate BeforeSetCheck(g: Board, team: Side)
  {
    && OnLadder(g.score1) && OnLadder(g.score2)
    && g.games1 >= 0 && g.games2 >= 0
    && !WinsSet(Games(g, Other(team)), Games(g, team))
    && 0 <= g.sets1 <= 1 && 0 <= g.sets2 <= 1
    && !g.matchWon && g.winnerData.None?
    && SetsWonIn(g.setsHistory, Black) == g.sets1 && SetsWonIn(g.setsHistory, Yellow) == g.sets2
    && (forall i :: 0 <= i < |g.setsHistory| ==> Closed(g.setsHistory[i]))
    && g.gamesBlack == GamesIn(g.setsHistory, Black) + g.games1
    && g.gamesYellow == GamesIn(g.setsHistory, Yellow) + g.games2
  }

  lemma GameCountedBeforeSetCheck(b: Board, team: Side)
    requires Consistent(b) && !b.matchWon
    ensures BeforeSetCheck(GameCounted(WithScore(PointCounted(b, team), team, 0).(lastAction := Some(SnapshotOf(b, team))), team), team)
  {
  }

  lemma {:induction false} SetCheckConsistent(g: Board, team: Side)
    requires BeforeSetCheck(g, team)
    ensures Consistent(SetChecked(g, team))
  {
    SetCheckFacts(g, team);
    if WinsSet(Games(g, team), Games(g, Other(team))) {
      var rec := SetRecord(g.games1, g.games2, team);
      HistoryAppend(g.setsHistory, rec, Black);
      HistoryAppend(g.setsHistory, rec, Yellow);
      var r := SetChecked(g, team);
      assert Closed(rec);
      forall i | 0 <= i < |r.setsHistory|
        ensures Closed(r.setsHistory[i])
      {
        if i < |g.setsHistory| {
          assert r.setsHistory[i] == g.setsHistory[i];
        }
      }
    }
  }

  /** The counters as a point leaves them once the set check has run. */
  lemma PointConsistent(b: Board, team: Side)
    requires Consistent(b)
    ensures Consistent(LocalPoint(b, team))
  {
    if !b.matchWon {
      LocalPointFacts(b, team);
      if !BelowForty(Score(b, team)) {
        GameCountedBeforeSetCheck(b, team);
        SetCheckConsistent(GameCounted(WithScore(PointCounted(b, team), team, 0).(lastAction := Some(SnapshotOf(b, team))), team), team);
      }
    }
  }

  lemma PointReachable(b: Board, team: Side)
    requires Reachable(b)
    ensures Reachable(LocalPoint(b, team))
  {
    PointConsistent(b, team);
    if !LocalPoint(b, team).matchWon {
      UndoRestoresPoint(b, team);
      LocalPointExtends(b, team);
      assert Restored(LocalPoint(b, team), SnapshotOf(b, team)) == b.(lastAction := None);
    }
  }

  lemma UndoReachable(b: Board)
    requires Reachable(b)
    ensures Reachable(Undo(b))
  {
  }

  /** What the script reacts to on its local path. */
  datatype Event = Tap(team: Side) | UndoTap

  function Apply(b: Board, e: Event): Board
  {
    match e
    case Tap(team) => LocalPoint(b, team)
    case UndoTap => Undo(b)
  }

  function Play(b: Board, events: seq<Event>): Board
    decreases |events|
  {
    if |events| == 0 then b else Play(Apply(b, events[0]), events[1..])
  }

  /** Any run of taps and undos from page load keeps the counters
      consistent, so the sets table and the set counters always agree. */
  lemma {:induction false} PlayReachable(b: Board, events: seq<Event>)
    requires Reachable(b)
    ensures Reachable(Play(b, events))
    decreases |events|
  {
    if |events| > 0 {
      match events[0] {
        case Tap(team) => PointReachable(b, team);
        case UndoTap => UndoReachable(b);
      }
      PlayReachable(Apply(b, events[0]), events[1..]);
    }
  }

  /** The script's state in the page. */
  class ClientScoreboard {
    var board: Board

    /** Page load at time `now`. */
    constructor (now: int)
      ensures board == Initial(now)
    {
      board := Initial(now);
    }

    method CheckMatchWin(team: Side)
      modifies this
      ensures board == MatchChecked(old(board), team)
    {
      if (team == Black && board.sets1 >= 2) || (team == Yellow && board.sets2 >= 2) {
        var winner := WinnerData(if team == Black then "BLACK TEAM" else "YELLOW TEAM",
                                 IntToString(board.sets1) + "-" + IntToString(board.sets2), "Match completed");
        board := board.(winnerData := Some(winner));
        // showSetsWinner(winner)
        board := board.(matchWon := true);
      }
    }

    method CheckSetWin(team: Side)
      modifies this
      ensures board == SetChecked(old(board), team)
    {
      if team == Black && board.games1 >= 6 && board.games1 - board.games2 >= 2 {
        board := board.(setsHistory := board.setsHistory + [SetRecord(board.games1, board.games2, Black)]);
        board := board.(sets1 := board.sets1 + 1);
        board := board.(games1 := 0, games2 := 0);
        CheckMatchWin(Black);
      } else if team == Yellow && board.games2 >= 6 && board.games2 - board.games1 >= 2 {
        board := board.(setsHistory := board.setsHistory + [SetRecord(board.games1, board.games2, Yellow)]);
        board := board.(sets2 := board.sets2 + 1);
        board := board.(games1 := 0, games2 := 0);
        CheckMatchWin(Yellow);
      }
    }

    /** addPoint(team) when sendPointToBackend fails. */
    method AddPoint(team: Side)
      modifies this
      ensures board == LocalPoint(old(board), team)
    {
      if board.matchWon {
        return;
      }
      board := board.(lastAction := Some(SnapshotOf(board, team)));
      if team == Black {
        board := board.(pointsBlack := board.pointsBlack + 1);
      } else {
        board := board.(pointsYellow := board.pointsYellow + 1);
      }
      if team == Black {
        board := board.(score1 := NextTennisScore(board.score1));
        if board.score1 == 0 {
          board := board.(games1 := board.games1 + 1, gamesBlack := board.gamesBlack + 1, score2 := 0);
          CheckSetWin(Black);
        }
      } else {
        board := board.(score2 := NextTennisScore(board.score2));
        if board.score2 == 0 {
          board := board.(games2 := board.games2 + 1, gamesYellow := board.gamesYellow + 1, score1 := 0);
          CheckSetWin(Yellow);
        }
      }
    }

    /** undoLastPoint; `refused` is the "Cannot undo" alert. */
    method UndoLastPoint() returns (refused: bool)
      modifies this
      ensures refused == old(board.matchWon)
      ensures board == Undo(old(board))
    {
      if board.matchWon {
        return true;
      }
      refused := false;
      if board.lastAction.Some? {
        var a := board.lastAction.value;
        board := board.(score1 := a.score1, score2 := a.score2, games1 := a.games1, games2 := a.games2,
                        sets1 := a.sets1, sets2 := a.sets2);
        board := board.(pointsBlack := a.pointsBlack, pointsYellow := a.pointsYellow,
                        gamesBlack := a.gamesBlack, gamesYellow := a.gamesYellow);
        board := board.(setsHistory := Prefix(board.setsHistory, a.historyLength));
        board := board.(lastAction := None);
      }
    }

    /** resetMatch, confirmed, with the backend unreachable. */
    method ResetMatch(now: int)
      modifies this
      ensures board == LocalReset(old(board), now)
    {
      board := board.(score1 := 0, score2 := 0, games1 := 0, games2 := 0, sets1 := 0, sets2 := 0);
      board := board.(matchWon := false, winnerData := None);
      board := board.(pointsBlack := 0, pointsYellow := 0, gamesBlack := 0, gamesYellow := 0);
      board := board.(setsHistory := [], matchStart := now);
    }

    /** getMatchDuration at time `now`; changes nothing. */
    method GetMatchDuration(now: int) returns (t: string)
      ensures t == ClientDuration(now - board.matchStart)
    {
      var durationMs := now - board.matchStart;
      var durationSeconds := durationMs / 1000;
      var minutes := durationSeconds / 60;
      var seconds := JsRemainder(durationSeconds, 60);
      t := if minutes > 0 then IntToString(minutes) + "m " + IntToString(seconds) + "s" else IntToString(seconds) + "s";
    }
  }
}
