/** padel_backend_team_sets.py: a Flask backend with no-advantage games,
    sets won at six games with a two-game lead, and a match won at two
    sets. The state is one game_state dict; update_scores overwrites any
    of its counters and re-checks the match. */
module TeamSets {
  import opened Scoring
  import opened Text

  /** game_state['winner'] once the match is decided. */
  datatype Winner = Winner(team: Side, teamName: string, finalSets: string, matchSummary: string, totalGamesWon: int)

  datatype GameState = GameState(
    score1: int, score2: int,
    point1: int, point2: int,
    game1: int, game2: int,
    set1: int, set2: int,
    matchWon: bool,
    winner: Option<Winner>,
    setHistory: seq<string>)

  /** The counter keys update_scores recognises. */
  datatype Field = Score1 | Score2 | Point1 | Point2 | Game1 | Game2 | Set1 | Set2

  function Get(g: GameState, f: Field): int
  {
    match f
    case Score1 => g.score1
    case Score2 => g.score2
    case Point1 => g.point1
    case Point2 => g.point2
    case Game1 => g.game1
    case Game2 => g.game2
    case Set1 => g.set1
    case Set2 => g.set2
  }

  function Score(g: GameState, side: Side): int { if side == Black then g.score1 else g.score2 }
  function Points(g: GameState, side: Side): int { if side == Black then g.point1 else g.point2 }
  function Games(g: GameState, side: Side): int { if side == Black then g.game1 else g.game2 }
  function Sets(g: GameState, side: Side): int { if side == Black then g.set1 else g.set2 }

  /** The dict reset_match installs (and the module starts with). */
  const Fresh := GameState(0, 0, 0, 0, 0, 0, 0, 0, false, None, [])

  /** The winner record check_match_winner builds for `side`. */
  function WinnerRecord(g: GameState, side: Side): (w: Winner)
    ensures w.team == side && w.totalGamesWon == Sets(g, side) * 6
    ensures w.finalSets == PairText(g.set1, g.set2)
  {
    Winner(side, TeamName(side), PairText(g.set1, g.set2), Join(g.setHistory, ", "),
           if side == Black then g.set1 * 6 else g.set2 * 6)
  }

  /** check_match_winner: two sets (Black examined first) decide the match. */
  function AfterMatchCheck(g: GameState): (r: GameState)
    ensures r.matchWon == (g.matchWon || g.set1 >= 2 || g.set2 >= 2)
    ensures g.set1 >= 2 ==> r.winner == Some(WinnerRecord(g, Black))
    ensures g.set1 < 2 && g.set2 >= 2 ==> r.winner == Some(WinnerRecord(g, Yellow))
    ensures g.set1 < 2 && g.set2 < 2 ==> r == g
    ensures forall f :: Get(r, f) == Get(g, f)
    ensures r.setHistory == g.setHistory
  {
    if g.set1 >= 2 then g.(matchWon := true, winner := Some(WinnerRecord(g, Black)))
    else if g.set2 >= 2 then g.(matchWon := true, winner := Some(WinnerRecord(g, Yellow)))
    else g
  }

  /** `r` is `g` after `side` took the set: its set count up by one, the
      closing games appended to set_history, both game counts zero, and
      the match re-checked. */
  predicate SetClosedFor(g: GameState, r: GameState, side: Side)
  {
    && Sets(r, side) == Sets(g, side) + 1
    && Sets(r, Other(side)) == Sets(g, Other(side))
    && r.game1 == 0 && r.game2 == 0
    && r.setHistory == g.setHistory + [PairText(g.game1, g.game2)]
    && r.matchWon == (g.matchWon || r.set1 >= 2 || r.set2 >= 2)
    && r.score1 == g.score1 && r.score2 == g.score2
    && r.point1 == g.point1 && r.point2 == g.point2
  }

  /** check_set_winner, run after every game win. */
  function AfterSetCheck(g: GameState): (r: GameState)
    ensures WinsSet(g.game1, g.game2) ==> SetClosedFor(g, r, Black)
    ensures !WinsSet(g.game1, g.game2) && WinsSet(g.game2, g.game1) ==> SetClosedFor(g, r, Yellow)
    // no lead of two (6-6 included): the set simply goes on
    ensures !WinsSet(g.game1, g.game2) && !WinsSet(g.game2, g.game1) ==> r == g
  {
    if WinsSet(g.game1, g.game2) then
      AfterMatchCheck(g.(set1 := g.set1 + 1, setHistory := g.setHistory + [PairText(g.game1, g.game2)], game1 := 0, game2 := 0))
    else if WinsSet(g.game2, g.game1) then
      AfterMatchCheck(g.(set2 := g.set2 + 1, setHistory := g.setHistory + [PairText(g.game1, g.game2)], game1 := 0, game2 := 0))
    else g
  }

  /** The game counts, set counts, history and winner of `g` with `side`'s
      game won and the set rule applied. */
  function GameWonBy(g: GameState, side: Side): GameState
  {
    if side == Black then AfterSetCheck(g.(game1 := g.game1 + 1, score1 := 0, score2 := 0, point1 := 0, point2 := 0))
    else AfterSetCheck(g.(game2 := g.game2 + 1, score1 := 0, score2 := 0, point1 := 0, point2 := 0))
  }

  /** add_point for `team`; a decided match is left as it is. */
  function AfterPoint(g: GameState, team: Side): (r: GameState)
    ensures g.matchWon ==> r == g
    ensures !g.matchWon && BelowForty(Score(g, team)) ==>
      && Score(r, team) == LadderNext(Score(g, team))
      && Score(r, Other(team)) == Score(g, Other(team))
      && Points(r, team) == Points(g, team) + 1
      && Points(r, Other(team)) == Points(g, Other(team))
      && r.game1 == g.game1 && r.game2 == g.game2 && r.set1 == g.set1 && r.set2 == g.set2
      && r.matchWon == g.matchWon && r.winner == g.winner && r.setHistory == g.setHistory
    // at 40 the game is won whatever the opponent holds
    ensures !g.matchWon && Score(g, team) == 40 ==>
      var w := GameWonBy(g, team);
      && r.score1 == 0 && r.score2 == 0
      && Points(r, team) == 1 && Points(r, Other(team)) == 0
      && r.game1 == w.game1 && r.game2 == w.game2 && r.set1 == w.set1 && r.set2 == w.set2
      && r.matchWon == w.matchWon && r.winner == w.winner && r.setHistory == w.setHistory
    // a score an override put off the ladder stays; the point counter still moves
    ensures !g.matchWon && !OnLadder(Score(g, team)) ==>
      r == (if team == Black then g.(point1 := g.point1 + 1) else g.(point2 := g.point2 + 1))
  {
    if g.matchWon then g
    else match team
      case Black =>
        var g1 :=
          if g.score1 == 0 then g.(score1 := 15)
          else if g.score1 == 15 then g.(score1 := 30)
          else if g.score1 == 30 then g.(score1 := 40)
          else if g.score1 == 40 then GameWonBy(g, Black)
          else g;
        g1.(point1 := g1.point1 + 1)
      case Yellow =>
        var g1 :=
          if g.score2 == 0 then g.(score2 := 15)
          else if g.score2 == 15 then g.(score2 := 30)
          else if g.score2 == 30 then g.(score2 := 40)
          else if g.score2 == 40 then GameWonBy(g, Yellow)
          else g;
        g1.(point2 := g1.point2 + 1)
  }

  /** A game won at 40 from a state with no set pending: both scores and
      point counters are zeroed and either the scorer's game is counted,
      or, with six games and a lead of two, the scorer takes the set with
      its "g1-g2" text and both game counts return to 0. */
  lemma GameWonByFacts(g: GameState, side: Side)
    requires !WinsSet(g.game1, g.game2) && !WinsSet(g.game2, g.game1)
    ensures
      var r, mine, theirs := GameWonBy(g, side), Games(g, side) + 1, Games(g, Other(side));
      && r.score1 == 0 && r.score2 == 0 && r.point1 == 0 && r.point2 == 0
      && (!WinsSet(mine, theirs) ==>
            && Games(r, side) == mine && Games(r, Other(side)) == theirs
            && r.set1 == g.set1 && r.set2 == g.set2 && r.setHistory == g.setHistory && r.winner == g.winner)
      && (WinsSet(mine, theirs) ==>
            && Sets(r, side) == Sets(g, side) + 1 && Sets(r, Other(side)) == Sets(g, Other(side))
            && r.game1 == 0 && r.game2 == 0
            && r.setHistory == g.setHistory + [if side == Black then PairText(mine, theirs) else PairText(theirs, mine)]
            && r.matchWon == (g.matchWon || r.set1 >= 2 || r.set2 >= 2))
  {
    var t := if side == Black then g.(game1 := g.game1 + 1, score1 := 0, score2 := 0, point1 := 0, point2 := 0)
             else g.(game2 := g.game2 + 1, score1 := 0, score2 := 0, point1 := 0, point2 := 0);
    assert GameWonBy(g, side) == AfterSetCheck(t);
    assert Games(t, side) == Games(g, side) + 1 && Games(t, Other(side)) == Games(g, Other(side));
    if side == Black {
      assert !WinsSet(t.game2, t.game1);
    } else {
      assert !WinsSet(t.game1, t.game2);
    }
  }

  /** `g` with counter `f` set to `v`: game_state[key] = value. */
  function Put(g: GameState, f: Field, v: int): (r: GameState)
    ensures forall k :: Get(r, k) == if k == f then v else Get(g, k)
    ensures r.matchWon == g.matchWon && r.winner == g.winner && r.setHistory == g.setHistory
  {
    match f
    case Score1 => g.(score1 := v)
    case Score2 => g.(score2 := v)
    case Point1 => g.(point1 := v)
    case Point2 => g.(point2 := v)
    case Game1 => g.(game1 := v)
    case Game2 => g.(game2 := v)
    case Set1 => g.(set1 := v)
    case Set2 => g.(set2 := v)
  }

  /** One `if key in data` line of update_scores. */
  function Supplied(g: GameState, data: map<Field, int>, f: Field): (r: GameState)
    ensures forall k :: Get(r, k) == if k == f && f in data then data[f] else Get(g, k)
    ensures r.matchWon == g.matchWon && r.winner == g.winner && r.setHistory == g.setHistory
  {
    if f in data then Put(g, f, data[f]) else g
  }

  /** The counters overwritten by the supplied keys, in the source's order,
      before the match check. */
  function Overwrite(g: GameState, data: map<Field, int>): (r: GameState)
    ensures forall f :: Get(r, f) == if f in data then data[f] else Get(g, f)
    ensures r.matchWon == g.matchWon && r.winner == g.winner && r.setHistory == g.setHistory
  {
    var s := Supplied(Supplied(g, data, Score1), data, Score2);
    var p := Supplied(Supplied(s, data, Point1), data, Point2);
    var m := Supplied(Supplied(p, data, Game1), data, Game2);
    Supplied(Supplied(m, data, Set1), data, Set2)
  }

  /** update_scores: only the supplied counters change, then the match is
      re-checked, so a supplied set count of two ends the match. */
  function AfterUpdate(g: GameState, data: map<Field, int>): (r: GameState)
    ensures forall f :: Get(r, f) == if f in data then data[f] else Get(g, f)
    ensures r.setHistory == g.setHistory
    ensures r.matchWon == (g.matchWon || r.set1 >= 2 || r.set2 >= 2)
    ensures Set1 in data && data[Set1] >= 2 ==> r.winner.Some? && r.winner.value.team == Black
    ensures r.set1 < 2 && r.set2 < 2 ==> r.winner == g.winner
  {
    AfterMatchCheck(Overwrite(g, data))
  }

  /** What /stats reports about one team. */
  datatype TeamStats = TeamStats(currentPoints: int, currentScore: int, currentGames: int, setsWon: int)

  datatype Stats = Stats(
    completed: bool,
    totalPoints: int, totalGames: int, totalSets: int, currentSet: int,
    black: TeamStats, yellow: TeamStats,
    setHistory: seq<string>, winner: Option<Winner>)

  /** get_stats: a read of the state with a few sums. */
  function StatsOf(g: GameState): (s: Stats)
    ensures s.totalPoints == s.black.currentPoints + s.yellow.currentPoints
    ensures s.totalGames == s.black.currentGames + s.yellow.currentGames
    ensures s.currentSet == s.black.setsWon + s.yellow.setsWon + 1
    ensures s.black == TeamStats(g.point1, g.score1, g.game1, g.set1)
    ensures s.yellow == TeamStats(g.point2, g.score2, g.game2, g.set2)
    ensures s.totalSets == s.black.setsWon + s.yellow.setsWon
    ensures s.completed == g.matchWon
  {
    var totalSets := g.set1 + g.set2;
    Stats(g.matchWon, g.point1 + g.point2, g.game1 + g.game2, totalSets, totalSets + 1,
          TeamStats(g.point1, g.score1, g.game1, g.set1),
          TeamStats(g.point2, g.score2, g.game2, g.set2),
          g.setHistory, g.winner)
  }

  /** What holds in every state reached from reset by points alone. */
  predicate Reachable(g: GameState)
  {
    && OnLadder(g.score1) && OnLadder(g.score2)
    && g.point1 >= 0 && g.point2 >= 0
    && g.game1 >= 0 && g.game2 >= 0
    && !WinsSet(g.game1, g.game2) && !WinsSet(g.game2, g.game1)
    && 0 <= g.set1 <= 2 && 0 <= g.set2 <= 2 && !(g.set1 == 2 && g.set2 == 2)
    && g.set1 + g.set2 == |g.setHistory|
    && g.matchWon == (g.set1 == 2 || g.set2 == 2)
    && g.winner.Some? == g.matchWon
    && (g.matchWon ==> g.winner.value.team == (if g.set1 == 2 then Black else Yellow))
  }

  lemma AfterPointReachable(g: GameState, team: Side)
    requires Reachable(g)
    ensures Reachable(AfterPoint(g, team))
  {
  }

  function Play(g: GameState, points: seq<Side>): GameState
    decreases |points|
  {
    if |points| == 0 then g else Play(AfterPoint(g, points[0]), points[1..])
  }

  /** Any run of points from reset keeps the invariant: sets never pass
      two, one closed set per set_history entry, no set left undecided. */
  lemma {:induction false} PlayReachable(g: GameState, points: seq<Side>)
    requires Reachable(g)
    ensures Reachable(Play(g, points))
    decreases |points|
  {
    if |points| > 0 {
      AfterPointReachable(g, points[0]);
      PlayReachable(AfterPoint(g, points[0]), points[1..]);
    }
  }

  /** Once the match is won no run of points changes anything. */
  lemma {:induction false} PlayAfterMatchWon(g: GameState, points: seq<Side>)
    requires g.matchWon
    ensures Play(g, points) == g
    decreases |points|
  {
    if |points| > 0 {
      PlayAfterMatchWon(g, points[1..]);
    }
  }

  /** Without overrides, /stats' current_set is one more than the number
      of sets in set_history, and 'completed' means a winner exists. */
  lemma StatsOfReachable(g: GameState)
    requires Reachable(g)
    ensures StatsOf(g).currentSet == |g.setHistory| + 1
    ensures StatsOf(g).completed == g.winner.Some?
  {
  }

  /** game_state of the running server. */
  class TeamSetsServer {
    var game: GameState

    constructor ()
      ensures game == Fresh
    {
      game := Fresh;
    }

    method CheckMatchWinner() returns (won: bool)
      modifies this
      ensures game == AfterMatchCheck(old(game))
      ensures won == (old(game.set1) >= 2 || old(game.set2) >= 2)
    {
      if game.set1 >= 2 {
        game := game.(matchWon := true);
        game := game.(winner := Some(Winner(Black, TeamName(Black), PairText(game.set1, game.set2), Join(game.setHistory, ", "), game.set1 * 6)));
        won := true;
      } else if game.set2 >= 2 {
        game := game.(matchWon := true);
        game := game.(winner := Some(Winner(Yellow, TeamName(Yellow), PairText(game.set1, game.set2), Join(game.setHistory, ", "), game.set2 * 6)));
        won := true;
      } else {
        won := false;
      }
    }

    method CheckSetWinner() returns (won: bool)
      modifies this
      ensures game == AfterSetCheck(old(game))
      ensures won == ((WinsSet(old(game.game1), old(game.game2)) || WinsSet(old(game.game2), old(game.game1)))
                      && (game.set1 >= 2 || game.set2 >= 2))
    {
      if game.game1 >= 6 && game.game1 - game.game2 >= 2 {
        game := game.(set1 := game.set1 + 1);
        game := game.(setHistory := game.setHistory + [PairText(game.game1, game.game2)]);
        game := game.(game1 := 0, game2 := 0);
        won := CheckMatchWinner();
      } else if game.game2 >= 6 && game.game2 - game.game1 >= 2 {
        game := game.(set2 := game.set2 + 1);
        game := game.(setHistory := game.setHistory + [PairText(game.game1, game.game2)]);
        game := game.(game1 := 0, game2 := 0);
        won := CheckMatchWinner();
      } else {
        // 6-6 included: the set goes on
        won := false;
      }
    }

    /** POST /add_point; false is the "Match is already completed" reply. */
    method AddPoint(team: Side) returns (accepted: bool)
      modifies this
      ensures accepted == !old(game.matchWon)
      ensures game == AfterPoint(old(game), team)
    {
      if game.matchWon {
        return false;
      }
      accepted := true;
      if team == Black {
        var current := game.score1;
        if current == 0 {
          game := game.(score1 := 15);
        } else if current == 15 {
          game := game.(score1 := 30);
        } else if current == 30 {
          game := game.(score1 := 40);
        } else if current == 40 {
          game := game.(game1 := game.game1 + 1);
          game := game.(score1 := 0, score2 := 0, point1 := 0, point2 := 0);
          var _ := CheckSetWinner();
        }
        game := game.(point1 := game.point1 + 1);
      } else {
        var current := game.score2;
        if current == 0 {
          game := game.(score2 := 15);
        } else if current == 15 {
          game := game.(score2 := 30);
        } else if current == 30 {
          game := game.(score2 := 40);
        } else if current == 40 {
          game := game.(game2 := game.game2 + 1);
          game := game.(score1 := 0, score2 := 0, point1 := 0, point2 := 0);
          var _ := CheckSetWinner();
        }
        game := game.(point2 := game.point2 + 1);
      }
    }

    /** Copies one key of the request into game_state when it is present. */
    method Supply(data: map<Field, int>, f: Field)
      modifies this
      ensures game == Supplied(old(game), data, f)
    {
      if f in data {
        game := Put(game, f, data[f]);
      }
    }

    /** The key-by-key overwrite at the start of update_scores. */
    method OverwriteCounters(data: map<Field, int>)
      modifies this
      ensures game == Overwrite(old(game), data)
    {
      Supply(data, Score1);
      Supply(data, Score2);
      Supply(data, Point1);
      Supply(data, Point2);
      Supply(data, Game1);
      Supply(data, Game2);
      Supply(data, Set1);
      Supply(data, Set2);
    }

    /** POST /update_scores with the keys the request carried. */
    method UpdateScores(data: map<Field, int>)
      modifies this
      ensures game == AfterUpdate(old(game), data)
    {
      OverwriteCounters(data);
      var _ := CheckMatchWinner();
    }

    /** POST /reset_match. */
    method ResetMatch()
      modifies this
      ensures game == Fresh
    {
      game := Fresh;
    }

    /** GET /stats. */
    method GetStats() returns (s: Stats)
      ensures s == StatsOf(game)
    {
      var totalPoints := game.point1 + game.point2;
      var totalGames := game.game1 + game.game2;
      var totalSets := game.set1 + game.set2;
      s := Stats(game.matchWon, totalPoints, totalGames, totalSets, totalSets + 1,
                 TeamStats(game.point1, game.score1, game.game1, game.set1),
                 TeamStats(game.point2, game.score2, game.game2, game.set2),
                 game.setHistory, game.winner);
    }
  }
}
