/** score.py, the tkinter touch scoreboard: two buttons count raw points,
    a game is decided on the counts with deuce and advantage, and games
    are totalled without sets. The first tap only starts the match. */
module TouchScore {
  import opened Scoring
  import opened Text

  /** The left (green) button's team and the right (red) button's team. */
  const Green: Side := Black
  const Red: Side := Yellow

  /** The scoring fields of a PadelTouchscreen7inch object; the start time
      is the `now` of the starting tap. */
  datatype Board = Board(
    matchStarted: bool,
    startTime: Option<int>,
    greenPoints: int, redPoints: int,
    greenGames: int, redGames: int)

  /** The fields as __init__ and reset_match leave them. */
  const Idle := Board(false, None, 0, 0, 0, 0)

  function PointsOf(b: Board, side: Side): int { if side == Green then b.greenPoints else b.redPoints }
  function GamesOf(b: Board, side: Side): int { if side == Green then b.greenGames else b.redGames }

  /** check_game_winner's decision on the two point counts. */
  function GameDecision(green: int, red: int): Option<Side>
  {
    if green >= 3 && red >= 3 then
      if green - red >= 2 || red - green >= 2 then
        if green > red then Some(Green) else Some(Red)
      else None
    else if green >= 4 && red < 3 then Some(Green)
    else if red >= 4 && green < 3 then Some(Red)
    else None
  }

  /** The decision is the usual game rule: a side wins at four points or
      more with a lead of two. */
  lemma GameDecisionRule(green: int, red: int)
    ensures GameDecision(green, red) == Some(Green) <==> green >= 4 && green - red >= 2
    ensures GameDecision(green, red) == Some(Red) <==> red >= 4 && red - green >= 2
  {
  }

  /** green_wins_game / red_wins_game: one game more for the winner, then
      reset_current_game. */
  function GameWon(b: Board, side: Side): (r: Board)
    ensures GamesOf(r, side) == GamesOf(b, side) + 1 && GamesOf(r, Other(side)) == GamesOf(b, Other(side))
    ensures r.greenPoints == 0 && r.redPoints == 0
    ensures r.matchStarted == b.matchStarted && r.startTime == b.startTime
  {
    var b1 := if side == Green then b.(greenGames := b.greenGames + 1) else b.(redGames := b.redGames + 1);
    b1.(greenPoints := 0, redPoints := 0)
  }

  /** check_game_winner on the board. */
  function GameChecked(b: Board): Board
  {
    match GameDecision(b.greenPoints, b.redPoints)
    case None => b
    case Some(side) => GameWon(b, side)
  }

  /** green_scores / red_scores at time `now`. */
  function Tapped(b: Board, side: Side, now: int): Board
  {
    if !b.matchStarted then b.(matchStarted := true, startTime := Some(now))
    else GameChecked(if side == Green then b.(greenPoints := b.greenPoints + 1) else b.(redPoints := b.redPoints + 1))
  }

  /** Before the match starts a tap only starts it; afterwards the tapped
      side's count goes up and, if that decides the game, the game goes to
      that side and both counts restart. */
  lemma TapFacts(b: Board, side: Side, now: int)
    ensures !b.matchStarted ==> Tapped(b, side, now) == b.(matchStarted := true, startTime := Some(now))
    ensures b.matchStarted && PointsOf(b, side) + 1 >= 4 && PointsOf(b, side) + 1 - PointsOf(b, Other(side)) >= 2 ==>
      Tapped(b, side, now) == GameWon(b, side)
    ensures b.matchStarted && GameDecision(b.greenPoints, b.redPoints).None? &&
            !(PointsOf(b, side) + 1 >= 4 && PointsOf(b, side) + 1 - PointsOf(b, Other(side)) >= 2) ==>
      && PointsOf(Tapped(b, side, now), side) == PointsOf(b, side) + 1
      && PointsOf(Tapped(b, side, now), Other(side)) == PointsOf(b, Other(side))
      && GamesOf(Tapped(b, side, now), Black) == GamesOf(b, Black)
      && GamesOf(Tapped(b, side, now), Yellow) == GamesOf(b, Yellow)
  {
    var bumped := if side == Green then b.(greenPoints := b.greenPoints + 1) else b.(redPoints := b.redPoints + 1);
    GameDecisionRule(bumped.greenPoints, bumped.redPoints);
    GameDecisionRule(b.greenPoints, b.redPoints);
  }

  /** points_to_display: the tennis name of 0..3, the decimal count otherwise. */
  function PointsToDisplay(points: int): (s: string)
    ensures 0 <= points <= 3 ==> s == ["0", "15", "30", "40"][points]
    ensures !(0 <= points <= 3) ==> s == IntToString(points)
  {
    if points == 0 then "0" else if points == 1 then "15" else if points == 2 then "30" else if points == 3 then "40"
    else IntToString(points)
  }

  /** The two texts update_display puts under the team names. */
  function Shown(b: Board): (string, string)
  {
    if b.greenPoints >= 3 && b.redPoints >= 3 then
      if b.greenPoints == b.redPoints then ("DEUCE", "DEUCE")
      else if b.greenPoints > b.redPoints then ("ADV", "40")
      else ("40", "ADV")
    else (PointsToDisplay(b.greenPoints), PointsToDisplay(b.redPoints))
  }

  /** reset_match. */
  function Reset(b: Board): (r: Board)
    ensures r == Idle
  {
    b.(greenPoints := 0, redPoints := 0, greenGames := 0, redGames := 0, matchStarted := false, startTime := None)
  }

  /** What holds between taps: no negative count, no game left undecided,
      and nothing counted before the first tap. */
  predicate Reachable(b: Board)
  {
    && b.greenPoints >= 0 && b.redPoints >= 0 && b.greenGames >= 0 && b.redGames >= 0
    && GameDecision(b.greenPoints, b.redPoints).None?
    && b.startTime.Some? == b.matchStarted
    && (!b.matchStarted ==> b.greenPoints == 0 && b.redPoints == 0 && b.greenGames == 0 && b.redGames == 0)
  }

  lemma IdleReachable()
    ensures Reachable(Idle)
  {
  }

  lemma TapReachable(b: Board, side: Side, now: int)
    requires Reachable(b)
    ensures Reachable(Tapped(b, side, now))
  {
    var bumped := if side == Green then b.(greenPoints := b.greenPoints + 1) else b.(redPoints := b.redPoints + 1);
    GameDecisionRule(bumped.greenPoints, bumped.redPoints);
  }

  /** Between taps, once both sides have three points they are at most one
      apart, and neither side holds more than three against fewer than three. */
  lemma ReachableCounts(b: Board)
    requires Reachable(b)
    ensures b.greenPoints >= 3 && b.redPoints >= 3 ==> -1 <= b.greenPoints - b.redPoints <= 1
    ensures b.greenPoints < 3 || b.redPoints < 3 ==> b.greenPoints <= 3 && b.redPoints <= 3
  {
    GameDecisionRule(b.greenPoints, b.redPoints);
  }

  /** At three all and beyond the display reads DEUCE on both sides when
      level and otherwise ADV for the leader and 40 for the other; below
      that each side's count is shown by points_to_display. Between taps
      only tennis texts appear. */
  lemma ShownFacts(b: Board)
    ensures b.greenPoints >= 3 && b.redPoints >= 3 ==>
      && (Shown(b) == ("DEUCE", "DEUCE")) == (b.greenPoints == b.redPoints)
      && (b.greenPoints > b.redPoints ==> Shown(b) == ("ADV", "40"))
      && (b.greenPoints < b.redPoints ==> Shown(b) == ("40", "ADV"))
    ensures !(b.greenPoints >= 3 && b.redPoints >= 3) ==>
      Shown(b) == (PointsToDisplay(b.greenPoints), PointsToDisplay(b.redPoints))
    ensures Reachable(b) ==>
      Shown(b).0 in {"0", "15", "30", "40", "DEUCE", "ADV"} && Shown(b).1 in {"0", "15", "30", "40", "DEUCE", "ADV"}
  {
    if Reachable(b) {
      ReachableCounts(b);
    }
  }

  /** What the screen reacts to. */
  datatype Event = Tap(side: Side, now: int) | ResetTap

  function Apply(b: Board, e: Event): Board
  {
    match e
    case Tap(side, now) => Tapped(b, side, now)
    case ResetTap => Reset(b)
  }

  function Play(b: Board, events: seq<Event>): Board
    decreases |events|
  {
    if |events| == 0 then b else Play(Apply(b, events[0]), events[1..])
  }

  /** Any run of taps and resets from start-up stays reachable. */
  lemma {:induction false} PlayReachable(b: Board, events: seq<Event>)
    requires Reachable(b)
    ensures Reachable(Play(b, events))
    decreases |events|
  {
    if |events| > 0 {
      match events[0] {
        case Tap(side, now) => TapReachable(b, side, now);
        case ResetTap =>
      }
      PlayReachable(Apply(b, events[0]), events[1..]);
    }
  }

  /** The scoring fields of the tkinter application object. */
  class PadelTouchscreen {
    var matchStarted: bool
    var startTime: Option<int>
    var greenGamePoints: int
    var redGamePoints: int
    var greenGames: int
    var redGames: int

    function State(): Board
      reads this
    {
      Board(matchStarted, startTime, greenGamePoints, redGamePoints, greenGames, redGames)
    }

    constructor ()
      ensures State() == Idle
    {
      matchStarted, startTime := false, None;
      greenGamePoints, redGamePoints := 0, 0;
      greenGames, redGames := 0, 0;
    }

    method StartMatch(now: int)
      modifies this
      ensures State() == old(State()).(matchStarted := true, startTime := Some(now))
    {
      matchStarted := true;
      startTime := Some(now);
    }

    method ResetCurrentGame()
      modifies this
      ensures State() == old(State()).(greenPoints := 0, redPoints := 0)
    {
      greenGamePoints := 0;
      redGamePoints := 0;
    }

    /** green_wins_game / red_wins_game. */
    method WinsGame(side: Side)
      modifies this
      ensures State() == GameWon(old(State()), side)
    {
      if side == Green {
        greenGames := greenGames + 1;
      } else {
        redGames := redGames + 1;
      }
      ResetCurrentGame();
    }

    method CheckGameWinner()
      modifies this
      ensures State() == GameChecked(old(State()))
    {
      var greenPoints, redPoints := greenGamePoints, redGamePoints;
      if greenPoints >= 3 && redPoints >= 3 {
        if greenPoints - redPoints >= 2 || redPoints - greenPoints >= 2 {
          if greenPoints > redPoints {
            WinsGame(Green);
          } else {
            WinsGame(Red);
          }
        }
      } else if greenPoints >= 4 && redPoints < 3 {
        WinsGame(Green);
      } else if redPoints >= 4 && greenPoints < 3 {
        WinsGame(Red);
      }
    }

    /** green_scores (side Green) and red_scores (side Red) at time `now`. */
    method Scores(side: Side, now: int)
      modifies this
      ensures State() == Tapped(old(State()), side, now)
    {
      if !matchStarted {
        StartMatch(now);
        return;
      }
      if side == Green {
        greenGamePoints := greenGamePoints + 1;
      } else {
        redGamePoints := redGamePoints + 1;
      }
      CheckGameWinner();
    }

    /** The button and games texts update_display writes; changes nothing. */
    method UpdateDisplay() returns (greenButton: string, redButton: string, greenLabel: string, redLabel: string)
      ensures greenButton == "GREEN TEAM\n\n" + Shown(State()).0 && redButton == "RED TEAM\n\n" + Shown(State()).1
      ensures greenLabel == IntToString(greenGames) && redLabel == IntToString(redGames)
    {
      var greenDisplay, redDisplay;
      if greenGamePoints >= 3 && redGamePoints >= 3 {
        if greenGamePoints == redGamePoints {
          greenDisplay, redDisplay := "DEUCE", "DEUCE";
        } else if greenGamePoints > redGamePoints {
          greenDisplay, redDisplay := "ADV", "40";
        } else {
          greenDisplay, redDisplay := "40", "ADV";
        }
      } else {
        greenDisplay, redDisplay := PointsToDisplay(greenGamePoints), PointsToDisplay(redGamePoints);
      }
      greenButton := "GREEN TEAM\n\n" + greenDisplay;
      redButton := "RED TEAM\n\n" + redDisplay;
      greenLabel, redLabel := IntToString(greenGames), IntToString(redGames);
    }

    method ResetMatch()
      modifies this
      ensures State() == Reset(old(State()))
    {
      greenGamePoints, redGamePoints := 0, 0;
      greenGames, redGames := 0, 0;
      matchStarted := false;
      startTime := None;
    }
  }
}
