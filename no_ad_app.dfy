/** app_tennis_no_ad.py: a Flask backend that keeps one game_state dict of
    six counters and scores games without advantage. A point at 40 wins
    the game whatever the opponent holds; there are no sets. */
module NoAdApp {
  import opened Scoring

  /** The six counters of game_state. */
  datatype Counters = Counters(score1: int, score2: int, point1: int, point2: int, game1: int, game2: int)

  /** The keys update_scores recognises. */
  datatype Field = Score1 | Score2 | Point1 | Point2 | Game1 | Game2

  function Get(c: Counters, f: Field): int
  {
    match f
    case Score1 => c.score1
    case Score2 => c.score2
    case Point1 => c.point1
    case Point2 => c.point2
    case Game1 => c.game1
    case Game2 => c.game2
  }

  function ScoreField(side: Side): Field { if side == Black then Score1 else Score2 }
  function PointField(side: Side): Field { if side == Black then Point1 else Point2 }
  function GameField(side: Side): Field { if side == Black then Game1 else Game2 }

  function Score(c: Counters, side: Side): int { Get(c, ScoreField(side)) }
  function Points(c: Counters, side: Side): int { Get(c, PointField(side)) }
  function Games(c: Counters, side: Side): int { Get(c, GameField(side)) }

  /** The dict as the module creates it at import time. */
  const Initial := Counters(15, 30, 5, 3, 1, 1)

  /** The dict reset_game installs. */
  const Zero := Counters(0, 0, 0, 0, 0, 0)

  /** The effect of add_point for `team` on the counters. */
  function AfterPoint(c: Counters, team: Side): (r: Counters)
    // below 40: one step up the ladder, the opponent's score and all games untouched
    ensures BelowForty(Score(c, team)) ==>
      && Score(r, team) == LadderNext(Score(c, team))
      && Score(r, Other(team)) == Score(c, Other(team))
      && Games(r, Black) == Games(c, Black) && Games(r, Yellow) == Games(c, Yellow)
      && Points(r, team) == Points(c, team) + 1
      && Points(r, Other(team)) == Points(c, Other(team))
    // at 40 the game is won outright, whatever the opponent's score
    ensures Score(c, team) == 40 ==>
      && Games(r, team) == Games(c, team) + 1
      && Games(r, Other(team)) == Games(c, Other(team))
      && Score(r, Black) == 0 && Score(r, Yellow) == 0
      && Points(r, team) == 1 && Points(r, Other(team)) == 0
    // a score off the ladder is left alone, only the point counter moves
    ensures !OnLadder(Score(c, team)) ==>
      forall f :: Get(r, f) == Get(c, f) + (if f == PointField(team) then 1 else 0)
  {
    match team
    case Black =>
      var c1 :=
        if c.score1 == 0 then c.(score1 := 15)
        else if c.score1 == 15 then c.(score1 := 30)
        else if c.score1 == 30 then c.(score1 := 40)
        else if c.score1 == 40 then c.(game1 := c.game1 + 1, score1 := 0, score2 := 0, point1 := 0, point2 := 0)
        else c;
      c1.(point1 := c1.point1 + 1)
    case Yellow =>
      var c1 :=
        if c.score2 == 0 then c.(score2 := 15)
        else if c.score2 == 15 then c.(score2 := 30)
        else if c.score2 == 30 then c.(score2 := 40)
        else if c.score2 == 40 then c.(game2 := c.game2 + 1, score1 := 0, score2 := 0, point1 := 0, point2 := 0)
        else c;
      c1.(point2 := c1.point2 + 1)
  }

  /** The supplied value for key f, or the current one. */
  function Pick(data: map<Field, int>, f: Field, current: int): int
  {
    if f in data then data[f] else current
  }

  /** The effect of update_scores: every supplied key overwritten, nothing else. */
  function AfterUpdate(c: Counters, data: map<Field, int>): (r: Counters)
    ensures forall f :: Get(r, f) == if f in data then data[f] else Get(c, f)
  {
    Counters(
      Pick(data, Score1, c.score1), Pick(data, Score2, c.score2),
      Pick(data, Point1, c.point1), Pick(data, Point2, c.point2),
      Pick(data, Game1, c.game1), Pick(data, Game2, c.game2))
  }

  /** What add_point keeps true: both scores on the ladder, no negative count. */
  predicate Consistent(c: Counters)
  {
    && OnLadder(c.score1) && OnLadder(c.score2)
    && c.point1 >= 0 && c.point2 >= 0 && c.game1 >= 0 && c.game2 >= 0
  }

  /** The counters after the points in order. */
  function Play(c: Counters, points: seq<Side>): Counters
    decreases |points|
  {
    if |points| == 0 then c else Play(AfterPoint(c, points[0]), points[1..])
  }

  lemma AfterPointConsistent(c: Counters, team: Side)
    requires Consistent(c)
    ensures Consistent(AfterPoint(c, team))
  {
  }

  /** Any run of points from a consistent state (the initial dict, or a
      reset) stays consistent: the scores never leave 0/15/30/40. */
  lemma {:induction false} PlayConsistent(c: Counters, points: seq<Side>)
    requires Consistent(c)
    ensures Consistent(Play(c, points))
    decreases |points|
  {
    if |points| > 0 {
      AfterPointConsistent(c, points[0]);
      PlayConsistent(AfterPoint(c, points[0]), points[1..]);
    }
  }

  /** From 40-40 the next point decides the game for whoever wins it. */
  lemma FortyAllDecides(c: Counters, team: Side)
    requires c.score1 == 40 && c.score2 == 40
    ensures Games(AfterPoint(c, team), team) == Games(c, team) + 1
    ensures Games(AfterPoint(c, team), Other(team)) == Games(c, Other(team))
  {
  }

  /** Four points in a row from 0 win the game, whatever the opponent did. */
  lemma {:induction false} FourPointsWinGame(c: Counters, team: Side)
    requires Score(c, team) == 0
    ensures Games(Play(c, [team, team, team, team]), team) == Games(c, team) + 1
    ensures Games(Play(c, [team, team, team, team]), Other(team)) == Games(c, Other(team))
  {
    var c1 := AfterPoint(c, team);
    var c2 := AfterPoint(c1, team);
    var c3 := AfterPoint(c2, team);
    var c4 := AfterPoint(c3, team);
    assert [team, team, team, team][1..] == [team, team, team];
    assert [team, team, team][1..] == [team, team];
    assert [team, team][1..] == [team];
    assert Play(c3, [team]) == c4 by { assert [team][1..] == []; }
    assert Play(c2, [team, team]) == Play(c3, [team]);
    assert Play(c1, [team, team, team]) == Play(c2, [team, team]);
    assert Play(c, [team, team, team, team]) == Play(c1, [team, team, team]);
  }

  /** game_state, held by the running server. */
  class NoAdServer {
    var score1: int
    var score2: int
    var point1: int
    var point2: int
    var game1: int
    var game2: int

    function State(): Counters
      reads this
    {
      Counters(score1, score2, point1, point2, game1, game2)
    }

    constructor ()
      ensures State() == Initial
    {
      score1, score2, point1, point2, game1, game2 := 15, 30, 5, 3, 1, 1;
    }

    /** POST /add_point: returns the team's new score and point counter. */
    method AddPoint(team: Side) returns (newScore: int, newPoints: int)
      modifies this
      ensures State() == AfterPoint(old(State()), team)
      ensures newScore == Score(State(), team) && newPoints == Points(State(), team)
    {
      if team == Black {
        var current := score1;
        if current == 0 {
          score1 := 15;
        } else if current == 15 {
          score1 := 30;
        } else if current == 30 {
          score1 := 40;
        } else if current == 40 {
          game1 := game1 + 1;
          score1 := 0;
          score2 := 0;
          point1 := 0;
          point2 := 0;
        }
        point1 := point1 + 1;
        newScore, newPoints := score1, point1;
      } else {
        var current := score2;
        if current == 0 {
          score2 := 15;
        } else if current == 15 {
          score2 := 30;
        } else if current == 30 {
          score2 := 40;
        } else if current == 40 {
          game2 := game2 + 1;
          score1 := 0;
          score2 := 0;
          point1 := 0;
          point2 := 0;
        }
        point2 := point2 + 1;
        newScore, newPoints := score2, point2;
      }
    }

    /** POST /reset_game. */
    method ResetGame()
      modifies this
      ensures State() == Zero
    {
      score1, score2, point1, point2, game1, game2 := 0, 0, 0, 0, 0, 0;
    }

    /** POST /update_scores with the keys the request carried. */
    method UpdateScores(data: map<Field, int>)
      modifies this
      ensures State() == AfterUpdate(old(State()), data)
    {
      if Score1 in data { score1 := data[Score1]; }
      if Score2 in data { score2 := data[Score2]; }
      if Point1 in data { point1 := data[Point1]; }
      if Point2 in data { point2 := data[Point2]; }
      if Game1 in data { game1 := data[Game1]; }
      if Game2 in data { game2 := data[Game2]; }
    }
  }
}
