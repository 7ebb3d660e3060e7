/** padel_pro.py, class Tennis: the pygame scoreboard's engine. Points are
    raw counts; at three all the game goes to deuce, where an advantage is
    taken, converted or cancelled. A set is won at six games with a lead of
    two or on reaching seven games (a cap in place of a tiebreak), and the
    match at two sets. */
module ProTennis {
  import opened Scoring

  /** The fields of a Tennis object. */
  datatype TennisState = TennisState(
    bp: int, yp: int,
    deuce: bool, adv: Option<Side>,
    bg: int, yg: int,
    bs: int, ys: int,
    winner: Option<Side>)

  /** What reset installs. */
  const Fresh := TennisState(0, 0, false, None, 0, 0, 0, 0, None)

  function PointsOf(t: TennisState, side: Side): int { if side == Black then t.bp else t.yp }
  function GamesOf(t: TennisState, side: Side): int { if side == Black then t.bg else t.yg }
  function SetsOf(t: TennisState, side: Side): int { if side == Black then t.bs else t.ys }

  /** The set rule of winset_if_needed for one side's games. */
  predicate TakesSet(mine: int, theirs: int)
  {
    (mine >= 6 && mine - theirs >= 2) || mine == 7
  }

  /** winset_if_needed: both sides are checked against the game counts read
      on entry, then the winner is named by the set counts, Yellow last. */
  function SetsChecked(t: TennisState): (r: TennisState)
    ensures r.bp == t.bp && r.yp == t.yp && r.deuce == t.deuce && r.adv == t.adv
    ensures r.bs == t.bs + (if TakesSet(t.bg, t.yg) then 1 else 0)
    ensures r.ys == t.ys + (if TakesSet(t.yg, t.bg) then 1 else 0)
    ensures TakesSet(t.bg, t.yg) || TakesSet(t.yg, t.bg) ==> r.bg == 0 && r.yg == 0
    ensures !TakesSet(t.bg, t.yg) && !TakesSet(t.yg, t.bg) ==> r.bg == t.bg && r.yg == t.yg
    ensures r.winner == if r.ys >= 2 then Some(Yellow) else if r.bs >= 2 then Some(Black) else t.winner
  {
    var b, y := t.bg, t.yg;
    var t1 := if (b >= 6 && b - y >= 2) || b == 7 then t.(bs := t.bs + 1, bg := 0, yg := 0) else t;
    var t2 := if (y >= 6 && y - b >= 2) || y == 7 then t1.(ys := t1.ys + 1, bg := 0, yg := 0) else t1;
    var t3 := if t2.bs >= 2 then t2.(winner := Some(Black)) else t2;
    if t3.ys >= 2 then t3.(winner := Some(Yellow)) else t3
  }

  /** wingame: the points, deuce and advantage cleared, one game to `side`,
      then the set check. */
  function GameWon(t: TennisState, side: Side): TennisState
  {
    var t1 := t.(bp := 0, yp := 0, deuce := false, adv := None);
    SetsChecked(if side == Black then t1.(bg := t1.bg + 1) else t1.(yg := t1.yg + 1))
  }

  /** add(side). */
  function Added(t: TennisState, side: Side): TennisState
  {
    if t.winner.Some? then t
    else if t.deuce then
      if t.adv.None? then t.(adv := Some(side))
      else if t.adv == Some(side) then GameWon(t, side)
      else t.(adv := None)
    else
      var t1 := if side == Black then t.(bp := t.bp + 1) else t.(yp := t.yp + 1);
      if t1.bp >= 3 && t1.yp >= 3 && t1.bp - t1.yp == 0 then t1.(deuce := true, adv := None)
      else
        var t2 := if t1.bp >= 4 && t1.bp - t1.yp >= 2 then GameWon(t1, Black) else t1;
        if t2.yp >= 4 && t2.yp - t2.bp >= 2 then GameWon(t2, Yellow) else t2
  }

  /** A decided match ignores further points. */
  lemma AddAfterWinner(t: TennisState, side: Side)
    requires t.winner.Some?
    ensures Added(t, side) == t
  {
  }

  /** In deuce the point counts stand still: the first point gives the
      advantage, the holder's next point wins the game and the other
      side's point cancels the advantage. */
  lemma DeuceFacts(t: TennisState, side: Side)
    requires t.winner.None? && t.deuce
    ensures t.adv.None? ==> Added(t, side) == t.(adv := Some(side))
    ensures t.adv == Some(side) ==> Added(t, side) == GameWon(t, side)
    ensures t.adv == Some(Other(side)) ==> Added(t, side) == t.(adv := None)
    ensures !Added(t, side).deuce ==> Added(t, side) == GameWon(t, side)
    ensures Added(t, side).deuce ==> Added(t, side).bp == t.bp && Added(t, side).yp == t.yp
  {
  }

  /** Outside deuce the scorer's count goes up; deuce starts exactly when
      both counts are then at least three and equal, and otherwise a side
      at four or more with a lead of two wins the game. */
  lemma OpenPointFacts(t: TennisState, side: Side)
    requires t.winner.None? && !t.deuce
    ensures var p, q := PointsOf(t, side) + 1, PointsOf(t, Other(side));
      && Added(t, side).deuce == (p >= 3 && q >= 3 && p == q)
      && (p >= 3 && q >= 3 && p == q ==> Added(t, side).adv.None? && PointsOf(Added(t, side), side) == p)
      && (!(p >= 3 && q >= 3 && p == q) && p >= 4 && p - q >= 2 ==>
            Added(t, side) == GameWon(if side == Black then t.(bp := p) else t.(yp := p), side))
      && (!(p >= 3 && q >= 3 && p == q) && !(p >= 4 && p - q >= 2) && !(q >= 4 && q - p >= 2) ==>
            Added(t, side) == if side == Black then t.(bp := p) else t.(yp := p))
  {
    SetsCheckedKeepsDeuce(t.(bp := 0, yp := 0, deuce := false, adv := None, bg := t.bg + 1));
    SetsCheckedKeepsDeuce(t.(bp := 0, yp := 0, deuce := false, adv := None, yg := t.yg + 1));
  }

  lemma SetsCheckedKeepsDeuce(t: TennisState)
    ensures SetsChecked(t).deuce == t.deuce && SetsChecked(t).adv == t.adv
  {
  }

  /** The states add keeps between points: counts of at most three and
      never three all outside deuce, deuce only at three all, no game count
      past six nor a set left undecided, at most two sets a side, and the
      winner named exactly when a side holds two. */
  predicate Reachable(t: TennisState)
  {
    && 0 <= t.bp <= 3 && 0 <= t.yp <= 3
    && (t.deuce ==> t.bp == 3 && t.yp == 3)
    && (!t.deuce ==> !(t.bp == 3 && t.yp == 3) && t.adv.None?)
    && 0 <= t.bg <= 6 && 0 <= t.yg <= 6
    && !TakesSet(t.bg, t.yg) && !TakesSet(t.yg, t.bg)
    && 0 <= t.bs <= 2 && 0 <= t.ys <= 2 && !(t.bs == 2 && t.ys == 2)
    && t.winner == (if t.bs == 2 then Some(Black) else if t.ys == 2 then Some(Yellow) else None)
  }

  lemma FreshReachable()
    ensures Reachable(Fresh)
  {
  }

  /** From a reachable state wingame leaves the points cleared and either
      adds one game to the winner or, when that game makes the set, awards
      exactly one set to the winner and restarts both game counts. */
  lemma GameWonFacts(t: TennisState, side: Side)
    requires Reachable(t) && t.winner.None?
    ensures var r := GameWon(t, side);
      && r.bp == 0 && r.yp == 0 && !r.deuce && r.adv.None?
      && SetsOf(r, Other(side)) == SetsOf(t, Other(side))
      && (TakesSet(GamesOf(t, side) + 1, GamesOf(t, Other(side))) ==>
            SetsOf(r, side) == SetsOf(t, side) + 1 && r.bg == 0 && r.yg == 0)
      && (!TakesSet(GamesOf(t, side) + 1, GamesOf(t, Other(side))) ==>
            SetsOf(r, side) == SetsOf(t, side)
            && GamesOf(r, side) == GamesOf(t, side) + 1 && GamesOf(r, Other(side)) == GamesOf(t, Other(side)))
      && Reachable(r)
  {
  }

  /** add keeps the invariant and awards at most one set per point. */
  lemma AddReachable(t: TennisState, side: Side)
    requires Reachable(t)
    ensures Reachable(Added(t, side))
    ensures Added(t, side).bs + Added(t, side).ys <= t.bs + t.ys + 1
  {
    if t.winner.None? {
      if t.deuce {
        DeuceFacts(t, side);
        if t.adv == Some(side) {
          GameWonFacts(t, side);
        }
      } else {
        OpenPointFacts(t, side);
        var p := PointsOf(t, side) + 1;
        var t1 := if side == Black then t.(bp := p) else t.(yp := p);
        if p >= 4 {
          assert t1.winner.None? && t1.bg == t.bg && t1.yg == t.yg && t1.bs == t.bs && t1.ys == t.ys;
          GameWonFacts(t.(bp := 0, yp := 0), side);
          assert GameWon(t1, side) == GameWon(t.(bp := 0, yp := 0), side);
        }
      }
    }
  }

  function Play(t: TennisState, points: seq<Side>): TennisState
    decreases |points|
  {
    if |points| == 0 then t else Play(Added(t, points[0]), points[1..])
  }

  /** Any run of points from reset stays reachable: the counts shown are
      always among 0, 15, 30, 40, AD. */
  lemma {:induction false} PlayReachable(t: TennisState, points: seq<Side>)
    requires Reachable(t)
    ensures Reachable(Play(t, points))
    decreases |points|
  {
    if |points| > 0 {
      AddReachable(t, points[0]);
      PlayReachable(Added(t, points[0]), points[1..]);
    }
  }

  /** Tennis.MAP.get(points, "40"). */
  function PointText(points: int): string
  {
    if points == 0 then "0" else if points == 1 then "15" else if points == 2 then "30" else "40"
  }

  /** disp(side). */
  function Disp(t: TennisState, side: Side): string
  {
    if t.deuce then (if t.adv == Some(side) then "AD" else "40")
    else PointText(PointsOf(t, side))
  }

  /** In deuce only the advantage holder shows "AD", everyone else "40";
      outside deuce the count is shown on the tennis ladder, and a count of
      three or more shows "40". */
  lemma DispFacts(t: TennisState, side: Side)
    ensures t.deuce ==> (Disp(t, side) == "AD") == (t.adv == Some(side))
    ensures t.deuce && t.adv != Some(side) ==> Disp(t, side) == "40"
    ensures !t.deuce && 0 <= PointsOf(t, side) <= 3 ==>
      Disp(t, side) == ["0", "15", "30", "40"][PointsOf(t, side)]
    ensures !t.deuce && !(0 <= PointsOf(t, side) <= 2) ==> Disp(t, side) == "40"
  {
  }

  /** In a reachable state the two displays are never both "AD". */
  lemma DispOneAdvantage(t: TennisState)
    requires Reachable(t)
    ensures !(Disp(t, Black) == "AD" && Disp(t, Yellow) == "AD")
  {
    DispFacts(t, Black);
    DispFacts(t, Yellow);
  }

  /** A Tennis object and its fields. */
  class Tennis {
    var bp: int
    var yp: int
    var deuce: bool
    var adv: Option<Side>
    var bg: int
    var yg: int
    var bs: int
    var ys: int
    var winner: Option<Side>

    function State(): TennisState
      reads this
    {
      TennisState(bp, yp, deuce, adv, bg, yg, bs, ys, winner)
    }

    constructor ()
      ensures State() == Fresh
    {
      bp, yp := 0, 0;
      deuce, adv := false, None;
      bg, yg := 0, 0;
      bs, ys := 0, 0;
      winner := None;
    }

    method Reset()
      modifies this
      ensures State() == Fresh
    {
      bp, yp := 0, 0;
      deuce, adv := false, None;
      bg, yg := 0, 0;
      bs, ys := 0, 0;
      winner := None;
    }

    method WinSetIfNeeded()
      modifies this
      ensures State() == SetsChecked(old(State()))
    {
      var b, y := bg, yg;
      if (b >= 6 && b - y >= 2) || b == 7 {
        bs := bs + 1;
        bg, yg := 0, 0;
      }
      if (y >= 6 && y - b >= 2) || y == 7 {
        ys := ys + 1;
        bg, yg := 0, 0;
      }
      if bs >= 2 {
        winner := Some(Black);
      }
      if ys >= 2 {
        winner := Some(Yellow);
      }
    }

    method WinGame(side: Side)
      modifies this
      ensures State() == GameWon(old(State()), side)
    {
      bp, yp := 0, 0;
      deuce, adv := false, None;
      if side == Black {
        bg := bg + 1;
      } else {
        yg := yg + 1;
      }
      WinSetIfNeeded();
    }

    method Add(side: Side)
      modifies this
      ensures State() == Added(old(State()), side)
    {
      if winner.Some? {
        return;
      }
      if deuce {
        if adv.None? {
          adv := Some(side);
          return;
        }
        if adv == Some(side) {
          WinGame(side);
        } else {
          adv := None;
        }
        return;
      }
      if side == Black {
        bp := bp + 1;
      } else {
        yp := yp + 1;
      }
      if bp >= 3 && yp >= 3 && bp - yp == 0 {
        deuce, adv := true, None;
        return;
      }
      if bp >= 4 && bp - yp >= 2 {
        WinGame(Black);
      }
      if yp >= 4 && yp - bp >= 2 {
        WinGame(Yellow);
      }
    }

  }
}
