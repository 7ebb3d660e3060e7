/** Vocabulary shared by every scoreboard variant: the two sides, an
    optional value, the no-advantage point ladder 0 -> 15 -> 30 -> 40 and
    the "six games with a two-game lead" set rule. */
module Scoring {

  /** The two teams. Black is the left team (score_1, game_1, set_1 in the
      Flask backends, bp/bg/bs in the pygame board); Yellow is the right
      team (score_2, ...). The tkinter board's green team is Black and its
      red team is Yellow. */
  datatype Side = Black | Yellow

  datatype Option<T> = None | Some(value: T)

  function Other(side: Side): (o: Side)
    ensures o != side
  {
    if side == Black then Yellow else Black
  }

  /** The lower-case team key used in requests and history entries. */
  function TeamKey(side: Side): string
  {
    if side == Black then "black" else "yellow"
  }

  /** The display name stored in winner records. */
  function TeamName(side: Side): string
  {
    if side == Black then "BLACK TEAM" else "YELLOW TEAM"
  }

  /** A tennis score from which a point does not win the game. */
  predicate BelowForty(score: int)
  {
    score == 0 || score == 15 || score == 30
  }

  /** The four values a tennis score field normally holds. */
  predicate OnLadder(score: int)
  {
    BelowForty(score) || score == 40
  }

  /** Position of a score on the ladder: 0, 15, 30, 40 are steps 0..3. */
  function LadderStep(score: int): (k: nat)
    requires OnLadder(score)
    ensures k <= 3
    ensures (k == 3) == (score == 40)
  {
    if score == 0 then 0 else if score == 15 then 1 else if score == 30 then 2 else 3
  }

  /** The score after one more point below 40: one step up the ladder. */
  function LadderNext(score: int): (r: int)
    requires BelowForty(score)
    ensures OnLadder(r) && LadderStep(r) == LadderStep(score) + 1
  {
    if score == 0 then 15 else if score == 15 then 30 else 40
  }

  /** A side holding `mine` games against `theirs` has won the set:
      at least six games and a lead of at least two. */
  predicate WinsSet(mine: int, theirs: int)
  {
    mine >= 6 && mine - theirs >= 2
  }
}
