/** The read-only half of padel_backend.py: the match_history entries, the
    statistics calculate_match_statistics derives from them, the duration
    and summary texts, and the match_storage record behind the winner
    screen (store, mark displayed, wipe). */
module MatchReport {
  import opened Scoring
  import opened Text

  /** The 'action' of a history entry. */
  datatype Action = Point | Game | SetWon | MatchWon

  /** One match_history entry; the three pairs are (black, yellow). */
  datatype HistoryEntry = HistoryEntry(
    timestamp: int,
    action: Action,
    team: Side,
    scoresBefore: (int, int), scoresAfter: (int, int),
    gamesBefore: (int, int), gamesAfter: (int, int),
    setsBefore: (int, int), setsAfter: (int, int))

  /** len([h for h in history if h['action'] == action and h['team'] == team]) */
  function CountEntries(history: seq<HistoryEntry>, action: Action, team: Side): nat
    decreases |history|
  {
    if |history| == 0 then 0
    else
      var last := history[|history| - 1];
      CountEntries(history[..|history| - 1], action, team) + (if last.action == action && last.team == team then 1 else 0)
  }

  lemma CountEntriesAppend(history: seq<HistoryEntry>, e: HistoryEntry, action: Action, team: Side)
    ensures CountEntries(history + [e], action, team)
         == CountEntries(history, action, team) + (if e.action == action && e.team == team then 1 else 0)
  {
    assert (history + [e])[..|history|] == history;
  }

  /** Every set_history entry splits on '-' into two digit runs, so the
      int() calls of calculate_match_statistics succeed. */
  predicate SetScoresReadable(setHistory: seq<string>)
    decreases |setHistory|
  {
    |setHistory| == 0
    || (SetScoresReadable(setHistory[..|setHistory| - 1]) && ParsePair(setHistory[|setHistory| - 1]).Some?)
  }

  /** One row of sets_breakdown. */
  datatype SetBreakdown = SetBreakdown(setNumber: nat, blackGames: nat, yellowGames: nat, setWinner: Side)

  /** The winner of a closed set as the breakdown decides it: Black iff its
      first number is larger. */
  function BreakdownWinner(blackGames: nat, yellowGames: nat): (w: Side)
    ensures (w == Black) == (blackGames > yellowGames)
  {
    if blackGames > yellowGames then Black else Yellow
  }

  /** The loop of calculate_match_statistics: one row per closed set,
      numbered from 1, with the two game counts read from its text. */
  function Breakdown(setHistory: seq<string>): (rows: seq<SetBreakdown>)
    requires SetScoresReadable(setHistory)
    ensures |rows| == |setHistory|
    ensures forall i :: 0 <= i < |rows| ==>
      && rows[i].setNumber == i + 1
      && ParsePair(setHistory[i]) == Some((rows[i].blackGames, rows[i].yellowGames))
      && (rows[i].setWinner == Black) == (rows[i].blackGames > rows[i].yellowGames)
    decreases |setHistory|
  {
    if |setHistory| == 0 then []
    else
      var n := |setHistory|;
      var p := ParsePair(setHistory[n - 1]).value;
      Breakdown(setHistory[..n - 1]) + [SetBreakdown(n, p.0, p.1, BreakdownWinner(p.0, p.1))]
  }

  /** calculate_match_statistics' result. Pairs are (black, yellow). */
  datatype Statistics = Statistics(totalPoints: (nat, nat), totalGames: (nat, nat), setsBreakdown: seq<SetBreakdown>)

  function CalculateMatchStatistics(history: seq<HistoryEntry>, setHistory: seq<string>): (st: Statistics)
    requires SetScoresReadable(setHistory)
    ensures st.totalPoints == (CountEntries(history, Point, Black), CountEntries(history, Point, Yellow))
    ensures st.totalGames == (CountEntries(history, Game, Black), CountEntries(history, Game, Yellow))
    ensures |st.setsBreakdown| == |setHistory|
  {
    Statistics(
      (CountEntries(history, Point, Black), CountEntries(history, Point, Yellow)),
      (CountEntries(history, Game, Black), CountEntries(history, Game, Yellow)),
      Breakdown(setHistory))
  }

  /** The sets_display list store_match_data builds from the breakdown. */
  function SetsDisplay(rows: seq<SetBreakdown>): (texts: seq<string>)
    ensures |texts| == |rows|
    ensures forall i :: 0 <= i < |rows| ==> texts[i] == PairText(rows[i].blackGames, rows[i].yellowGames)
    decreases |rows|
  {
    if |rows| == 0 then []
    else SetsDisplay(rows[..|rows| - 1]) + [PairText(rows[|rows| - 1].blackGames, rows[|rows| - 1].yellowGames)]
  }

  /** set_history as check_set_winner writes it: f"{g1}-{g2}" for each
      closed set, from the (black, yellow) game counts of that set. */
  function SetTexts(sets: seq<(int, int)>): (texts: seq<string>)
    ensures |texts| == |sets|
    ensures forall i :: 0 <= i < |sets| ==> texts[i] == PairText(sets[i].0, sets[i].1)
  {
    seq(|sets|, i requires 0 <= i < |sets| => PairText(sets[i].0, sets[i].1))
  }

  /** No negative game count (a negative one would be written with a sign). */
  predicate NonNegative(sets: seq<(int, int)>)
  {
    forall i :: 0 <= i < |sets| ==> sets[i].0 >= 0 && sets[i].1 >= 0
  }

  /** The games `side` won over the closed sets. */
  function GamesIn(sets: seq<(int, int)>, side: Side): int
    decreases |sets|
  {
    if |sets| == 0 then 0
    else
      var last := sets[|sets| - 1];
      GamesIn(sets[..|sets| - 1], side) + (if side == Black then last.0 else last.1)
  }

  /** How many closed sets the breakdown's winner rule credits to `side`. */
  function SetsTo(sets: seq<(int, int)>, side: Side): nat
    decreases |sets|
  {
    if |sets| == 0 then 0
    else
      var last := sets[|sets| - 1];
      SetsTo(sets[..|sets| - 1], side) + (if (last.0 > last.1) == (side == Black) then 1 else 0)
  }

  /** sum(int(s.split('-')[k]) for s in set_history): the games `side`
      won over the closed sets, read back from their texts. */
  function SumColumn(setHistory: seq<string>, side: Side): nat
    requires SetScoresReadable(setHistory)
    decreases |setHistory|
  {
    if |setHistory| == 0 then 0
    else
      var p := ParsePair(setHistory[|setHistory| - 1]).value;
      SumColumn(setHistory[..|setHistory| - 1], side) + (if side == Black then p.0 else p.1)
  }

  /** Every text reads back, with int(), as the game counts of the same
      position. */
  predicate Encodes(setHistory: seq<string>, sets: seq<(int, int)>)
  {
    && |setHistory| == |sets|
    && forall i :: 0 <= i < |sets| ==>
         ParsePair(setHistory[i]).Some? && ParsePair(setHistory[i]).value.0 == sets[i].0
         && ParsePair(setHistory[i]).value.1 == sets[i].1
  }

  /** The texts check_set_winner writes read back as the counts they were
      written from. */
  lemma SetTextsEncode(sets: seq<(int, int)>)
    requires NonNegative(sets)
    ensures Encodes(SetTexts(sets), sets)
  {
    forall i | 0 <= i < |sets|
      ensures ParsePair(SetTexts(sets)[i]) == Some((sets[i].0 as nat, sets[i].1 as nat))
    {
      PairTextRoundTrip(sets[i].0, sets[i].1);
    }
  }

  lemma TextsReadable(sets: seq<(int, int)>)
    requires NonNegative(sets)
    ensures SetScoresReadable(SetTexts(sets))
  {
    SetTextsEncode(sets);
    EncodesReadable(SetTexts(sets), sets);
  }

  /** The games of one side read back from the texts are the games counted. */
  lemma GamesReadBack(sets: seq<(int, int)>, side: Side)
    requires NonNegative(sets)
    ensures SetScoresReadable(SetTexts(sets))
    ensures SumColumn(SetTexts(sets), side) == GamesIn(sets, side)
  {
    SetTextsEncode(sets);
    EncodesSum(SetTexts(sets), sets, side);
  }

  lemma {:induction false} EncodesReadable(setHistory: seq<string>, sets: seq<(int, int)>)
    requires Encodes(setHistory, sets)
    ensures SetScoresReadable(setHistory)
    decreases |sets|
  {
    if |sets| > 0 {
      var n := |sets|;
      EncodesReadable(setHistory[..n - 1], sets[..n - 1]);
    }
  }

  /** The totals check_match_winner reads back are the games counted. */
  lemma {:induction false} EncodesSum(setHistory: seq<string>, sets: seq<(int, int)>, side: Side)
    requires Encodes(setHistory, sets)
    ensures SetScoresReadable(setHistory)
    ensures SumColumn(setHistory, side) == GamesIn(sets, side)
    decreases |sets|
  {
    EncodesReadable(setHistory, sets);
    if |sets| > 0 {
      var n := |sets|;
      EncodesSum(setHistory[..n - 1], sets[..n - 1], side);
    }
  }

  /** Rows holding the given game counts render as those counts' texts. */
  lemma {:induction false} DisplayOfCounts(rows: seq<SetBreakdown>, sets: seq<(int, int)>)
    requires |rows| == |sets|
    requires forall i :: 0 <= i < |sets| ==> rows[i].blackGames == sets[i].0 && rows[i].yellowGames == sets[i].1
    ensures SetsDisplay(rows) == SetTexts(sets)
  {
    var d, t := SetsDisplay(rows), SetTexts(sets);
    assert forall i :: 0 <= i < |d| ==> d[i] == t[i];
  }

  /** Parsing set texts that encode the counts into the breakdown and
      rendering it again gives the texts of those counts, so for the texts
      check_set_winner writes, detailed_sets equals set_history; each row
      holds its set's game counts. */
  lemma BreakdownRendersHistory(setHistory: seq<string>, sets: seq<(int, int)>)
    requires Encodes(setHistory, sets)
    ensures SetScoresReadable(setHistory)
    ensures forall i :: 0 <= i < |sets| ==>
      Breakdown(setHistory)[i].blackGames == sets[i].0 && Breakdown(setHistory)[i].yellowGames == sets[i].1
    ensures SetsDisplay(Breakdown(setHistory)) == SetTexts(sets)
  {
    EncodesReadable(setHistory, sets);
    DisplayOfCounts(Breakdown(setHistory), sets);
  }

  /** Appending a set's game counts adds them to the totals and credits
      the set to the side with more games. */
  lemma AppendSet(sets: seq<(int, int)>, a: int, b: int)
    ensures forall side :: GamesIn(sets + [(a, b)], side) == GamesIn(sets, side) + (if side == Black then a else b)
    ensures forall side :: SetsTo(sets + [(a, b)], side) == SetsTo(sets, side) + (if (a > b) == (side == Black) then 1 else 0)
  {
    assert (sets + [(a, b)])[..|sets|] == sets;
  }

  /** The duration text of store_match_data for a duration of `seconds`:
      "Mm Ss" once there is a whole minute, otherwise "Ss". Python's // and %
      floor, which is what Dafny's / and % do for the positive divisor 60. */
  function DurationText(seconds: int): (t: string)
    ensures seconds / 60 > 0 ==> t == IntToString(seconds / 60) + "m " + IntToString(seconds % 60) + "s"
    ensures seconds / 60 <= 0 ==> t == IntToString(seconds) + "s"
  {
    var minutes := seconds / 60;
    if minutes > 0 then IntToString(minutes) + "m " + IntToString(seconds % 60) + "s"
    else IntToString(seconds) + "s"
  }

  /** A digit run followed by the unit letter, e.g. "12m" or "5s". */
  function ParseUnit(p: string, unit: char): Option<nat>
  {
    if |p| >= 2 && p[|p| - 1] == unit && IsDigits(p[..|p| - 1])
    then Some(DigitsValue(p[..|p| - 1]))
    else None
  }

  /** Reads a duration text back into seconds. */
  function ParseDurationText(t: string): Option<nat>
  {
    var parts := SplitOn(t, ' ');
    if |parts| == 1 then ParseUnit(parts[0], 's')
    else if |parts| == 2 then
      match (ParseUnit(parts[0], 'm'), ParseUnit(parts[1], 's'))
      case (Some(m), Some(s)) => if s < 60 then Some(m * 60 + s) else None
      case _ => None
    else None
  }

  lemma ParseUnitOf(n: nat, unit: char)
    requires !IsDigit(unit)
    ensures ParseUnit(NatToString(n) + [unit], unit) == Some(n)
  {
    var p := NatToString(n) + [unit];
    assert p[..|p| - 1] == NatToString(n);
    NatToStringRoundTrip(n);
  }

  /** For any non-negative duration the text determines the duration: the
      minutes and seconds it shows add up to the whole. */
  lemma DurationTextRoundTrip(seconds: nat)
    ensures ParseDurationText(DurationText(seconds)) == Some(seconds)
  {
    var t := DurationText(seconds);
    if seconds / 60 > 0 {
      var m, s := seconds / 60, seconds % 60;
      var head, tail := NatToString(m) + ['m'], NatToString(s) + ['s'];
      assert t == head + [' '] + tail;
      DigitsFree(m, ' ');
      DigitsFree(s, ' ');
      assert ' ' !in head;
      assert ' ' !in tail;
      SplitOnPrefix(head, ' ', tail);
      SplitOnFree(tail, ' ');
      ParseUnitOf(m, 'm');
      ParseUnitOf(s, 's');
    } else {
      assert t == NatToString(seconds) + ['s'];
      DigitsFree(seconds, ' ');
      assert ' ' !in t;
      SplitOnFree(t, ' ');
      ParseUnitOf(seconds, 's');
    }
  }

  /** create_match_summary. */
  function CreateMatchSummary(stats: Statistics, setsDisplay: seq<string>): (t: string)
    ensures "Sets: " <= t
  {
    "Sets: " + Join(setsDisplay, ", ")
    + " | Points: " + PairText(stats.totalPoints.0, stats.totalPoints.1)
    + " | Games: " + PairText(stats.totalGames.0, stats.totalGames.1)
  }

  /** The summary lists the set texts, then the point and the game totals,
      each written so that it reads back as the pair it was made from. */
  lemma SummaryReadsBack(stats: Statistics, setsDisplay: seq<string>)
    ensures exists p, q ::
      && CreateMatchSummary(stats, setsDisplay) == "Sets: " + Join(setsDisplay, ", ") + " | Points: " + p + " | Games: " + q
      && ParsePair(p) == Some(stats.totalPoints)
      && ParsePair(q) == Some(stats.totalGames)
  {
    var p := PairText(stats.totalPoints.0, stats.totalPoints.1);
    var q := PairText(stats.totalGames.0, stats.totalGames.1);
    PairTextRoundTrip(stats.totalPoints.0, stats.totalPoints.1);
    PairTextRoundTrip(stats.totalGames.0, stats.totalGames.1);
    assert CreateMatchSummary(stats, setsDisplay) == "Sets: " + Join(setsDisplay, ", ") + " | Points: " + p + " | Games: " + q;
  }

  /** int(seconds / 60) of calculate_match_duration: the quotient truncated
      toward zero, unlike //. */
  function TruncatedMinutes(seconds: int): (m: int)
    ensures seconds >= 0 ==> m * 60 <= seconds < m * 60 + 60
    ensures seconds < 0 ==> m * 60 - 60 < seconds <= m * 60
  {
    if seconds >= 0 then seconds / 60 else -((-seconds) / 60)
  }

  /** calculate_match_duration: "N minutes" once the end time is known. */
  function MatchDurationText(start: int, end: Option<int>): string
  {
    if end.Some? then IntToString(TruncatedMinutes(end.value - start)) + " minutes" else "In progress"
  }

  /** match_storage['match_data'] as store_match_data fills it. */
  datatype Report = Report(
    winnerTeam: Side,
    winnerName: string,
    finalSetsScore: string,
    detailedSets: seq<string>,
    matchDuration: string,
    totalPointsWon: (nat, nat),
    totalGamesWon: (nat, nat),
    setsBreakdown: seq<SetBreakdown>,
    matchSummary: string,
    timestamp: Option<int>)

  /** match_storage. The placeholder match_data of an empty storage is None. */
  datatype Storage = Storage(matchCompleted: bool, matchData: Option<Report>, displayShown: bool)

  /** What wipe_match_storage installs. */
  const Wiped := Storage(false, None, false)

  /** A stored report exists exactly when the storage says it is completed. */
  predicate StorageOk(st: Storage)
  {
    st.matchCompleted == st.matchData.Some?
  }

  /** mark_match_displayed: fails without a stored report; otherwise marks
      it displayed and, when asked to (the default), wipes the storage. */
  function MarkMatchDisplayed(st: Storage, wipeImmediately: bool): (r: (Storage, bool))
    ensures r.1 == st.matchCompleted
    ensures !st.matchCompleted ==> r.0 == st
    ensures st.matchCompleted && wipeImmediately ==> r.0 == Wiped && !r.0.matchCompleted
    ensures st.matchCompleted && !wipeImmediately ==> r.0.displayShown && r.0.matchData == st.matchData && r.0.matchCompleted
  {
    if !st.matchCompleted then (st, false)
    else
      var shown := st.(displayShown := true);
      if wipeImmediately then (Wiped, true) else (shown, true)
  }

  /** get_match_data: "No completed match data available" unless completed. */
  function GetMatchData(st: Storage): (r: Option<(Report, bool)>)
    requires StorageOk(st)
    ensures r.None? == !st.matchCompleted
    ensures r.Some? ==> Some(r.value.0) == st.matchData && r.value.1 == st.displayShown
  {
    if !st.matchCompleted then None else Some((st.matchData.value, st.displayShown))
  }

  /** After displaying with the default wipe, nothing can be fetched or marked again. */
  lemma DisplayOnce(st: Storage)
    requires StorageOk(st) && st.matchCompleted
    ensures GetMatchData(MarkMatchDisplayed(st, true).0).None?
    ensures !MarkMatchDisplayed(MarkMatchDisplayed(st, true).0, true).1
  {
  }
}
