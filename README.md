# padelscore in Dafny

padelscore is a set of padel scoreboards. Each turns "point won by side X"
taps or requests into a tennis point score, games, sets and a match
winner. The repository implements this state machine several times, and
the variants' rules differ. This project models each variant as its own
module over a shared vocabulary and proves what each variant promises.

- `scoring.dfy` (`Scoring`) holds the shared vocabulary:
  - the two sides (black/yellow; the tkinter board's green/red are the same two);
  - the no-advantage ladder 0 → 15 → 30 → 40;
  - the rule that six games with a two-game lead win a set.
- `text.dfy` (`Text`) holds the decimal and string helpers behind the
  f-strings, `str()`, `int()` and `split('-')` the Python code uses. It
  proves that decimal text reads back as the number that was written.
- `no_ad_app.dfy` (`NoAdApp`) models `app_tennis_no_ad.py`: six counters,
  no sets, and a point at 40 always winning the game.
- `team_sets.dfy` (`TeamSets`) models `padel_backend_team_sets.py`:
  - no-advantage games, a set at six games with a two-game lead, the
    match at two sets, and points refused after that;
  - manual overrides of any counter, followed by a new match check;
  - the `/stats` view.
- `match_report.dfy` (`MatchReport`) and `backend.dfy` (`Backend`) model
  `padel_backend.py`, which adds:
  - the append-only `match_history` log;
  - the statistics derived from that log;
  - the duration and summary texts;
  - the one-shot `match_storage` report the winner screen fetches, marks
    as displayed and wipes.
- `client_scoring.dfy` (`ClientScoring`) models the local fallback of
  `padel_js.js`: the tennis score wraps at 40, there is a set history, and
  one level of undo.
- `pro_tennis.dfy` (`ProTennis`) models class `Tennis` of `padel_pro.py`.
  That engine has deuce and advantage, sets won at six games with a lead
  of two or at exactly seven games, and the `disp` text.
- `touch_score.dfy` (`TouchScore`) models `score.py`. It decides games on
  raw point counts (at least four points and a lead of two) and shows
  DEUCE/ADV. Its first tap only starts the match.

Each imperative source file keeps its own form:
- A class holds the fields the source mutates.
- Every method is proved against a pure step function
  (`ensures State() == Step(old(State()), …)`).
- The step functions carry the promised properties as `ensures` clauses and
  lemmas.
- Each variant has a reachability invariant, proved to hold over any
  sequence of events (`Play…` lemmas).

Times are integers given as parameters: seconds for the Python
backends, milliseconds for the JavaScript client.

## Model

| member | source | states |
|---|---|---|
| Scoring.LadderStep | padel_backend.py:324-340 | 0/15/30/40 are the ladder's steps 0..3 and 40 is the last |
| Scoring.LadderNext | padel_backend.py:324-332 | a point below 40 moves the score exactly one step up the ladder and stays on it |
| Text.NatToString | padel_backend.py:175 | the decimal text of a count consists of digits only |
| Text.NatToStringRoundTrip | padel_backend.py:85-90 | `int()` applied to `str(n)` gives back n |
| Text.IntToString | padel_backend_team_sets.py:65 | the f-string text of an integer: decimal digits, with a leading '-' for negatives |
| Text.SplitOn | padel_backend.py:85 | `split` yields one more part than there are separators |
| Text.SplitOnPrefix | padel_backend.py:85 | splitting `a + sep + b`, where a has no separator, yields a followed by the parts of b |
| Text.PairTextRoundTrip | padel_backend.py:85-89 | a set text "g1-g2" written by check_set_winner parses back to (g1, g2) |
| NoAdApp.AfterPoint | app_tennis_no_ad.py:36-85 | below 40 the scorer climbs one ladder step and nothing else moves but its point counter; at 40 the scorer's game count rises by one and both scores return to 0, whatever the opponent holds, leaving the point counters at 1 and 0; an off-ladder score stays put while the point counter still rises |
| NoAdApp.AfterUpdate | app_tennis_no_ad.py:144-155 | each supplied key takes the supplied value and every other counter is unchanged |
| NoAdApp.AfterPointConsistent | app_tennis_no_ad.py:38-85 | a point keeps both scores on the ladder and every counter non-negative |
| NoAdApp.PlayConsistent | app_tennis_no_ad.py:38-85 | any run of points from a consistent state stays consistent |
| NoAdApp.FortyAllDecides | app_tennis_no_ad.py:46-53 | at 40-40 the next point wins the game for its scorer (the comment at lines 47-48 says otherwise) |
| NoAdApp.FourPointsWinGame | app_tennis_no_ad.py:40-53 | four straight points from 0 win exactly one game for the scorer and none for the opponent |
| NoAdApp.NoAdServer.AddPoint | app_tennis_no_ad.py:36-64 | the handler changes game_state as AfterPoint says and returns the scorer's new score and point counter |
| NoAdApp.NoAdServer.ResetGame | app_tennis_no_ad.py:118-126 | all six counters become 0 |
| NoAdApp.NoAdServer.UpdateScores | app_tennis_no_ad.py:144-155 | game_state becomes AfterUpdate of the old state |
| TeamSets.WinnerRecord | padel_backend_team_sets.py:62-80 | the winner record names the side, gives "s1-s2" as its final sets and counts sets × 6 games |
| TeamSets.AfterMatchCheck | padel_backend_team_sets.py:59-83 | the match is won at two sets, Black checked first, with that side's winner record; counters and set_history never change; below two sets nothing changes |
| TeamSets.AfterSetCheck | padel_backend_team_sets.py:31-53 | a side with six games and a lead of two gets one more set, its "g1-g2" text appended and both game counts zeroed, and then the match is checked; otherwise (6-6 included) nothing changes |
| TeamSets.AfterPoint | padel_backend_team_sets.py:107-165 | refused without change after the match is won; below 40 one ladder step and one point counted; at 40 the game is won outright (the "40-40 next point wins" rule of line 389) and the set check runs; an off-ladder score stays while the point counter rises |
| TeamSets.GameWonByFacts | padel_backend_team_sets.py:129-138 | a game won at 40 zeroes both scores and point counters and either counts the scorer's game, or at six games with a lead of two gives the scorer the set with its "g1-g2" text and zeroes the games |
| TeamSets.Put | padel_backend_team_sets.py:239-254 | one key is overwritten, every other key and the outcome fields remain as before |
| TeamSets.Overwrite | padel_backend_team_sets.py:239-254 | exactly the supplied keys take the supplied values |
| TeamSets.AfterUpdate | padel_backend_team_sets.py:239-257 | only supplied keys change, then the match check runs, so a supplied set_1 of 2 or more ends the match for Black |
| TeamSets.StatsOf | padel_backend_team_sets.py:293-318 | total_points, total_games and total_sets are the pairwise sums, current_set is the sets played plus one, match_status is completed exactly when the match is won, and each team block holds that team's counters |
| TeamSets.AfterPointReachable | padel_backend_team_sets.py:107-165 | a point keeps scores on the ladder, no set left pending, at most two sets each, one set_history entry per set and a winner exactly when the match is won |
| TeamSets.PlayReachable | padel_backend_team_sets.py:107-165 | any run of points keeps that invariant |
| TeamSets.PlayAfterMatchWon | padel_backend_team_sets.py:107-113 | after the match is won no run of points changes the state |
| TeamSets.StatsOfReachable | padel_backend_team_sets.py:293-302 | without overrides current_set is one more than the closed sets and the status is 'completed' exactly when there is a winner |
| TeamSets.TeamSetsServer.constructor | padel_backend_team_sets.py:11-24 | the server starts from the all-zero state |
| TeamSets.TeamSetsServer.CheckMatchWinner | padel_backend_team_sets.py:55-83 | the state becomes AfterMatchCheck of the old one and the result says whether a side had two sets |
| TeamSets.TeamSetsServer.CheckSetWinner | padel_backend_team_sets.py:26-53 | the state becomes AfterSetCheck of the old one, and the result is true exactly when a set closed and a side then holds two sets |
| TeamSets.TeamSetsServer.AddPoint | padel_backend_team_sets.py:101-186 | the state becomes AfterPoint of the old one and the point is accepted exactly when the match was not yet won |
| TeamSets.TeamSetsServer.Supply | padel_backend_team_sets.py:239-254 | one `if key in data` step of update_scores |
| TeamSets.TeamSetsServer.OverwriteCounters | padel_backend_team_sets.py:239-254 | the eight key checks together overwrite exactly the supplied keys |
| TeamSets.TeamSetsServer.UpdateScores | padel_backend_team_sets.py:230-268 | the state becomes AfterUpdate of the old one |
| TeamSets.TeamSetsServer.ResetMatch | padel_backend_team_sets.py:202-219 | every counter becomes 0, no winner, empty set_history |
| TeamSets.TeamSetsServer.GetStats | padel_backend_team_sets.py:290-321 | the reply is StatsOf the current state and changes nothing |
| MatchReport.CountEntriesAppend | padel_backend.py:68-80 | appending an entry raises exactly its own action/team count by one |
| MatchReport.BreakdownWinner | padel_backend.py:90 | a set goes to Black exactly when its first number is larger |
| MatchReport.Breakdown | padel_backend.py:82-91 | one row per set_history text, numbered from 1, holding the two numbers the text parses to and the winner the rule above gives |
| MatchReport.CalculateMatchStatistics | padel_backend.py:70-97 | total points and games per team count that team's 'point' and 'game' entries, with one breakdown row per closed set |
| MatchReport.SetsDisplay | padel_backend.py:116-119 | each display text is "black-yellow" of its breakdown row |
| MatchReport.SetTextsEncode | padel_backend.py:85-89 | every set text read back gives the game counts it was written from |
| MatchReport.TextsReadable | padel_backend.py:85-89 | the int() calls never fail on the texts check_set_winner writes |
| MatchReport.GamesReadBack | padel_backend.py:223-224 | summing a column of the parsed set texts gives the games that side won in the closed sets |
| MatchReport.EncodesSum | padel_backend.py:223-224 | texts that encode counts sum, column by column, to those counts |
| MatchReport.BreakdownRendersHistory | padel_backend.py:82-91 | parsing the set texts and rendering them again gives the same texts, so detailed_sets equals set_history |
| MatchReport.AppendSet | padel_backend.py:175-194 | a new closed set adds its games to each side's total and credits the set to the side with more games |
| MatchReport.DurationTextRoundTrip | padel_backend.py:112-114 | for any non-negative duration the text reads back as that duration: minutes × 60 plus seconds |
| MatchReport.CreateMatchSummary | padel_backend.py:141-144 | the summary starts with "Sets: " |
| MatchReport.SummaryReadsBack | padel_backend.py:141-144 | the summary is "Sets: ", the set texts joined by ", ", then the "Points: " and "Games: " fields, each holding a text that reads back as the point or game totals |
| MatchReport.TruncatedMinutes | padel_backend.py:269-277 | int(seconds / 60) is the quotient truncated toward zero, for either sign |
| MatchReport.MarkMatchDisplayed | padel_backend.py:434-459 | fails and changes nothing without a stored report; otherwise marks it displayed, and by default wipes it |
| MatchReport.GetMatchData | padel_backend.py:416-431 | "not available" exactly when no match is completed, otherwise the stored report and its displayed flag |
| MatchReport.DisplayOnce | padel_backend.py:434-459 | after a default mark-displayed the report can be neither fetched nor marked again |
| Backend.WinnerFor | padel_backend.py:215-226 | the winner record names the side and counts its games over the closed sets plus the current set |
| Backend.WinnerReadsTexts | padel_backend.py:223-224 | the source's total, read back from the set texts, equals the closed sets' games, and the summary joins the set texts |
| Backend.ClosedGame | padel_backend.py:171-187 | closing a set keeps every closed set's games non-negative, so the texts stay readable |
| Backend.SetCheckGame | padel_backend.py:166-209 | the set check keeps the state readable |
| Backend.PointGame | padel_backend.py:297-413 | add_point keeps the state readable |
| Backend.MatchCheckFacts | padel_backend.py:211-267 | nothing happens below two sets; otherwise the match is won at `now`, the winner record names that side and totals its games, and exactly one 'match' entry is appended with nothing else changed |
| Backend.SetCheckFacts | padel_backend.py:166-209 | only six games with a lead of two close a set: the set is counted, its games recorded, a 'set' entry appended, the games zeroed, and the match is won exactly when a side then holds two sets |
| Backend.PointRefused | padel_backend.py:302-309 | after the match is won add_point is refused and nothing changes |
| Backend.PointBelowForty | padel_backend.py:324-332 | a point below 40 moves only the scorer's score, one step, and its point counter, then appends one 'point' entry |
| Backend.PointAtForty | padel_backend.py:333-346 | a point at 40 wins the game whatever the opponent holds: both scores 0, the scorer's point counter 1, the opponent's 0, the scorer's game counted (or the set closed and recorded) |
| Backend.PointOffLadder | padel_backend.py:320-346 | an off-ladder score: the point counter moves, then the handler fails with a 500 |
| Backend.PointEndsMatch | padel_backend.py:333-343 | a point ends the match exactly when it wins a game at 40 that closes a deciding set; the match then has a winner and an end time |
| Backend.PointHistoryEntries | padel_backend.py:376-384 | a point appends, all for the scorer: 'point' below 40; 'game' at 40; 'set' then 'game' when the set closes; 'set' then 'match', with no 'game', when the match is won |
| Backend.ReportFor | padel_backend.py:99-135 | the stored report has the winner record's team, name and final sets, one breakdown row per closed set, the totals counted from the history, the duration text of end minus start and the end time as timestamp |
| Backend.ReportSummaryOf | padel_backend.py:133-134 | the stored summary is "Sets: " with the set_history texts, then the stored point and game totals written as pairs |
| Backend.ReportTextsOf | padel_backend.py:110-134 | the stored duration reads back as end minus start when that is not negative, and the summary's point and game texts read back as the stored totals |
| Backend.ReportReadsSets | padel_backend.py:116-127 | the stored detailed_sets are the set_history texts and each breakdown row holds its set's games |
| Backend.AfterStore | padel_backend.py:99-135 | storing is a no-op unless the match is won with a winner; then a consistent, not-yet-shown report for the winner is stored |
| Backend.AfterMatchCheck | padel_backend.py:211-267 | the game changes as the match check says, and a declared match stores its report |
| Backend.AfterSetCheck | padel_backend.py:166-209 | the storage changes only when the set check ends the match, and then it holds the report of the won match |
| Backend.AfterPoint | padel_backend.py:297-413 | the server's game and reply are those of PointGame, and a finished match refuses the point without change |
| Backend.AfterPointStorage | padel_backend.py:333-346 | the storage is untouched unless the point ends the match, and then it holds the final state's report |
| Backend.AfterMarkDisplayed | padel_backend.py:434-459 | the game is untouched and the storage changes as MarkMatchDisplayed says |
| Backend.AfterReset | padel_backend.py:534-558 | the storage is wiped, and a new unfinished match with empty histories starts at `now` |
| Backend.TallyCounts | padel_backend.py:477-484 | the tally holds the per-team counts of 'game', 'set' and 'match' entries |
| Backend.InitialReachable | padel_backend.py:11-44 | the start state satisfies the server invariant |
| Backend.PointGameReachable | padel_backend.py:297-413 | a point keeps the invariant: scores on the ladder; at most two sets each; the closed sets agree with the set counters; a winner record exactly when the match is won; one 'game' entry per game won except the match's last, one 'set' entry per set, one 'match' entry for the winner |
| Backend.AfterPointReachable | padel_backend.py:297-413 | a request to add a point keeps the invariant, the storage included |
| Backend.AfterMarkDisplayedReachable | padel_backend.py:434-459 | marking the report displayed, with or without the wipe, keeps the invariant |
| Backend.ApplyReachable | padel_backend.py:297-565 | every state-changing request keeps the invariant |
| Backend.PlayFromStart | padel_backend.py:297-565 | every run of requests from start-up keeps the invariant |
| Backend.StoredReportWinner | padel_backend.py:122-126 | a stored report belongs to a won match and names its winning side |
| Backend.StoredReportSets | padel_backend.py:116-131 | the stored detailed sets are the set_history texts, one breakdown row per set played holding its games |
| Backend.StoredIsReport | padel_backend.py:99-135 | what a finished match has stored is exactly the report built from its final state |
| Backend.StoredReportDuration | padel_backend.py:110-114 | the stored match_duration reads back as the match's end minus its start whenever the clock did not run backwards |
| Backend.StoredReportSummary | padel_backend.py:133-144 | the stored match_summary carries the set_history texts and texts that read back as the stored point and game totals |
| Backend.StoredReportTotals | padel_backend.py:79-80 | the stored game totals count each side's games in the closed sets, less one for the winner, whose match-winning game writes no 'game' entry; the winner record counts them all |
| Backend.HistoryStatsAgree | padel_backend.py:483-513 | in a reachable state sets_won counted from the history equals current_sets, and games_won is the games won less the match's last |
| Backend.MatchPointStoresReport | padel_backend.py:403-431 | the point that wins the match leaves a report available to get_match_data |
| Backend.BackendServer.constructor | padel_backend.py:11-44 | the module-level dicts are the initial server, which is valid: readable set texts and a report stored exactly when the storage says completed |
| Backend.BackendServer.AddToHistory | padel_backend.py:46-68 | exactly one entry with the given fields is appended |
| Backend.BackendServer.CalculateMatchStatistics | padel_backend.py:70-97 | the statistics of the current history and set texts; nothing changes |
| Backend.BackendServer.StoreMatchData | padel_backend.py:99-135 | the server becomes AfterStore of the old one and stays valid |
| Backend.BackendServer.WipeMatchStorage | padel_backend.py:146-163 | the storage becomes the empty placeholder |
| Backend.BackendServer.DeclareWinner | padel_backend.py:215-239 | one winning branch of check_match_winner: the match is won, the winner record and 'match' entry written and the report stored, as AfterStore of DeclaredGame says; the server stays valid |
| Backend.BackendServer.CheckMatchWinner | padel_backend.py:211-267 | the server becomes AfterMatchCheck of the old one and the result says whether a side held two sets; the server stays valid |
| Backend.BackendServer.CloseSet | padel_backend.py:171-187 | the set-closing branch changes game_state as ClosedGame says |
| Backend.BackendServer.CheckSetWinner | padel_backend.py:166-209 | the server becomes AfterSetCheck of the old one and the result says whether the match was won; the server stays valid |
| Backend.BackendServer.AddPoint | padel_backend.py:297-413 | the server and reply are AfterPoint of the old server, which stays valid, so GET /get_match_data can follow |
| Backend.BackendServer.GetMatchData | padel_backend.py:416-431 | the reply is GetMatchData of the storage and nothing changes |
| Backend.BackendServer.MarkMatchDisplayed | padel_backend.py:434-459 | the server and reply are AfterMarkDisplayed of the old server, which stays valid |
| Backend.BackendServer.ResetMatch | padel_backend.py:534-558 | the server becomes AfterReset at `now` and is valid |
| ClientScoring.NextTennisScore | padel_js.js:389-397 | 0, 15 and 30 step up the ladder; 40 and every other value give 0 |
| ClientScoring.NextTennisScoreWraps | padel_js.js:389-397 | the result is 0 exactly when the input is not below 40, and is always on the ladder |
| ClientScoring.NextTennisScoreCycle | padel_js.js:389-397 | four points from 0 come back to 0 and no fewer do |
| ClientScoring.MatchChecked | padel_js.js:376-386 | the match is won when the scorer's sets reach two, with that team's name and "s1-s2"; otherwise nothing changes |
| ClientScoring.SetCheckFacts | padel_js.js:347-373 | only the scorer is examined: at six games with a lead of two the set is pushed with its games and winner, the set counted, both game counts zeroed and the match checked; otherwise nothing changes |
| ClientScoring.LocalPointFacts | padel_js.js:288-341 | a finished match ignores the tap; otherwise the scorer's total points rise; below 40 only its score steps up; else its score wraps to 0, its games and total games rise, the opponent's score becomes 0 and the set check runs |
| ClientScoring.Prefix | padel_js.js:457 | `slice(0, n)` keeps the first n entries, or all when there are fewer |
| ClientScoring.LocalPointExtends | padel_js.js:296-309 | a point only appends to the set history, records the undo snapshot, and keeps the winner data unless it wins the match |
| ClientScoring.UndoRestoresPoint | padel_js.js:438-463 | undo right after a point that does not end the match restores every counter and the set history and clears the snapshot |
| ClientScoring.UndoFacts | padel_js.js:438-463 | undo is refused after the match is won, clears the snapshot otherwise, and a second undo is a no-op |
| ClientScoring.LocalReset | padel_js.js:413-430 | the local reset zeroes every counter and the history, restarts the clock and keeps the undo snapshot |
| ClientScoring.UndoAfterReset | padel_js.js:413-430 | as written, an undo after a reset restores the counters saved before the reset's last point |
| ClientScoring.ResetExampleReachable | padel_js.js:296-309 | the board after one set won 6-0 by Black and one more Black point meets the invariant |
| ClientScoring.UndoAfterResetExample | padel_js.js:413-430 | from that board, the reset board breaks the invariant, and an undo after the reset leaves one set counted and none listed |
| ClientScoring.ResetBreaksInvariant | padel_js.js:413-430 | a reset that keeps a snapshot counting a set gives a board outside the invariant |
| ClientScoring.ClearedReset | padel_js.js:400-435 | a reset that also clears the snapshot differs from the as-written reset only there, meets the invariant, and makes an undo right after it a no-op |
| ClientScoring.JsRemainder | padel_js.js:54 | JavaScript `%` agrees with the mathematical remainder for non-negative operands and lies in (-n, 0] for negative ones |
| ClientScoring.ClientDurationAgrees | padel_js.js:50-57 | for a non-negative elapsed time the client text is the backend's duration text of the whole seconds and reads back as them |
| ClientScoring.SetWinnerLabelNamesWinner | padel_js.js:70 | the set table shows BLACK exactly for the sets Black won |
| ClientScoring.HistoryAppend | padel_js.js:350-366 | a pushed set adds one set won for its winner and its games to each side |
| ClientScoring.InitialReachable | padel_js.js:3-20 | the start board satisfies the client invariant |
| ClientScoring.SetCheckConsistent | padel_js.js:347-373 | the set check keeps every pushed set closed and the set counters equal to the sets won in the history |
| ClientScoring.PointConsistent | padel_js.js:288-344 | a local point keeps scores on the ladder, no pending set, and sets, games and history in agreement |
| ClientScoring.PointReachable | padel_js.js:288-344 | a local point keeps the invariant, the undo snapshot included |
| ClientScoring.UndoReachable | padel_js.js:438-463 | undo keeps the invariant |
| ClientScoring.PlayReachable | padel_js.js:288-463 | any run of taps and undos keeps the invariant |
| ClientScoring.ClientScoreboard.constructor | padel_js.js:3-20 | the page starts from the initial board at `now` |
| ClientScoring.ClientScoreboard.CheckMatchWin | padel_js.js:376-386 | the board becomes MatchChecked of the old one |
| ClientScoring.ClientScoreboard.CheckSetWin | padel_js.js:347-373 | the board becomes SetChecked of the old one |
| ClientScoring.ClientScoreboard.AddPoint | padel_js.js:288-344 | the board becomes LocalPoint of the old one |
| ClientScoring.ClientScoreboard.UndoLastPoint | padel_js.js:438-463 | the board becomes Undo of the old one, refused exactly when the match was won |
| ClientScoring.ClientScoreboard.ResetMatch | padel_js.js:400-435 | the board becomes LocalReset of the old one |
| ClientScoring.ClientScoreboard.GetMatchDuration | padel_js.js:50-57 | the text is ClientDuration of the time since the match started |
| ProTennis.SetsChecked | padel_pro.py:74-81 | a side at six games with a lead of two, or at exactly seven, gets a set and the games are zeroed; points and deuce state are kept; the winner follows the sets, Yellow's check last |
| ProTennis.AddAfterWinner | padel_pro.py:57 | add changes nothing once there is a winner |
| ProTennis.DeuceFacts | padel_pro.py:58-62 | in deuce: no advantage gives the scorer the advantage; the holder scoring wins the game; the other side scoring cancels it; the point counts never change |
| ProTennis.OpenPointFacts | padel_pro.py:63-68 | outside deuce the scorer's count rises; deuce is entered exactly at equal counts of three or more; otherwise a side with four and a lead of two wins the game |
| ProTennis.SetsCheckedKeepsDeuce | padel_pro.py:74-81 | the set check never touches deuce or advantage |
| ProTennis.FreshReachable | padel_pro.py:50-55 | the reset state satisfies the invariant |
| ProTennis.GameWonFacts | padel_pro.py:69-73 | winning a game clears the points, deuce and advantage and adds exactly one game to the winner before the set check |
| ProTennis.AddReachable | padel_pro.py:56-81 | a point keeps counts at three or less, deuce exactly at three-all, games at six or less with no set pending, and the winner decided by sets; at most one set is awarded per point |
| ProTennis.PlayReachable | padel_pro.py:56-81 | any run of points keeps the invariant |
| ProTennis.DispFacts | padel_pro.py:82-84 | in deuce "AD" for the holder and "40" for the other side; outside deuce 0..3 map to "0"/"15"/"30"/"40" and anything else to "40" |
| ProTennis.DispOneAdvantage | padel_pro.py:82-84 | in a reachable state the two sides never both show "AD" |
| ProTennis.Tennis.constructor | padel_pro.py:49-55 | a new engine is the reset state |
| ProTennis.Tennis.Reset | padel_pro.py:50-55 | every field returns to 0, False or None |
| ProTennis.Tennis.WinSetIfNeeded | padel_pro.py:74-81 | the fields become SetsChecked of the old ones |
| ProTennis.Tennis.WinGame | padel_pro.py:69-73 | the fields become GameWon of the old ones |
| ProTennis.Tennis.Add | padel_pro.py:56-68 | the fields become Added of the old ones |
| TouchScore.GameDecisionRule | score.py:152-166 | the game goes to a side exactly when it has at least four points and a lead of at least two |
| TouchScore.GameWon | score.py:168-181 | the winner's games rise by one, the other's stay, and both point counts are zeroed |
| TouchScore.TapFacts | score.py:132-150 | before the match starts a tap only starts it; after, a tap that gives the scorer four points and a lead of two wins the game; otherwise only the scorer's count rises |
| TouchScore.PointsToDisplay | score.py:127-130 | 0..3 show as "0"/"15"/"30"/"40" and any other count as its decimal text |
| TouchScore.Reset | score.py:214-222 | reset_match zeroes points and games and clears the start |
| TouchScore.IdleReachable | score.py:12-18 | the start state satisfies the invariant |
| TouchScore.TapReachable | score.py:132-166 | a tap keeps the invariant |
| TouchScore.ReachableCounts | score.py:152-166 | in reachable states, with both at three or more the counts differ by at most one, and otherwise neither passes three |
| TouchScore.ShownFacts | score.py:186-198 | with both at three or more: DEUCE/DEUCE when level, else ADV for the leader and 40 for the other; else each count's display text; in reachable states only 0/15/30/40/DEUCE/ADV appear |
| TouchScore.PlayReachable | score.py:132-223 | any run of taps and resets keeps the invariant |
| TouchScore.PadelTouchscreen.constructor | score.py:12-18 | the board starts idle |
| TouchScore.PadelTouchscreen.StartMatch | score.py:208-212 | the match is started at `now` and nothing else changes |
| TouchScore.PadelTouchscreen.ResetCurrentGame | score.py:178-181 | both point counts become 0 and nothing else changes |
| TouchScore.PadelTouchscreen.WinsGame | score.py:168-176 | the fields become GameWon of the old ones |
| TouchScore.PadelTouchscreen.CheckGameWinner | score.py:152-166 | the fields become GameChecked of the old ones |
| TouchScore.PadelTouchscreen.Scores | score.py:132-150 | the fields become Tapped of the old ones |
| TouchScore.PadelTouchscreen.UpdateDisplay | score.py:183-206 | the button texts are "GREEN TEAM"/"RED TEAM", two line breaks and the shown score, and the labels are the games' decimal texts |
| TouchScore.PadelTouchscreen.ResetMatch | score.py:214-223 | the fields become Reset of the old ones |

## Findings

| source | as written | input that shows it | evidently intended | confidence | as-written member | corrected member |
|---|---|---|---|---|---|---|
| padel_js.js:400-435 | the local reset zeroes the counters and empties setsHistory but leaves lastAction set | one set won 6-0 by Black, a Black point, a reset, then undo: sets_1 is 1 again while setsHistory is empty | the reset clears lastAction too, so undo after a reset does nothing | medium; not executed | ClientScoring.UndoAfterResetExample | ClientScoring.ClearedReset |

`ClientScoring.LocalReset` and `ClientScoreboard.ResetMatch` keep the reset as written. For that reason the events of `ClientScoring.PlayReachable` are only taps and undos: `ClientScoring.ResetBreaksInvariant` shows that an as-written reset can leave the invariant.

## Left out

- Flask routing, `jsonify`, CORS, HTTP status codes and `request.get_json` parsing: a handler takes a `Side`, an override map or a flag directly, and its reply is a small datatype.
- Team strings other than "black" and "yellow": the model has two sides, so the unknown-team paths of the handlers are not modelled.
- `print` logging, emoji banners, the startup blocks, `/health` and static-file serving: they change no state.
- `last_updated` and every wall-clock read: `datetime.now()` and `Date.now()` are integer `now` parameters (seconds for Python, milliseconds for JavaScript), without sub-second precision.
- MatchReport.TruncatedMinutes: calculate_match_duration divides in floating point before `int()`; the model divides integer seconds, which gives the same truncated minutes for whole seconds.
- `get_game_state` of every backend and `/match_history` beyond its per-team block: they are read-only views of the state that the model holds directly.
- Separate black and yellow branches: the Python handlers write each branch out once per team (add_point, check_set_winner, check_match_winner, green_scores/red_scores, green_wins_game/red_wins_game); the model writes each once, for a `Side`.
- The set_history of padel_backend.py is held as the (black, yellow) game counts of each closed set; its strings are `MatchReport.SetTexts` of them, and `Backend.WinnerReadsTexts` proves that the source's re-parsing of those strings gives the same totals the model uses.
- `int()` accepting whitespace, signs or underscores: the model only reads the digit runs that the backend itself writes.
- padel_js.js: the DOM, `fetch` and the backend-sync path (the backend path only overwrites fields with the server's state), `confirm` (a reset is modelled as confirmed), `alert`, sharing, the history view, keyboard handlers and the `time` clock text.
- padel_js.js `populateSetsTable`: only the winner label of each row (line 70) is modelled; the HTML and the in-progress row are not.
- ClientScoring.JsRemainder: for a negative operand it states only that the result lies in (-n, 0], not its exact value; `ClientScoring.ClientDurationAgrees` gives the exact text for every non-negative elapsed time, which is what a clock that does not run backwards produces.
- padel_pro.py: all pygame drawing, font scaling, the click-side choice and the event loop.
- score.py: the tkinter widgets, the `after` timer and `update_timer`; `update_display` is modelled as the four texts it writes.
- Concurrency: every source runs single-threaded over module-level globals, and the model does the same.
