# Cyber Training Simulator — rules engine and session bookkeeping in Dafny

The Cyber Training Simulator is a desktop quiz. A session deals up to ten
security scenarios. For each one the player picks an option, skips, or takes
a hint. Every answer is scored as Correct, Partial, Unsafe or Skipped. At the
end of the session, badges, the best score and a top-ten leaderboard are
updated. This project models the rules behind that and proves what they
promise:

- `models.dfy` (module `Models`): the scenario, settings, profile, round
  result and game-state records, scenario validation, and the progress
  fraction.
- `game.dfy` (module `Game`): the round length for a difficulty, scoring,
  deck selection, and the badge rules with the sorted badge list.
- `analytics.dfy` (module `Analytics`): the per-category correct/total
  tallies and the most-missed scenario.
- `storage.dfy` (module `Storage`): the leaderboard (append, stable sort by
  score, keep ten), the feedback-log line, and the default settings record.
  The store is a class whose fields hold the persisted files as values.
- `scenarios.dfy` (module `Scenarios`): casting the catalogue's JSON objects
  into scenarios with their defaults, dropping the invalid ones, and shuffling.
- `random.dfy` (module `Random`): `random.shuffle`, as a Fisher–Yates loop
  whose swap partner is chosen arbitrarily. Every property holds for every
  permutation it can produce.
- `ui.dfy` (module `Ui`): the main window's session state machine. This
  covers new game, continue, drawing a round, the countdown, hint, skip and
  submit, and recording a round through to the end-of-session bookkeeping.

Methods are proved against specification functions. Examples are `Validate`
against `ValidationErrors`, `PerCategory` against `TallyOf`,
`SortByScore` against `Ranked`, and `AppendLeaderboard` against `Appended`.
The lemmas then state what those functions mean.

Behaviours of the original that the model keeps as they are:

- `seen_ids` is never filled: every new game starts from an empty set, so the
  "unseen" filter passes everything (`Ui.App.StartSession`, `Game.UnseenNothingSeen`).
- Skipping does not cancel the pending countdown callback; submitting does.
  The model counts the scheduled callbacks (`pendingTicks`) and whether the
  remembered handle is still pending (`tracked`).
- A hint changes the score but leaves no round result. A ghost field
  `hintDeductions` records the difference, so that the score is always the
  recorded points plus the hint deductions.
- Points are computed with the streak as it stood before the round.
- With fewer than ten playable scenarios, the round after the last card
  indexes past the deck and fails. The model leaves the screen unchanged then.
- Only the feedback message is sanitised. A comma in the player name or the
  scenario id adds columns to the log line.
- The keyboard bindings outlive the summary screen. The submit and skip
  handlers only require a scenario on screen, so they can finalise another
  round past the end and save the summary again.
- When the timer is off, the time taken is the whole round time.

## Model

| member | source | states |
|---|---|---|
| Models.Validate | models.py:30-40 | the errors are the title/choices error, then the missing-correct-indexes error, then one bad-index error per out-of-range index, correct indexes before partial ones; the list is empty exactly when the scenario is well formed |
| Models.ValidIff | models.py:30-40 | no validation error iff title and choices are non-empty, correct indexes are non-empty and every index lies in [0, number of choices) |
| Models.ValidationErrorsShape | models.py:32-39 | an empty title or empty choices gives exactly one leading title/choices error; empty correct indexes give the missing-indexes error; the error count is those plus one per out-of-range occurrence; a bad-index error is reported for exactly the out-of-range indexes |
| Models.BadIndexErrorsEmpty | models.py:37-39 | the index check reports nothing iff every index is in range |
| Models.BadIndexErrorsExact | models.py:37-39 | an error is reported iff it is a bad-index error of this scenario for an index that occurs and is out of range |
| Models.BadIndexErrorsCount | models.py:37-39 | one error per out-of-range occurrence, duplicates included |
| Models.DefaultSettings | models.py:43-58 | the settings defaults: medium, timer on, 45 s, penalties and hints on, 100/50 points, −25 unsafe, −10 skip, −5 hint |
| Models.Profile.constructor | models.py:61-65 | a new profile is "Player" with best score 0 and no badges |
| Models.GameState.constructor | models.py:76-82 | a new session has 10 rounds, index 0, score 0, streak 0, no results and no seen ids |
| Models.GameState.Record | ui.py:256-260 | one result is appended, the score moves by its points, the streak grows on Correct and resets otherwise, and the streak stays the trailing run of Correct results while the score stays the recorded points plus the hint deductions |
| Models.GameState.ProgressFraction | models.py:84-85 | never above 1, never negative for a non-negative index, exactly index/max(1, rounds) up to that divisor, 1 once the index reaches it; defined for any rounds count |
| Random.Shuffle | scenarios.py:31 | the array afterwards is a permutation of the array before |
| Game.PickRoundSeconds | game.py:7-11 | easy adds 10 s; hard takes 10 s off but never goes below 20; any other difficulty keeps the base |
| Game.RoundSecondsExamples | tests/test_core.py:30-33 | hard with 45 s gives 35; easy gives 55; medium gives 45 |
| Game.WeightOr | game.py:17 | the choice's weight when it is non-zero, and the default when it is 0 (negative indexes count from the end) |
| Game.TimeBonus | game.py:18 | between 0 and 20; 0 with the timer off; otherwise remaining div 3, capped at 20, and 0 for a negative remaining time |
| Game.StreakBonus | game.py:19 | 10 iff the incoming streak is positive and even, else 0 |
| Game.UnsafePoints | game.py:23 | 0 with penalties off; otherwise the scenario's own penalty when non-zero, else the settings' penalty |
| Game.ComputeScore | game.py:13-24 | Skipped iff nothing is selected; Correct iff the index is a correct one, even if also partial; Partial iff partial and not correct; Unsafe otherwise |
| Game.ScorePoints | game.py:13-24 | the points of each outcome: skip penalty or 0; weight-or-base plus time and streak bonuses, at most 30 over the base; weight-or-base for Partial with no bonus; the unsafe penalty |
| Game.ScoringExamples | tests/test_core.py:15-28 | with the default settings: correct with 30 s left and streak 2 scores 120, partial scores 50, unsafe −25, skip −10 |
| Game.WellFormedScorable | game.py:16-22 | every non-negative selection on a valid scenario can be scored without an index error |
| Game.Unseen | game.py:27 | the pool is a sub-multiset of the catalogue and holds exactly the scenarios whose id was not seen |
| Game.UnseenCounts | game.py:27 | every unseen scenario is kept as often as it occurs, and no seen one is kept, so the pool's length is the number of unseen occurrences |
| Game.UnseenNothingSeen | game.py:27 | with nothing seen the pool is the whole catalogue, in order |
| Game.SelectScenarios | game.py:26-32 | the deck is drawn from the catalogue without extra copies and has at most `count` scenarios; with enough unseen ones it has exactly `count`, all unseen; otherwise min(count, catalogue size) from the whole catalogue |
| Game.Earned | game.py:34-39 | Phish Fryer iff at least five Correct results with a "phish" id; Zero Trust iff no result is Skipped; Fast Thinker iff there are results and their total time is under 10 s per round |
| Game.EarnedEmpty | game.py:37 | an empty session earns Zero Trust only |
| Game.FastSessionIntegral | game.py:38 | the real-valued mean time is under 10 iff results are non-empty and the integer total is under 10·count |
| Game.BelowIrreflexive | game.py:39 | no string sorts before itself |
| Game.BelowTransitive | game.py:39 | the string order is transitive |
| Game.BelowTotal | game.py:39 | any two distinct strings are ordered one way or the other |
| Game.SortedList | game.py:39 | `sorted(set)`: strictly increasing, and the same elements as the set |
| Game.SortedUnique | game.py:39 | two strictly sorted lists with the same elements are equal, so the stored badge list is determined by its set |
| Game.UpdateBadges | game.py:34-40 | the stored list is sorted, duplicate-free, and holds the old badges plus those earned |
| Game.UpdateBadgesIdempotent | game.py:34-40 | no badge is ever removed, and a second run on the same results leaves the list as it is |
| Game.BadgesAfterUnique | game.py:39-40 | the badge list after an update is uniquely determined |
| Analytics.CategoriesExact | analytics.py:10-13 | a category is a key iff some result maps to it, unknown ids counting as "Other" |
| Analytics.CountBounds | analytics.py:12-13 | per category, correct ≤ total, and total > 0 iff the category occurs |
| Analytics.BumpTallies | analytics.py:11-13 | one loop step keeps every key's pair equal to that category's Correct and total counts |
| Analytics.BumpSum | analytics.py:13 | one loop step adds exactly one to the sum of totals |
| Analytics.TallyOfExact | analytics.py:10-13 | the accumulated map holds, for exactly the categories met, their Correct and total counts, and its totals sum to the number of results |
| Analytics.PerCategory | analytics.py:8-14 | keys are exactly the categories met; each pair is (Correct count, total count) for its category; every total is positive and at least its correct count; totals sum to the number of results |
| Analytics.TalliedBounds | analytics.py:12-13 | in an exact tally no key has total 0 and no correct count exceeds its total |
| Analytics.UnsafeIdsExact | analytics.py:17 | an id is counted iff some Unsafe result carries it |
| Analytics.UnsafeIdsAppend | analytics.py:17 | the counted ids of a concatenation are those of each part, in order |
| Analytics.ArgMaxFirst | analytics.py:18 | the chosen position has the maximal count, and every earlier position has a strictly smaller count, so ties go to the first id met |
| Analytics.MostMissed | analytics.py:16-18 | "None" when no result is Unsafe; otherwise an id of an Unsafe result with the maximal Unsafe count, first met among equals |
| Analytics.MostMissedIgnoresOthers | analytics.py:17 | inserting a result that is not Unsafe anywhere never changes the answer |
| Analytics.ExampleSessionIds | analytics.py:17 | the Unsafe ids of a sample session, in order |
| Analytics.MostMissedExamples | analytics.py:16-18 | no results give "None"; 3 Unsafe for phish-1 against 1 for phish-2 give phish-1 |
| Storage.InsertAfterTiesMultiset | storage.py:66 | placing a row adds exactly that row and alters no other |
| Storage.InsertAfterTiesFacts | storage.py:66 | placing a row in a list sorted by score keeps it sorted |
| Storage.InsertAfterTiesAt | storage.py:66 | the row goes right after every row scoring at least as much (stability: a tie stays behind) |
| Storage.RankedFacts | storage.py:66 | the stable descending sort is non-increasing by score and a permutation of its input |
| Storage.InsertRow | storage.py:66 | one insertion-sort step places the row as the stable sort does and leaves the rest of the array alone |
| Storage.SortByScore | storage.py:66 | the array ends up as the stable descending sort of its old contents |
| Storage.CountAtLeastRanked | storage.py:66 | sorting does not change how many rows score at least s |
| Storage.AppendedFacts | storage.py:63-68 | after an append the list is non-increasing by score, has min(10, old length + 1) rows, is a sub-multiset of the old rows plus the new one, is a prefix of the full sorted list, and every kept row scores at least every dropped one |
| Storage.AppendedNewRow | storage.py:64-67 | with k old rows scoring at least the new score, the new row is kept, at position k, iff k < 10; otherwise the list is what it would be without it |
| Storage.Sanitise | storage.py:77 | commas become semicolons, every other character and the length are kept, and no comma remains |
| Storage.FeedbackLineLast | storage.py:76-77 | the log line's last field is always the whole sanitised message with the newline |
| Storage.FeedbackLineColumns | storage.py:76-77 | with no comma in the player name or scenario id the line splits into exactly timestamp, player, scenario id and sanitised message |
| Storage.DefaultsAgree | storage.py:41-46 | the default settings record names every setting and, read back as settings, gives exactly the dataclass defaults |
| Storage.DataStore.constructor | storage.py:16-20 | a fresh store has an empty leaderboard and a feedback log holding only its header |
| Storage.DataStore.AppendLeaderboard | storage.py:63-68 | the stored leaderboard becomes the best ten of the old rows plus the new one, stably sorted by score |
| Storage.DataStore.LogFeedback | storage.py:76-78 | the log grows by exactly one line built from the timestamp, player, scenario id and sanitised message |
| Scenarios.CastChoices | scenarios.py:15 | fails iff some choice has no label; otherwise one choice per object, in order, with weight 0 when absent |
| Scenarios.Cast | scenarios.py:11-21 | fails exactly when a required key (id, title, category, difficulty, narrative, choices with labels, correct indexes) is missing |
| Scenarios.CastRoundTrip | scenarios.py:11-21 | casting a scenario written out with every key gives it back |
| Scenarios.CastDefaults | scenarios.py:15-20 | absent optional keys give weight 0, no partial indexes, penalty 0, empty hint, reason and tip, and no references |
| Scenarios.CastAll | scenarios.py:22-26 | the whole list is cast, in order, or the cast fails when any single object fails |
| Scenarios.PlayableCounts | scenarios.py:27-30 | every valid scenario is kept as often as it occurs and no invalid one is kept |
| Scenarios.PlayableExact | scenarios.py:27-30 | a scenario is kept iff it occurs in the input and is valid, as often as it occurs |
| Scenarios.KeepPlayable | scenarios.py:27-30 | the loop keeps, in order, exactly the scenarios whose validation reports nothing |
| Scenarios.LoadScenarios | scenarios.py:10-32 | the pool is a permutation of the valid cast scenarios; every returned scenario is valid; a read, parse or cast failure gives an empty pool |
| Scenarios.LoadedExact | scenarios.py:22-32 | nothing is dropped or invented: a scenario is in the pool iff it is a valid one of the catalogue, with the same multiplicity |
| Ui.DrawDeck | ui.py:146 | the new deck is drawn with nothing excluded: at most one copy per catalogue copy, min(10, catalogue size) scenarios, all valid |
| Ui.App.constructor | ui.py:40-45 | the window starts with the loaded settings and profile, the valid catalogue scenarios in some order, and no session |
| Ui.App.Tick | ui.py:223-227 | at zero or below nothing changes; otherwise the time left drops by one and the next callback is scheduled and remembered |
| Ui.App.FireTick | ui.py:223-227 | a scheduled callback runs: the time left drops by one and never goes below zero from a non-negative value; a countdown is still tracked iff it rescheduled itself or an untracked stale callback fired |
| Ui.App.RenderRound | ui.py:156-205 | the current deck scenario is shown with no selection, the round time and one countdown step; past the end of the deck nothing changes |
| Ui.App.StartSession | ui.py:143-147 | a fresh session (10 rounds, index 0, score 0, streak 0, no results, nothing seen), the difficulty's round time and a deck drawn from the catalogue |
| Ui.App.NewGame | ui.py:143-148 | a fresh session, and its first round drawn when the deck is not empty; with an empty deck the screen and the countdown are left as they were |
| Ui.App.ContinueGame | ui.py:150-154 | resumes the same session, deck and round length iff one exists with at least one result and rounds left, leaving the screen and the countdown as they were when its deck is used up; otherwise starts a new one and draws its first round as NewGame does |
| Ui.App.SelectChoice | ui.py:215-218 | key k selects option k−1 |
| Ui.App.OnHint | ui.py:229-234 | with hints on, only the score moves, by the hint cost; streak, results and index stay; with hints off nothing changes |
| Ui.App.OnSkip | ui.py:243-245 | the round is recorded as Skipped at the skip penalty, or 0 with penalties off, with no selection; the countdown is not cancelled |
| Ui.App.OnSubmit | ui.py:247-253 | with no selection nothing changes; otherwise the countdown is cancelled and the round is scored with the time left and the streak before the round, then recorded |
| Ui.App.FinaliseChoice | ui.py:255-261 | exactly one result appended (no selection iff sel < 0), score moved by exactly the points, streak extended or reset, index advanced by one; then the summary is saved iff the index reached the round count, else the next round is drawn |
| Ui.App.ShowFeedback | ui.py:263-270 | the index advances by one; the summary is saved iff it reached the round count; otherwise the next round is drawn and profile and leaderboard are untouched |
| Ui.App.ShowSummary | ui.py:294-298 | badges merged in, best score raised to max(old best, score), one leaderboard row appended with the player's name and score |

## Left out

- settings.py and main.py: the settings dialog and the window start-up hold no rules beyond copying widget values.
- Rendering: widget layout, toasts, beeps, message boxes, the help/about/badge windows, the summary's lessons list and the theme switch are not modelled.
- analytics.py `draw_bar_chart`: canvas drawing with float fractions.
- `_save_report`, `capture_screenshot` and `save_screen_postscript`: they only write files.
- File I/O (`_safe_load_json`, `_safe_save_json`, `ensure_data_dirs`, the backups): the store's fields hold the files' contents as values. A read or parse failure of the catalogue is the `None` input of `LoadScenarios`.
- `json.loads`: the catalogue arrives already parsed. A JSON value of the wrong type (a string where a list is expected, say) is not modelled. Only missing keys are.
- Timestamps (`time.strftime`, `time.time`) are parameters: `ts` of the submit, skip and summary handlers, and `now` of `LogFeedback`.
- Ui.App.constructor: the settings are taken as a `GameSettings` value rather than the settings dictionary. `Storage.SettingsFromRecord` relates the two for well-typed records. An unknown key, which makes `GameSettings(**settings)` raise, only appears there.
- `on_report` is not modelled as a handler: the line it logs is `Storage.DataStore.LogFeedback`, and the dialog is left out.
- `open_settings` is not modelled: the settings of a window never change in the model.
- The countdown's event loop is not modelled: `after` and `after_cancel` become the count of scheduled callbacks, and `FireTick` runs one of them at a time.
- Ui.App.ShowSummary: the profile and leaderboard are updated in memory; `save_profile` and the file write are left out.
- Ui.App.RenderRound: the screen is not torn down and rebuilt before the failing deck lookup; the model leaves everything unchanged there.
- Models.GameState.Record: `time_taken` is an integer, because the handlers always compute it from integers; the float type of the field is not modelled.
