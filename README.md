# CS:GO economy simulator — a Dafny model of its deterministic core

This project models the parts of the CS:GO economy simulator that are sequential and deterministic, with randomness
and I/O pulled out as parameters, and proves what that code promises. The simulator is a Go program with one Python batch
driver. It plays agent-based matches between buy strategies and aggregates statistics over many games.

Every operation that changes state step by step is modelled as an imperative Dafny method. Each such method is proved
against a specification function, and lemmas then state the properties of those functions. Pure decision code is
modelled as functions with contracts.

| file | module | models |
|---|---|---|
| `common.dfy` | `Wrappers`, `GoInt`, `Reals`, `Text` | Option, Go's truncating `/` and `%`, real min/max/clamp, decimal rendering of integers |
| `batch_analyze.dfy` | `BatchAnalyze` | `batch_analyze_tournament.py`: matchup-folder discovery, error-message truncation, the success/failure partition, the failure summary and the exit code |
| `tournament.dfy` | `Tournament` | `internal/tournament/tournament.go`: the mirrored round-robin schedule, best-of-N series with early stopping, the standings |
| `tournament_export.dfy` | `TournamentExport` | the head-to-head win matrix of `internal/analysis/tournament_export.go` |
| `team.dfy` | `EngineTeam` | the `Team` class of `internal/engine/team.go` |
| `round.dfy` | `EngineRound` | `internal/engine/round.go`: the loss-bonus ladder, the round payout and the winner mapping |
| `game.dfy` | `EngineGame` | `internal/engine/game.go`: round counting, side switches, overtime, score and the end-of-game test |
| `gamerules.dfy` | `GameRulesModel` | `internal/engine/gamerules.go`: defaults, strict validation and the merge of a decoded rules file |
| `probabilities.dfy` | `Probabilities` | `internal/engine/probabilities.go`: `atoiSafe`, nearest-key choice, cumulative selection for a given draw, the fallbacks |
| `calculator.dfy`, `stats.dfy` | `Calculator`, `Stats` | `internal/analysis/calculator.go` and `stats.go`: the simulation counters, median, top score lines and the chi-square test |
| `advanced_calculator.dfy` | `AnalyzerRecords`, `AdvancedCalculator` | the `AdvancedAnalyzer` of `internal/analysis/advanced_calculator.go`: per-game recording of edges, streaks, comebacks, half/side rounds and the time series, and `Finalize` |
| `advanced_finalize.dfy` | `AdvancedFinalize` | the end-of-run steps of `Finalize`: momentum, win conditions by advantage range, comeback rates, half/side effects, the averaged time series and the streak analysis |
| `advanced_analysis.dfy` | `AdvancedAnalysisModel` | `internal/analysis/advanced_analysis.go`: histogram bins, correlation, the streak sort |
| `converters.dfy` | `Converters` | `internal/database/converters.go`: match and round records and the batch summary |
| `strategies.dfy` | `Strategies` | the rule-based buy strategies of `internal/strategy` |
| `models.dfy` | `EcoModels` | the buy strategies of `internal/models` |
| `ml_models.dfy` | `MlModels` | the tree walks of the XGBoost, single-tree and forest strategies |
| `xen_model.dfy` | `XenModel` | the buy-type table and minimax choice of `internal/strategy/xen_model.go` |
| `registry.dfy` | `StrategyRegistry`, `CustomStrategies` | `internal/strategy/registry.go` and `ValidateStrategies` of `cmd/custom.go` |
| `id_generation.dfy` | `IdGeneration` | `util/id_generation.go` |

Money is `real`, since the source's `float64` is modelled without IEEE rounding. Counters are unbounded integers.
Iterating over a Go map happens in an unspecified order, so every map iteration takes that order as a parameter
(`IterationOrder(order, m)`: every key exactly once). The results are then stated for every such order.

## Model

| member | source | states |
|---|---|---|
| GameRulesModel.ValidateStrict | internal/engine/gamerules.go:55-143 | true exactly when every money field is non-negative, both half lengths are positive, every reward is non-negative and both reward arrays hold no negative entry |
| GameRulesModel.DefaultsValid | internal/engine/gamerules.go:31-53 | the default rules pass strict validation |
| GameRulesModel.Merge | internal/engine/gamerules.go:166-230 | the field-by-field merge yields the candidate `MergedRules` describes: money and lengths taken when positive, rewards when non-negative, flags always, arrays when non-zero / non-empty |
| GameRulesModel.NewGameRules | internal/engine/gamerules.go:145-258 | defaults and false for an empty or "default" path, an unreadable or unparsable file or a candidate that fails validation; otherwise the merged candidate and true; the result always passes validation |
| GameRulesModel.MergedValidIff | internal/engine/gamerules.go:166-236 | a merged candidate passes validation exactly when the outcome-reward array is all zero or non-negative and the loss bonus list is empty or non-negative |
| GameRulesModel.EmptyObjectLoaded | internal/engine/gamerules.go:166-253 | a file holding `{}` is accepted, with every reward zeroed and both flags false, while lengths and funds keep their defaults |
| GameRulesModel.MergeFields | internal/engine/gamerules.go:168-221 | the scalar fields are merged as `MergedRules` describes, the two lists still at their defaults |
| EngineTeam.Team.constructor | internal/engine/team.go:19-33 | five players, five times the starting funds and the default equipment, nothing scored, spent or earned |
| EngineTeam.Team.RoundEnd | internal/engine/team.go:35-45 | a win scores one point and ends the losing streak, a loss lengthens it; the round money goes to both Funds and Earned; survivors and remaining equipment are recorded; nothing else changes |
| EngineTeam.Team.NewOT | internal/engine/team.go:47-51 | overtime funds and default equipment for five players; side, score and streak unchanged |
| EngineTeam.Team.Sideswitch | internal/engine/team.go:53-62 | the side flips; funds restart at five times the overtime or regular starting funds; equipment back to the default for five |
| EngineTeam.Team.NewRound | internal/engine/team.go:64-69 | Spent and Earned reset; equipment is what survived plus the default for each dead player; all five alive; funds and score unchanged |
| EngineTeam.Team.EarnFunds | internal/engine/team.go:81-84 | the amount is added to Funds and to Earned, nothing else changes |
| EngineTeam.Team.SpendFunds | internal/engine/team.go:86-94 | an affordable amount moves from Funds to Spent and Equipment, an unaffordable one changes nothing; Funds never go negative and Funds + Equipment is conserved |
| EngineTeam.Team.SetEarned | internal/engine/round.go:150-153 | Earned becomes the round's earnings (a setter the round logic calls) |
| EngineTeam.Team.SetFunds | internal/engine/round.go:151-154 | Funds becomes the given amount |
| EngineTeam.Team.SetLossBonusLevel | internal/engine/round.go:99-115 | the loss-bonus level becomes the given level |
| EngineTeam.Team.SetSavedEquipment | internal/engine/round.go:77-89 | the saved-equipment value becomes the given value |
| EngineRound.LossBonusCalculation | internal/engine/round.go:157-174 | the per-player bonus is 1400 at level 0 or below, 3400 at level 4 or above, always between the two |
| EngineRound.LossBonusMonotone | internal/engine/round.go:157-174 | a higher loss-bonus level never pays less |
| EngineRound.LossBonusStep | internal/engine/round.go:162-172 | between levels 0 and 4 each further level adds 500 per player |
| EngineRound.BaseRewards | internal/engine/round.go:55-73 | the winner gets 17800 for reasons 1 and 3, 16250 for reason 4 or an unplanted reason 2, 16550 for a planted reason 2, 0 otherwise; the loser gets 4300 only for reason 3 |
| EngineRound.LossBonusShare | internal/engine/round.go:117-136 | the loss bonus never changes the winner's money, and adds to the loser's the bonus times 5, or times 5 - TSurvivors on a CT win by reason 4 |
| EngineRound.PayoutBounds | internal/engine/round.go:55-136 | with 0-5 survivors a side, the winner gets 0..19300 and the loser 0..22800 |
| EngineRound.NextLevel | internal/engine/round.go:99-115 | a loss raises the level by one; a win lowers it by one with the ladder enabled, else resets it to 0 |
| EngineRound.LadderKeepsLevelSum | internal/engine/round.go:99-106 | with the ladder enabled the two teams' levels always sum to the same value |
| EngineRound.Round.constructor | internal/engine/round.go:15-27 | both teams start a new round (equipment rebuilt, Spent and Earned reset, five alive) and the round records its number, sides, rules and overtime flag |
| EngineRound.Round.DetermineRoundOutcome | internal/engine/round.go:178-202 | team 1 wins exactly when its side is the side that won; the stored outcome is left as it was |
| EngineRound.Round.DetermineFundsEarned | internal/engine/round.go:52-155 | saved equipment per side; the loser is paid the bonus of its level before the round; both levels move as `NextLevel` says; each team's Earned is its share of the payout; both teams' funds capped at MaxFunds |
| EngineGame.FifteenAllPanics | internal/engine/game.go:102 | the end-of-game test as written divides by the overtime count, which is still 0 at 15-15 after round 30: a division by zero |
| EngineGame.FinishVerdict | internal/engine/game.go:95-110 | a regulation 16 against at most 14 ends the game for that team; otherwise the overtime rule, applied only once overtime has started |
| EngineGame.FinishVerdictAgrees | internal/engine/game.go:95-110 | wherever the test as written does not panic, the guarded test continues and finishes on the same scores with the same winner |
| EngineGame.Team2WinsOnlyInRegulation | internal/engine/game.go:102-108 | team 2 can only win 16 against at most 14: the overtime rule demands team 1 lead by more than two |
| EngineGame.NoWinnerBelowSixteen | internal/engine/game.go:95-110 | while both scores are below 16 the game never ends |
| EngineGame.Game.constructor | internal/engine/game.go:24-47 | two new teams on opposite sides with five times the starting money and default equipment, nothing played, not in progress; the game invariant holds |
| EngineGame.Game.AsWrittenTestPanicsAtRoundThirty | internal/engine/game.go:74-102 | in any reachable game not won in regulation by round 30, overtime has not started, so the test as written divides by zero |
| EngineGame.Game.UpdateScore | internal/engine/game.go:112-118 | exactly one point: to team 1 when `winner` is true, else to team 2 |
| EngineGame.Game.SwitchSide | internal/engine/game.go:87-93 | the switch flag is set, half and CT side flip, and both teams switch sides and restart with overtime or regular funds |
| EngineGame.Game.StartOvertime | internal/engine/game.go:74-79 | overtime is on with the count one higher, and both teams get the overtime money and default equipment, sides kept |
| EngineGame.Game.GameState | internal/engine/game.go:69-85 | the switch at round 15, the overtime start at round 31 (or 16 + 6 x count) and the overtime switch at 16 + 3 x count, with the sides, flags and funds each step leaves |
| EngineGame.Game.GameFinished | internal/engine/game.go:95-110 | when the guarded test names a winner the game stops with that winner; otherwise nothing changes |
| EngineGame.Game.PlayRound | internal/engine/game.go:52-64 | one pass of the loop: the next round, the side switch at 15 with starting funds, overtime from 31 with overtime funds, one point to the winner, the end-of-game test; the invariant (score sum = rounds played, sides by half) is kept |
| EngineGame.Game.Start | internal/engine/game.go:49-67 | rounds are played until the game ends or the winners run out; a stopped game has the winner the end-of-game test names |
| Stats.Increment | internal/analysis/calculator.go:37 | `m[k]++` on a Go map: one more under k, counted from 0 when absent, every other key untouched |
| Stats.CountScore | internal/analysis/calculator.go:28-33 | a score line is counted when the map has fewer than 1000 keys or already holds it; otherwise the map is unchanged |
| Stats.CountScoreBounded | internal/analysis/calculator.go:30-33 | the score distribution never grows beyond 1000 keys, a known score always gains one, other counts never change |
| Stats.CountScoreFullDropsNewKey | internal/analysis/calculator.go:31-33 | with 1000 keys a score not seen before is dropped |
| Stats.NewStats | internal/analysis/stats.go:75-111 | every counter zero, the requested count and mode recorded, no configuration; the score and round distributions, which stats.go does not declare, start empty and the advanced record absent (see Left out) |
| Stats.NewSimulationStats | internal/analysis/stats.go:114-127 | mode "sequential" exactly for a sequential configuration and "concurrent" otherwise; the configuration is kept; counters zero |
| Stats.UpdateAdvancedStatsEffect | internal/analysis/calculator.go:67-84 | only the advanced record changes: one close game exactly for a difference of at most 3, one blowout exactly above 10, never both, and a response time appended only when positive in concurrent mode |
| Stats.UpdateGameResult | internal/analysis/calculator.go:12-42 | one more completed game, its rounds added, exactly the winner's count raised, overtime counted when it went to overtime; failures, total, mode and configuration untouched |
| Stats.UpdateGameResultKeepsValid | internal/analysis/calculator.go:12-42 | a game result keeps the statistics consistent (completed = team 1 wins + team 2 wins, overtime and close/blowout counts within the games, at most 1000 score lines) |
| Stats.UpdateFailedSimulation | internal/analysis/calculator.go:45-47 | one more failed game and nothing else; consistency is kept |
| Stats.RecordAllCounts | internal/analysis/calculator.go:12-42 | over any batch of games the statistics stay consistent, completed grows by the number of games, team 1's wins by the games it won and team 2's by the rest |
| Calculator.ClassifyGame | internal/analysis/calculator.go:78-83 | close exactly when the score difference is at most 3, a blowout exactly when it exceeds 10 |
| Calculator.ClassifySymmetric | internal/analysis/calculator.go:78-83 | closeness depends only on the difference, not on who won |
| Calculator.MedianBetween | internal/analysis/calculator.go:162-171 | the median of an ascending list lies between its extremes, with at least half the values on each side |
| Calculator.MedianOfConstant | internal/analysis/calculator.go:162-171 | the median of equal values is that value |
| Calculator.ToScoreLines | internal/analysis/calculator.go:199-207 | one line per map entry with its score, its count and its percentage of all games |
| Calculator.InsertByCount | internal/analysis/calculator.go:210-212 | inserting into a list sorted by descending count keeps it sorted and adds exactly that line |
| Calculator.SortByCount | internal/analysis/calculator.go:210-212 | the lines sorted by descending count, a permutation of the input |
| Calculator.AnalyzeScoreDistribution | internal/analysis/calculator.go:198-220 | at most 10 lines (fewer only when the map is smaller), sorted by descending count, all drawn from the map's lines |
| Calculator.TopLinesDominate | internal/analysis/calculator.go:210-217 | no line left out of the top 10 has a larger count than a line kept |
| Calculator.StatisticalSignificance | internal/analysis/calculator.go:222-237 | fewer than 30 games give 0 and "insufficient data", and only then |
| Calculator.ChiSquareClosedForm | internal/analysis/calculator.go:228-236 | the statistic equals (w1 - w2)^2 / (w1 + w2), so the split is significant exactly when (w1 - w2)^2 > 3.84 (w1 + w2); an even split never is |
| Tournament.RoundRobinSchedule | internal/tournament/tournament.go:61-80 | the schedule: row by row, each later participant paired with the current one and then mirrored; n (n - 1) matches |
| Tournament.PairRow | internal/tournament/tournament.go:64-77 | the inner loop appends, for each later participant, the pairing followed by its mirror |
| Tournament.ScheduleLength | internal/tournament/tournament.go:63-78 | a schedule of n participants has n (n - 1) matches |
| Tournament.ScheduleMirrored | internal/tournament/tournament.go:65-76 | every match at an even position is immediately followed by its mirror |
| Tournament.ScheduledPairsDistinct | internal/tournament/tournament.go:63-64 | every scheduled match pairs two different positions of the participant list |
| Tournament.NoSelfMatch | internal/tournament/tournament.go:63-78 | with distinct names no strategy is ever scheduled against itself |
| Tournament.EveryPairScheduled | internal/tournament/tournament.go:63-78 | every ordered pair of different participants is scheduled |
| Tournament.EffectiveBestOf | internal/tournament/tournament.go:85-87 | a non-positive BestOf becomes 3, a positive one is kept |
| Tournament.Needed | internal/tournament/tournament.go:88 | the wins needed are the least number that is more than half of BestOf |
| Tournament.WinsPlusLosses | internal/tournament/tournament.go:117-121 | every game counts for exactly one side |
| Tournament.RunSeries | internal/tournament/tournament.go:83-127 | the games played are a prefix of the results, at most BestOf long; the two counts sum to it, neither exceeds `needed`, a short series ended with a side at `needed`, and no earlier game had decided it |
| Tournament.StillUndecided | internal/tournament/tournament.go:122-124 | a game played while neither side has `needed` wins leaves every shorter prefix undecided |
| Tournament.OddSeriesDecided | internal/tournament/tournament.go:88-125 | with an odd BestOf every series ends with one side at exactly `needed` wins, so there is no draw |
| Tournament.IndexOf | internal/tournament/tournament.go:131-139 | `idx[name]`: the last position the name was registered at, 0 for a name not registered |
| Tournament.InitialRowsAt | internal/tournament/tournament.go:132-136 | the starting table has, at each position, the strategy's name and all counts zero |
| Tournament.StartRows | internal/tournament/tournament.go:133-136 | the registration loop produces one zero row per strategy, in input order |
| Tournament.CreditSeries | internal/tournament/tournament.go:137-156 | one series credits a Win to the team with more series wins (team 2 on a tie) and a Loss to the other, then every map |
| Tournament.CreditGames | internal/tournament/tournament.go:147-155 | each map credits a map win to its winner's row and a map loss to the other |
| Tournament.ComputeStandings | internal/tournament/tournament.go:130-158 | one row per strategy in input order, then each series updates its two rows as `StandingsOf` says |
| Tournament.StandingsNames | internal/tournament/tournament.go:133-157 | each row keeps its strategy's name through every update |
| Tournament.AddGamesTotals | internal/tournament/tournament.go:147-155 | a series' maps raise total map wins and total map losses each by its number of games, and nothing else |
| Tournament.AddSeriesTotals | internal/tournament/tournament.go:140-155 | each series adds exactly one Win and one Loss to the table |
| Tournament.StandingsTotals | internal/tournament/tournament.go:130-158 | total Wins = total Losses = number of series, total MapWins = total MapLoss = number of games played |
| Tournament.TieGoesToTeam2 | internal/tournament/tournament.go:140-146 | a series with equal wins is credited as a win to team 2 and a loss to team 1 |
| TournamentExport.Names | internal/analysis/tournament_export.go:47-50 | the matrix names are the standings' strategies, one per row, in order |
| TournamentExport.CountSeriesGames | internal/analysis/tournament_export.go:66-75 | the game loop counts team 1's and team 2's wins, which add up to the games played |
| TournamentExport.BuildMatrices | internal/analysis/tournament_export.go:51-81 | n x n matrices starting at zero; each cell holds what the last series that wrote it put there (`TotalsCell`, `WinsCell`) |
| TournamentExport.WriteSeries | internal/analysis/tournament_export.go:63-81 | a series overwrites totals[i][j] and totals[j][i] with its game count and wins[i][j], wins[j][i] with each side's wins; every other cell is unchanged |
| TournamentExport.MatrixConsistent | internal/analysis/tournament_export.go:63-81 | off the diagonal the totals are symmetric and the two win counts add up to the total |
| TournamentExport.LastSeriesWins | internal/analysis/tournament_export.go:77-80 | cells are overwritten, not accumulated: after a series its own counts are in its cells whatever came before |
| TournamentExport.CellOf | internal/analysis/tournament_export.go:100-111 | the diagonal shows "-", a pair with no games "0/0", otherwise won/total with percent = 100 won / total |
| TournamentExport.FixedText | internal/analysis/tournament_export.go:101-106 | the two fixed texts "-" and "0/0 (0.00%)" |
| TournamentExport.Header | internal/analysis/tournament_export.go:91-94 | "strategy" followed by the names in standings order |
| TournamentExport.MatrixLines | internal/analysis/tournament_export.go:96-114 | one line per standings row: its name, then one cell per column as `CellOf` renders it |
| BatchAnalyze.FindMatchupFolders | batch_analyze_tournament.py:15-34 | a missing root gives no folders and no warnings; otherwise the complete `matchup_` directories in listing order, and one warning per incomplete one |
| BatchAnalyze.KeptExactly | batch_analyze_tournament.py:24-30 | a folder is kept exactly when it is in the listing, is a directory named `matchup_...` and holds both files |
| BatchAnalyze.KeptIsSubsequence | batch_analyze_tournament.py:24-30 | the kept folders are a subsequence of the listing: listing order is preserved |
| BatchAnalyze.KeptSorted | batch_analyze_tournament.py:24 | a sorted listing yields sorted folders |
| BatchAnalyze.KeptPlusSkipped | batch_analyze_tournament.py:25-32 | every matchup directory is either kept or warned about exactly once |
| BatchAnalyze.TailTruncate | batch_analyze_tournament.py:70-72 | a message longer than 500 characters becomes its last 500; a shorter one is unchanged |
| BatchAnalyze.AnalyzeMatchup | batch_analyze_tournament.py:36-75 | success exactly when the notebook completed, with no error; a papermill error carries its tail-truncated message, any other error its whole message |
| BatchAnalyze.CollectResults | batch_analyze_tournament.py:146-161 | every completed future lands in exactly one of `successful` and `failed`, in completion order |
| BatchAnalyze.Head | batch_analyze_tournament.py:158-178 | `error[:100]`: the first 100 characters, the whole text when shorter |
| BatchAnalyze.ProgressErrorLine | batch_analyze_tournament.py:157-158 | an error line is printed exactly when the error is non-empty, showing its first 100 characters |
| BatchAnalyze.FailureLines | batch_analyze_tournament.py:177-178 | one line per failure, in order |
| BatchAnalyze.FailureReport | batch_analyze_tournament.py:175-180 | at most the first 10 failures, then "... and K more" with K = failures - 10 exactly when there are more than 10 |
| BatchAnalyze.ExitCode | batch_analyze_tournament.py:107-182 | 1 exactly when the root or notebook is missing or no folder was found; else 0 exactly when nothing failed and 2 otherwise |
| BatchAnalyze.CollectedNames | batch_analyze_tournament.py:146-160 | when each returned analysis carries its folder's name, the success names and failure names together are exactly the completions' folders, each once |
| BatchAnalyze.RunBatch | batch_analyze_tournament.py:77-182 | `main` without the pool, given that `as_completed` yields each submitted folder's future once: the exit code `ExitCode` gives; the success names and failure names together are the discovered folders' names, each once; the failure report; and 0 only when every folder succeeded |
| Probabilities.Atoi | internal/engine/probabilities.go:313 | `strconv.Atoi`: an optional sign and at least one digit, and a result within 64 bits; anything else is an error |
| Probabilities.KeepDigits | internal/engine/probabilities.go:316-321 | the digits of the string, in order, and nothing else |
| Probabilities.AtoiSafe | internal/engine/probabilities.go:312-332 | the parse, else the parse of the collected digits, else 50, as `AtoiSafeSpec` states |
| Probabilities.AtoiOfDigits | internal/engine/probabilities.go:313 | a non-empty digit string within range parses to its digit value |
| Probabilities.AtoiOfNegated | internal/engine/probabilities.go:313 | a minus sign before such a string negates its value |
| Probabilities.AtoiSafeReadsIntToString | internal/engine/probabilities.go:312-332 | round trip: the `%d` text of any 64-bit integer reads back as that integer |
| Probabilities.AtoiSafeFallback | internal/engine/probabilities.go:314-329 | when the parse fails the result is the value of the digits in order, or 50 when there are none or they overflow; never negative |
| Probabilities.KeepDigitsAppend | internal/engine/probabilities.go:317-321 | collecting the digits of a join collects those of each part |
| Probabilities.AtoiSafeSkipsNonDigits | internal/engine/probabilities.go:314-329 | characters before the digits are skipped and a sign among them is lost: "p45" reads as 45 |
| Probabilities.FirstMinimum | internal/engine/probabilities.go:300-308 | the index of the smallest distance; every earlier distance is strictly larger |
| Probabilities.FirstMinimumUnique | internal/engine/probabilities.go:300-308 | those two properties determine the index |
| Probabilities.NearestKeyNearest | internal/engine/probabilities.go:296-309 | the chosen key is one of the keys and no key lies nearer the target |
| Probabilities.CsfPercentKeyNearest | internal/engine/probabilities.go:286-310 | the key chosen for p is one of the keys and none is nearer 100 p |
| Probabilities.CsfPercentKeyFirstOfTies | internal/engine/probabilities.go:304 | among equally near keys the first in iteration order wins (the comparison is strict) |
| Probabilities.CsfPercentKeyForProb | internal/engine/probabilities.go:286-310 | "50" for an empty map, else the first key nearest 100 p |
| Probabilities.NearestIndex | internal/engine/probabilities.go:296-309 | the loop finds the first index of minimal distance and its key |
| Probabilities.FirstReaching | internal/engine/probabilities.go:111-119 | the first index whose running total reaches the draw, with every earlier total below it; none when no total reaches it |
| Probabilities.SelectCumulative | internal/engine/probabilities.go:376-383 | the accumulation loop stops at the first index whose running total reaches the draw |
| Probabilities.SimpleReason | internal/engine/probabilities.go:83-95 | "Elimination" exactly when the draw is below 0.70 (CT) or 0.68 (T), else "Defused" or "Exploded" |
| Probabilities.DetermineRoundEndReason | internal/engine/probabilities.go:79-123 | the simple fallback without a distribution, "Elimination" for an empty side, else the first reason whose cumulative percentage reaches 100 u, else the first reason |
| Probabilities.Lookup | internal/engine/probabilities.go:407-414 | a value is found exactly when the key is among the map's keys |
| Probabilities.SampleRoundEndFromABM | internal/engine/probabilities.go:336-388 | the fallback without models; a missing or empty side recurses forever; else the first reason of the nearest bucket whose cumulative probability reaches r, the first reason, or "Elimination" |
| Probabilities.SurvivorFallback | internal/engine/probabilities.go:395-404 | 3 exactly for code "8", 0 exactly for codes "7" and "1", else 2 |
| Probabilities.SampleSurvivorsFromABM | internal/engine/probabilities.go:392-441 | the fallback without models; 0 for a missing side or reason; else the survivors of the first entry of the nearest bucket whose cumulative probability reaches r, the first entry's, or 0 |
| Probabilities.EquipmentFallback | internal/engine/probabilities.go:447-450 | nothing without survivors, else 100 per survivor |
| Probabilities.EquipmentFallbackMonotone | internal/engine/probabilities.go:447-450 | more survivors never save less under the fallback |
| Probabilities.SampleEquipmentSavedFromABM | internal/engine/probabilities.go:444-471 | the fallback without models; 0 for a missing side or reason; the mean under the survivor count's key, else the first bucket's, else 0 |
| Probabilities.EquipmentSavedUsesSurvivorKey | internal/engine/probabilities.go:461-470 | a bucket stored under the survivor count's `%d` text is the one used |
| StrategyRegistry.StrLeTotal | internal/strategy/registry.go:72 | the string order `sort.Strings` uses is total |
| StrategyRegistry.StrLeAntisymmetric | internal/strategy/registry.go:72 | the string order is antisymmetric |
| StrategyRegistry.StrLeTransitive | internal/strategy/registry.go:72 | the string order is transitive |
| StrategyRegistry.InsertSorted | internal/strategy/registry.go:72 | inserting a name into a sorted list keeps it sorted |
| StrategyRegistry.SortStringsCorrect | internal/strategy/registry.go:72 | sorting yields a sorted permutation of its input |
| StrategyRegistry.SortedUnique | internal/strategy/registry.go:72 | two sorted lists holding the same names are equal |
| StrategyRegistry.SortIgnoresOrder | internal/strategy/registry.go:68-72 | the sorted list does not depend on the order the names were collected in |
| StrategyRegistry.ValidateStrategy | internal/strategy/registry.go:48-55 | no error exactly for a registered name; otherwise the error names it and lists every registered name in sorted order |
| StrategyRegistry.GetStrategy | internal/strategy/registry.go:58-64 | the registered strategy exactly for a registered name, else the error "unknown strategy: name" |
| StrategyRegistry.ValidateAgreesWithGet | internal/strategy/registry.go:48-64 | a name validates exactly when it can be looked up |
| StrategyRegistry.RegistryNamesAreKeys | internal/strategy/registry.go:13-45 | the 20 declared names are exactly the registry's keys |
| StrategyRegistry.GetAvailableStrategies | internal/strategy/registry.go:67-74 | the names collected in iteration order, sorted: a sorted permutation of what the map yields |
| StrategyRegistry.AvailableFromAnyOrder | internal/strategy/registry.go:67-74 | whatever the map's iteration order, the result is the same sorted list of exactly the registry's keys |
| CustomStrategies.ValidateWith | cmd/custom.go:98-118 | no error exactly when both names are accepted; team 1's unknown name is reported before team 2's |
| CustomStrategies.ValidateStrategiesAsWritten | cmd/custom.go:98-118 | accepts exactly the six names of the map, with the five-name list in its messages |
| CustomStrategies.AcceptedButNotListed | cmd/custom.go:105-113 | "adaptive_eco_v2" is accepted but missing from the list the errors print |
| CustomStrategies.ValidateStrategies | cmd/custom.go:98-118 | the same acceptance, with errors listing every accepted name |
| CustomStrategies.ListedIsAccepted | cmd/custom.go:99-106 | the corrected list names exactly the accepted strategies, each once |
| IdGeneration.DigitFor | util/id_generation.go:30-38 | a byte becomes a decimal digit whose value is (byte + 1) mod 10 |
| IdGeneration.DigitForEnds | util/id_generation.go:30-38 | bytes ending in 0 give '1', bytes ending in 9 give '0'; only the byte's last decimal digit matters |
| IdGeneration.GenerateRandomString | util/id_generation.go:29-41 | fewer random bytes than asked is the panic (None); otherwise exactly `max` digits, the i-th the table digit of the i-th byte |
| IdGeneration.HostName | util/id_generation.go:13-17 | the system's host name, or "host" when the lookup fails |
| IdGeneration.PadValue | util/id_generation.go:23 | a zero-padded number reads back as the number |
| IdGeneration.FormatTimestamp | util/id_generation.go:23 | the layout "20060102_150405": 15 characters, digits around an underscore at position 8 |
| IdGeneration.CreateGameID | util/id_generation.go:11-26 | None exactly when fewer than 4 random bytes come; otherwise the time stamp, "_", the host name, "_" and four random digits |
| Strategies.MinMax | internal/strategy/min_max.go:3-40 | all funds or nothing: all in every forced regulation round (the first three of a half, a score at the half length, the last two of a half) and whenever the overtime half has at most 3 rounds; otherwise spend exactly when the round mod 6 is at most 3 |
| Strategies.MinMaxPeriodic | internal/strategy/min_max.go:20-26 | past the forced rounds the regulation pattern repeats every six rounds |
| Strategies.MinMaxV4 | internal/strategy/min_max_v4.go:3-27 | all funds or nothing; all in on odd rounds and on round 1 and the half length |
| Strategies.MinMaxV4Alternates | internal/strategy/min_max_v4.go:3-27 | outside the first and last rounds of the regulation halves it spends on odd rounds and saves on even ones |
| Strategies.Casual | internal/strategy/casual.go:3-34 | with non-negative funds it spends between 0 and the funds; outside the round and score rules it follows the $10000 / $25000 / $40000 thresholds |
| Strategies.CasualKeepsSafetyMargin | internal/strategy/casual.go:22-33 | between $10000 and $40000 at most $10000 is kept back, and from $25000 everything is spent |
| Strategies.SmartV1Share | internal/strategy/smart_v1.go:3-31 | the share spent lies between 20% and 100%, and is all on the last round of a half and on pistol rounds |
| Strategies.SmartV1 | internal/strategy/smart_v1.go:3-31 | with non-negative funds it spends between 20% of the funds and the funds, all of them on the last round of a half and on pistol rounds |
| Strategies.SmartV1LossMonotone | internal/strategy/smart_v1.go:17-29 | a longer losing streak never makes it spend less |
| Strategies.AllInV2Share | internal/strategy/all_in_v2.go:3-28 | the share lies between 20% and 100%, and is at least 90% except right after a single loss |
| Strategies.AllInV2 | internal/strategy/all_in_v2.go:3-28 | with non-negative funds it spends between 0 and the funds, at least 90% of them except right after a single loss |
| Strategies.StreakRatioBounds | internal/strategy/anti_allin.go:25-32 | the share after a winning streak never drops below 40% nor exceeds all |
| Strategies.AntiAllin | internal/strategy/anti_allin.go:5-37 | never more than the funds; nothing right after a lost pistol round; non-negative whenever an opponent survived or the winning streak exceeds two |
| Strategies.AntiAllinV2 | internal/strategy/anti_allin_V2.go:5-63 | never more than the funds, non-negative outside the opponent-wipe branch; the wipe branch needs a non-empty loss-bonus table |
| Strategies.OpponentBonusIndexInRange | internal/strategy/anti_allin_V2.go:25-27 | the capped loss-bonus step always lands inside a non-empty table |
| Strategies.ExpectedValue | internal/strategy/expected_value.go:5-27 | all in on the last round of a half; otherwise the mean of the expected win earnings and the next loss bonus, never above the funds |
| Strategies.ExpectedValueNonNegative | internal/strategy/expected_value.go:5-27 | with non-negative rewards and funds the amount is non-negative |
| Strategies.AntiAllinV3 | internal/strategy/anti_allin_v3.go:5-68 | all in on the last round of a half; never above funds + equipment; nothing after a loss it cannot cover unless a team is one or two rounds from winning; the funds split evenly over the overtime half otherwise in overtime |
| Strategies.AntiAllinV3AsWritten | internal/strategy/anti_allin_v3.go:22-23 | the code as written panics (None) exactly in the win-streak branch when the streak is at least the loss-bonus table's length |
| Strategies.AntiAllinV3AgreesInRange | internal/strategy/anti_allin_v3.go:5-68 | wherever the streak stays inside the table, the code as written and the corrected version agree |
| Strategies.AntiAllinV3FiveWinsPanics | internal/strategy/anti_allin_v3.go:22-23 | with the default five-entry table a five-round win streak indexes past the table |
| Strategies.AntiAllinV3StreakBound | internal/strategy/anti_allin_v3.go:20-35 | in the corrected version the step stays inside the table and the amount never exceeds funds + equipment |
| Strategies.LoadConfig | internal/strategy/anti_allin_v3_copy.go:117-151 | the first decodable configuration with all three ratios positive, else the defaults 1.15 / 0.3 / 0.8; the result always has positive ratios |
| Strategies.AntiAllinV3Copy | internal/strategy/anti_allin_v3_copy.go:22-108 | all in on the last round of a half and when a team is one or two rounds from winning; never above funds + equipment; nothing after a loss when funds and equipment are below the overturn threshold of the opponent's expected all-in |
| EcoModels.DetermineRoundType | internal/models/adaptive_eco_v1.go:69-91 | pistol exactly in rounds 1 and 16, anti-eco exactly in 2 and 17, force-buy exactly in 14-15 and 29-30, eco exactly in the other rounds after 4 that are one past a multiple of three |
| EcoModels.ScoreImportance | internal/models/adaptive_eco_v1.go:94-115 | 1.2 exactly when the derived score gap is within two, 1.4 exactly when behind by three or more, 0.9 exactly when ahead by three or more; the neutral 1.0 is unreachable |
| EcoModels.AssessEconomicState | internal/models/adaptive_eco_v1.go:118-130 | rich exactly from $50000, poor exactly below $10000 |
| EcoModels.EconomicStateMonotone | internal/models/adaptive_eco_v1.go:118-130 | more funds never give a poorer class |
| EcoModels.BaseInvestment | internal/models/adaptive_eco_v1.go:133-153 | with non-negative funds a non-negative share of at most 70% of the funds, never above $20000 |
| EcoModels.FinalBoundsV1 | internal/models/adaptive_eco_v1.go:60-62 | never above the funds or $20000; at least $1500 when the funds allow it; exactly the funds below $1500 |
| EcoModels.AdaptiveV1 | internal/models/adaptive_eco_v1.go:10-66 | whatever the round and score modifiers do, the amount is at most the funds and $20000, at least $1500 when the funds allow it, and the whole funds below $1500 |
| EcoModels.AssessEconomicStateV2 | internal/models/adaptive_eco_v2.go:36-51 | healthy exactly from $17500, moderate exactly in [$12500, $17500), poor exactly in [$5000, $12500), critical exactly below $5000 |
| EcoModels.BaseInvestmentV2 | internal/models/adaptive_eco_v2.go:54-67 | with non-negative funds a non-negative share of at most 75% of the funds, never above $20000 |
| EcoModels.ApplyRoundModifiersV2 | internal/models/adaptive_eco_v2.go:70-99 | a pistol round spends at least the smaller of 80% of the funds and $4000; a winning anti-eco round at most $10000; otherwise overtime at most 90% of the funds |
| EcoModels.SideFactorV2 | internal/models/adaptive_eco_v2.go:132-156 | the side adjustment scales the investment by a factor between 0.85 and 1.15 |
| EcoModels.LossBonusFactorV2 | internal/models/adaptive_eco_v2.go:159-172 | the factor lies in [0.9, 1.4], is 1.4 from four losses on and 1.0 after exactly one loss |
| EcoModels.ApplySafetyChecksV2 | internal/models/adaptive_eco_v2.go:175-196 | never above the funds or $22500; $2500 kept back when the funds exceed $5000; at least $1000 when the funds allow it; an investment already inside these bounds is left unchanged |
| EcoModels.AdaptiveV2 | internal/models/adaptive_eco_v2.go:8-33 | the final amount is at most the funds and $22500, keeps $2500 back above $5000 and is at least $1000 when the funds allow it |
| EcoModels.Scrooge | internal/models/scrooge.go:6-18 | exactly $1500 when the funds reach it, otherwise 80% of the funds |
| EcoModels.DefaultHalf | internal/models/default_half.go:3-11 | all funds in rounds 15 and 30, exactly half of them otherwise |
| EcoModels.DefaultHalfReadsRoundAndFunds | internal/models/default_half.go:3-11 | two contexts with the same round and funds get the same amount |
| MlModels.NextNode | internal/strategy/ml_xgboost.go:66-99 | one step of the walk: stop at a leaf, at a split index outside the features or at a missing child; otherwise the left child when the feature is below the split condition and the right child when it is not, always a later node |
| MlModels.Reached | internal/strategy/ml_xgboost.go:66-99 | the walk ends at a node no earlier than where it started and inside the tree |
| MlModels.ReachedStops | internal/strategy/ml_xgboost.go:66-99 | the node the walk ends at is one where no further step is taken |
| MlModels.PredictXgbTree | internal/strategy/ml_xgboost.go:66-99 | the loop returns the base weight of the node the walk ends at |
| MlModels.XgbMargin | internal/strategy/ml_xgboost.go:102-111 | the margin is the base score plus the leaf value of every tree |
| MlModels.LeafSumBounds | internal/strategy/ml_xgboost.go:102-111 | with every base weight in [lo, hi] the sum over k trees lies in [k·lo, k·hi] |
| MlModels.XgbFeatures | internal/strategy/ml_xgboost.go:117-159 | seven features; the difference is CT score minus T score; the team's own score, funds and equipment go to the CT slots when it plays CT and to the T slots otherwise |
| MlModels.XgbFeaturesAgreeAcrossTeams | internal/strategy/ml_xgboost.go:117-159 | the two teams of one round, each seen from its own side, build the same feature vector |
| MlModels.ClampedShare | internal/strategy/ml_tree.go:109-110 | the share lies in [0, 1] and a prediction already there is kept |
| MlModels.XgbInvest | internal/strategy/ml_xgboost.go:162-177 | fails exactly when the model did not load (its error is ignored); otherwise between 0 and the funds, the funds times the probability when that lies in [0, 1] |
| MlModels.FeatureValue | internal/strategy/ml_tree.go:54 | a feature the map lacks reads as 0, otherwise its stored value |
| MlModels.PredictNode | internal/strategy/ml_tree.go:49-59 | a leaf gives its value; a missing child fails |
| MlModels.PredictionIsLeafValue | internal/strategy/ml_tree.go:49-59 | every prediction is the value of one of the tree's leaves |
| MlModels.MissingFeatureIsZero | internal/strategy/ml_tree.go:54 | adding a feature set to 0 never changes a prediction |
| MlModels.TreeInvest | internal/strategy/ml_tree.go:95-114 | the fallback amount when the model did not load; otherwise fails exactly when the walk fails, and is the funds times the prediction clamped to [0, 1], so between 0 and the funds |
| MlModels.ForestPredict | internal/strategy/ml_forest.go:53-59 | the loop computes the mean of the tree predictions, failing on a failed tree or an empty forest |
| MlModels.NoneStaysNone | internal/strategy/ml_forest.go:53-59 | once a tree fails, every longer running total fails |
| MlModels.NoneFrom | internal/strategy/ml_forest.go:53-59 | a failed tree makes the running total over any longer prefix fail |
| MlModels.UniformForestSum | internal/strategy/ml_forest.go:53-59 | when every tree predicts v, the total over k trees is k·v |
| MlModels.UniformForestMean | internal/strategy/ml_forest.go:53-59 | when every tree of a non-empty forest predicts v, the forest predicts v |
| MlModels.ForestInvest | internal/strategy/ml_forest.go:95-114 | the fallback amount when the model did not load; otherwise fails exactly when the mean fails, and is the funds times the mean prediction clamped to [0, 1], so between 0 and the funds |
| XenModel.Lookup | internal/strategy/xen_model.go:28-83 | a key names at most one entry, and the entry found carries that key |
| XenModel.LookupKey | internal/strategy/xen_model.go:28-83 | every entry is found under its own key, so the six keys are distinct |
| XenModel.EncodedValuesDistinct | internal/strategy/xen_model.go:28-83 | the six entries carry the six distinct model codes 0 to 5, and each code names exactly one entry |
| XenModel.GetBuyTypeByEncodedValue | internal/strategy/xen_model.go:360-367 | whatever the map's iteration order, the definition whose code matches, and the zero value for any other code |
| XenModel.DefinitionSane | internal/strategy/xen_model.go:28-83 | every entry has a name, a minimum spend between 0 and its maximum spend, and a positive maximum spend |
| XenModel.Investment | internal/strategy/xen_model.go:258-271 | -1 exactly when the equipment is outside the entry's range or the funds miss its minimum spend; otherwise the funds or the maximum spend, whichever is smaller |
| XenModel.InvestmentForBuyType | internal/strategy/xen_model.go:252-272 | 0 for an unknown key, otherwise that entry's investment |
| XenModel.CanAffordBuyType | internal/strategy/xen_model.go:275-288 | true exactly for a named buy type whose equipment range holds the equipment and whose minimum spend the funds reach |
| XenModel.AffordableIffInvestment | internal/strategy/xen_model.go:252-288 | for every entry, affordability and a non-negative investment agree |
| XenModel.XenFeatures | internal/strategy/xen_model.go:204-233 | nine features: the difference is CT minus T score, the money is divided by 999999, the two buy codes are placed as given, and the team's own values take the CT or T slots by side |
| XenModel.CTWinProbability | internal/strategy/xen_model.go:236-249 | the prediction clamped to [0, 1] |
| XenModel.OwnWinProbability | internal/strategy/xen_model.go:329-334 | the team's own win probability (the complement on the T side) lies in [0, 1] |
| XenModel.WorstCaseUpTo | internal/strategy/xen_model.go:320-341 | the worst case over the first opponent codes lies in [0, 1] |
| XenModel.WorstCaseIsLowest | internal/strategy/xen_model.go:320-341 | no affordable opponent buy type gives the team a lower win probability than the worst case |
| XenModel.WorstCaseWinProb | internal/strategy/xen_model.go:320-341 | the inner loop computes the worst case over the opponent's affordable buy types |
| XenModel.SelectedUnique | internal/strategy/xen_model.go:344-348 | the minimax choice (best worst case above 0, first of equals in iteration order) names at most one buy type |
| XenModel.ReachablePositive | internal/strategy/xen_model.go:258-271 | with positive funds every reachable buy type needs a positive investment, so the eco fallback is taken only when nothing is selected |
| XenModel.XenInvest | internal/strategy/xen_model.go:293-357 | panics (`None`) exactly when the model fails to load; otherwise between 0 and the funds, the eco fallback when no reachable buy type has a worst case above 0, and else the investment of the minimax choice (the eco fallback only if that investment is 0), which with positive funds is that positive investment |
| Converters.ConvertGameToMatchData | internal/database/converters.go:13-65 | an error exactly when the rules encoder fails, wrapped with "failed to marshal game rules: "; otherwise the record keeps every input, names the team with more rounds (or "draw") as winner, flags overtime exactly when overtime rounds were played, and holds the rules JSON, empty when no rules were given |
| Converters.WinnerSymmetric | internal/database/converters.go:27-32 | listing the teams the other way round names the same winner, and "draw" is stored exactly when the scores are equal |
| Converters.ConvertRoundToRoundData | internal/database/converters.go:68-128 | the economic advantage and spending differential are team 1's start funds and spending minus team 2's; the pistol and eco flags follow their rules; both sides are stored unchanged |
| Converters.RoundSwapSides | internal/database/converters.go:88-95 | converting with the sides exchanged negates both edges and keeps the pistol and eco flags |
| Converters.PistolRoundsOfAGame | internal/database/converters.go:92 | in regulation the pistol rounds are exactly rounds 1 and 16; in overtime only round 1 |
| Converters.CountsBounded | internal/database/converters.go:132-239 | the wins, overtime matches, rounds won and rounds played by the strategy among the first n items are between 0 and n |
| Converters.ShareBetweenZeroAndOne | internal/database/converters.go:132-239 | a count of at most den items over den is a share in [0, 1] |
| Converters.CalculateBatchSummaryStats | internal/database/converters.go:132-239 | the loops count every match, win, overtime, round and round won; losses are the matches not won; every rate is its count over its denominator and 0 when that is empty; win rate and overtime frequency lie in [0, 1]; standard deviation and consistency stay 0 |
| Converters.RoundsWonAtMostOwn | internal/database/converters.go:132-239 | when every round is won by one of its teams, the strategy wins no more rounds than it plays |
| Converters.MatchTotals | internal/database/converters.go:147-156 | the match loop counts the strategy's wins, the rounds played, the overtime matches and the summed duration |
| Converters.RoundTotals | internal/database/converters.go:162-180 | the round loop counts the strategy's round wins and its own rounds and sums its funds, spending and equipment value over them |
| AdvancedCalculator.EdgesPerRound | internal/analysis/advanced_calculator.go:112-129 | processing a game keeps the earlier advantages and appends one economic and one equipment edge per round, team 1's value minus team 2's, in round order |
| AdvancedCalculator.DecisionsPerRound | internal/analysis/advanced_calculator.go:161-177 | each round appends two spending decisions, team 1's then team 2's, with opposite round results |
| AdvancedCalculator.HalfSidesPerRound | internal/analysis/advanced_calculator.go:134-147 | each round appends one half-side entry carrying its 1-based round number, in the first half exactly when within the half length |
| AdvancedCalculator.SeriesAfterGame | internal/analysis/advanced_calculator.go:229-258 | adding a game of n rounds keeps every point under its own round number with wins adding up to games, creates exactly the points of rounds 1..n and counts the game once at each of them and nowhere else |
| AdvancedCalculator.RunsTiled | internal/analysis/advanced_calculator.go:180-222 | the streaks of a game tile its rounds in order and consecutive streaks belong to different teams |
| AdvancedCalculator.RunsUniform | internal/analysis/advanced_calculator.go:180-222 | every round of a streak was won by the streak's team |
| AdvancedCalculator.RunsLength | internal/analysis/advanced_calculator.go:180-222 | together the streaks are exactly as long as the rounds they split |
| AdvancedCalculator.RunsPartition | internal/analysis/advanced_calculator.go:180-222 | the streaks are the maximal runs of one winner: tiled, alternating, uniform and exactly covering the game |
| AdvancedCalculator.GameStreaksWellShaped | internal/analysis/advanced_calculator.go:261-282 | every recorded streak spans its length (end round - start round + 1) and its changes are end edge minus start edge |
| AdvancedCalculator.GameStreaksCoverRounds | internal/analysis/advanced_calculator.go:180-222 | for one game the lengths of the two teams' recorded streaks add up to the number of rounds |
| AdvancedCalculator.AddAttemptsGroups | internal/analysis/advanced_calculator.go:322-361 | each deficit's list grows by exactly the new attempts with that deficit, in order |
| AdvancedCalculator.AttemptsShape | internal/analysis/advanced_calculator.go:285-367 | every filed attempt is keyed by a positive deficit, starts at a round after which the eventual winner trailed, names the eventual winner and is marked a success |
| AdvancedCalculator.AttemptsWhenTrailing | internal/analysis/advanced_calculator.go:296-300 | an attempt is filed after a round exactly when the eventual winner trails after it |
| AdvancedCalculator.TrackStep | internal/analysis/advanced_calculator.go:186-206 | one round of streak tracking keeps the open streak on the last run and adds to each list exactly what the round closes |
| AdvancedCalculator.TrackerAfterTracks | internal/analysis/advanced_calculator.go:104-206 | after any number of rounds the open streak describes the last run of winners so far |
| AdvancedCalculator.FinalStreaks | internal/analysis/advanced_calculator.go:209-222 | the streaks closed during the game plus the one still open at its end are the game's streaks |
| AdvancedCalculator.AdvancedAnalyzer.constructor | internal/analysis/advanced_calculator.go:77-92 | a new analyzer has recorded nothing |
| AdvancedCalculator.AdvancedAnalyzer.RecordRound | internal/analysis/advanced_calculator.go:113-177 | one round appends its two edges, its half-side entry, its win-condition sample and its two spending decisions, and adds itself to the time series |
| AdvancedCalculator.AdvancedAnalyzer.UpdateTimeSeries | internal/analysis/advanced_calculator.go:229-258 | the point of the round number, created if missing, counts one more game and adds the round's figures and winner |
| AdvancedCalculator.AdvancedAnalyzer.RecordStreak | internal/analysis/advanced_calculator.go:261-282 | the streak record, with its changes as end minus start, goes to team 1's list when the team is "Team1" and to team 2's otherwise; the other list is unchanged |
| AdvancedCalculator.AdvancedAnalyzer.ProcessGame | internal/analysis/advanced_calculator.go:95-226 | every per-round list grows by its per-round entries in order, the time series counts the game at rounds 1..n, each team's streak list grows by exactly the game's maximal runs of that team, and the comeback attempts are filed by deficit; a game without rounds changes nothing |
| AdvancedCalculator.AdvancedAnalyzer.ProcessRounds | internal/analysis/advanced_calculator.go:100-225 | the same new state as ProcessGame for a game with rounds |
| AdvancedCalculator.AdvancedAnalyzer.RecordRounds | internal/analysis/advanced_calculator.go:112-177 | the round loop's per-round records, in round order |
| AdvancedCalculator.AdvancedAnalyzer.RecordStreaks | internal/analysis/advanced_calculator.go:104-222 | each team's list grows by exactly that team's streaks of the game |
| AdvancedCalculator.AdvancedAnalyzer.TrackStreaks | internal/analysis/advanced_calculator.go:104-206 | after the loop the lists hold the streaks of the runs closed so far and the tracker holds the run still open |
| AdvancedCalculator.AdvancedAnalyzer.TrackRound | internal/analysis/advanced_calculator.go:180-206 | the same winner extends the open streak; a new winner records the open one with this round's edges and opens a streak here |
| AdvancedCalculator.AdvancedAnalyzer.CloseFinalStreak | internal/analysis/advanced_calculator.go:209-222 | the streak still open after the last round is recorded with the last round's edges |
| AdvancedCalculator.AdvancedAnalyzer.AnalyzeComebacks | internal/analysis/advanced_calculator.go:285-367 | the scenarios map grows by exactly the attempts of the rounds after which the eventual winner trailed, each under its deficit |
| AdvancedCalculator.AverageEdgesFrom | internal/analysis/advanced_calculator.go:300-320 | the mean economic and equipment edges of one team over the remaining rounds |
| AdvancedCalculator.EdgesFrom | internal/analysis/advanced_calculator.go:303-306 | the team's edge in each remaining round, in order |
| AdvancedCalculator.SumOf | internal/analysis/advanced_calculator.go:311-318 | the loop's total is the sum of the values |
| AdvancedAnalysisModel.NewAdvancedAnalysis | internal/analysis/advanced_analysis.go:354-393 | a fresh analysis has every list empty and every count zero |
| AdvancedAnalysisModel.MinMaxBound | internal/analysis/advanced_analysis.go:460-470 | every value lies between the smallest and the largest found |
| AdvancedAnalysisModel.MinMax | internal/analysis/advanced_analysis.go:460-470 | the first loop finds the smallest and the largest value |
| AdvancedAnalysisModel.FirstBin | internal/analysis/advanced_analysis.go:484-491 | the bin a value is counted in is the first that takes it, and no earlier bin does |
| AdvancedAnalysisModel.SumFrequenciesIsTotal | internal/analysis/advanced_analysis.go:484-491 | the bins' frequencies add up as the per-bin counts do |
| AdvancedAnalysisModel.TotalIsLanded | internal/analysis/advanced_analysis.go:484-491 | each value is counted in at most one bin: the frequencies add up to the values that landed |
| AdvancedAnalysisModel.Covered | internal/analysis/advanced_analysis.go:476-489 | with exact arithmetic the bins cover [min, max]: a value in range at or above bin i's lower edge lands in bin i or later |
| AdvancedAnalysisModel.AllLanded | internal/analysis/advanced_analysis.go:473-491 | every value between the smallest and the largest lands in some bin |
| AdvancedAnalysisModel.InitBins | internal/analysis/advanced_analysis.go:476-481 | numBins empty bins, bin i spanning [min + i·width, min + (i+1)·width] |
| AdvancedAnalysisModel.CountValue | internal/analysis/advanced_analysis.go:485-490 | one value is counted into the first bin that takes it, if any, and the percentages are untouched |
| AdvancedAnalysisModel.CountValues | internal/analysis/advanced_analysis.go:484-491 | after the loop every bin's frequency is the number of values whose first bin it is |
| AdvancedAnalysisModel.FillPercentages | internal/analysis/advanced_analysis.go:494-497 | each bin's percentage is its frequency over the total, times 100 |
| AdvancedAnalysisModel.CreateHistogramBins | internal/analysis/advanced_analysis.go:455-500 | no bins for no values; otherwise numBins bins of equal width from the smallest to the largest value, adjacent bins sharing an edge, each frequency the count of values whose first bin it is, each percentage its share of the values, and the frequencies adding up to the number of values |
| AdvancedAnalysisModel.HistogramCountsEveryValue | internal/analysis/advanced_analysis.go:455-500 | with exact arithmetic the bins' frequencies add up to the number of values |
| AdvancedAnalysisModel.EqualValuesInLastBin | internal/analysis/advanced_analysis.go:473-489 | when all values are equal the width is 0 and every value falls in the last bin |
| AdvancedAnalysisModel.CalculateCorrelation | internal/analysis/advanced_analysis.go:418-452 | the two passes (sums, then deviations) yield the correlation `CorrelationOf` defines: none for series of different or zero length or when either has no variance, otherwise the co-deviation over the root of the product of the squared deviations |
| AdvancedAnalysisModel.CorrelationProperties | internal/analysis/advanced_analysis.go:418-452 | a reported correlation divides by the root of a positive number, so the division is defined; and correlating x with y gives the same as y with x |
| AdvancedAnalysisModel.SumProductsSymmetric | internal/analysis/advanced_analysis.go:440-446 | the co-deviation sum is symmetric in the two series |
| AdvancedAnalysisModel.SumPair | internal/analysis/advanced_analysis.go:426-432 | the first loop sums both series |
| AdvancedAnalysisModel.Deviations | internal/analysis/advanced_analysis.go:440-446 | the second loop computes the co-deviation and both sums of squared deviations |
| AdvancedAnalysisModel.SumSquaresNonNegative | internal/analysis/advanced_analysis.go:440-446 | a sum of squared deviations is never negative |
| AdvancedAnalysisModel.ConstantSeriesNoCorrelation | internal/analysis/advanced_analysis.go:448-450 | a constant series has its value as mean and no variance, so its correlation with anything is 0 |
| AdvancedAnalysisModel.Swap | internal/analysis/advanced_analysis.go:503-507 | two neighbouring streaks are exchanged and nothing else changes |
| AdvancedAnalysisModel.InsertStreak | internal/analysis/advanced_analysis.go:503-507 | one more streak joins the descending prefix, and the streaks are only rearranged |
| AdvancedAnalysisModel.SortStreaksByLength | internal/analysis/advanced_analysis.go:503-507 | the streaks end in descending length order and are a permutation of the original ones |
| AdvancedAnalysisModel.FirstIsLongest | internal/analysis/advanced_analysis.go:503-507 | after the sort the first streak is a longest one |
| AdvancedCalculator.AdvancedAnalyzer.Finalize | internal/analysis/advanced_calculator.go:370-393 | the analysis holds the momentum, win conditions, comeback statistics (rate 1 for every deficit), half/side effects, averaged time series and streak summaries and impacts of everything recorded; the streak lists end sorted longest first, and the analyzer is still ready for more games |
| AdvancedCalculator.AdvancedAnalyzer.FinalStatistics | internal/analysis/advanced_calculator.go:371-384 | the steps before the streak analysis compute each statistic from the recorded data and change nothing |
| AdvancedCalculator.ComebacksAlwaysSucceed | internal/analysis/advanced_calculator.go:632-659 | since only successful comebacks are filed, each deficit's scenario has at least one attempt, as many successes as attempts and rate 1 |
| AdvancedCalculator.AllComebacksSucceed | internal/analysis/advanced_calculator.go:632-659 | every entry of the comeback statistics has success rate 1 |
| AdvancedCalculator.ScenariosAfterAttempts | internal/analysis/advanced_calculator.go:322-364 | filing successful attempts under their positive deficits keeps every list non-empty, successful and filed under its own deficit |
| AdvancedCalculator.ScenariosAfterGame | internal/analysis/advanced_calculator.go:285-367 | the comebacks of a game keep the scenarios map in that shape |
| AdvancedFinalize.AdvantageSign | internal/analysis/advanced_calculator.go:425-430 | a funds edge counts as momentum for team 1 exactly above 5000, for team 2 exactly below -5000, and as neutral in between |
| AdvancedFinalize.MomentumInvariant | internal/analysis/advanced_calculator.go:419-447 | after any prefix of the rounds the shifts are the sign changes so far, closed and open runs hold every non-neutral round, one closed run per change, each run at least one round |
| AdvancedFinalize.DurationsCoverSigns | internal/analysis/advanced_calculator.go:419-452 | the shift count is the number of sign changes, the reported runs add up to the non-neutral rounds, there is one run more than shifts (none without a non-neutral round) and every run is at least one round |
| AdvancedFinalize.MomentumMeaning | internal/analysis/advanced_calculator.go:396-484 | the averages are the means of the edges, shifts are sign changes, and the average run length is the non-neutral rounds over the number of runs, at least 1 when there is one |
| AdvancedFinalize.WinsPartition | internal/analysis/advanced_calculator.go:472-478 | every sampled round is won by exactly one team |
| AdvancedFinalize.SumEdges | internal/analysis/advanced_calculator.go:402-407 | the first loop sums both edge lists |
| AdvancedFinalize.CountMomentum | internal/analysis/advanced_calculator.go:419-452 | the momentum loop yields the shift count and the run lengths of the momentum specification |
| AdvancedFinalize.AverageDuration | internal/analysis/advanced_calculator.go:456-462 | the average run length is the sum of the runs over their number, 0 when there are none |
| AdvancedFinalize.SampleTotals | internal/analysis/advanced_calculator.go:465-478 | the spending loop counts each team's wins and sums what each team spent |
| AdvancedFinalize.CalculateEconomicMomentum | internal/analysis/advanced_calculator.go:396-484 | the momentum figures are those `MomentumOf` defines, all zero when no round was recorded |
| AdvancedFinalize.TailHits | internal/analysis/advanced_calculator.go:504-523 | ascending cut points make ranges with no overlap and no gap: an edge at or above the lowest bound lands in exactly one range, any other edge in none |
| AdvancedFinalize.CutsAscending | internal/analysis/advanced_calculator.go:493-550 | the cut points of both range tables ascend and stay below MaxFloat64 |
| AdvancedFinalize.WinInBound | internal/analysis/advanced_calculator.go:517-522 | a range never counts more team 1 wins than samples |
| AdvancedFinalize.SizesAreTotals | internal/analysis/advanced_calculator.go:525-535 | leaving out the empty ranges loses no sample |
| AdvancedFinalize.TotalInTail | internal/analysis/advanced_calculator.go:504-536 | over a table of ascending ranges each sample at or above the lowest bound is counted exactly once |
| AdvancedFinalize.RangesWellFormed | internal/analysis/advanced_calculator.go:525-535 | every reported range holds at least one sample and a win rate between 0 and 1 |
| AdvancedFinalize.RangesCoverSamples | internal/analysis/advanced_calculator.go:492-584 | the sample sizes of the equipment ranges, and of the funds ranges, add up to the number of samples (every edge a float64 can hold) |
| AdvancedFinalize.CountInRange | internal/analysis/advanced_calculator.go:505-523 | the inner loop counts the samples in the range, [min, max) or from min up for the last one, and team 1's wins among them |
| AdvancedFinalize.BucketSamples | internal/analysis/advanced_calculator.go:504-536 | the outer loop reports exactly the non-empty ranges in table order, with their sizes and win rates |
| AdvancedFinalize.OneSidedNoCorrelation | internal/analysis/advanced_calculator.go:609-628 | when one team won every sampled round the outcome series has no variance and none of the three correlations is reported |
| AdvancedFinalize.SeriesOf | internal/analysis/advanced_calculator.go:610-624 | the correlation loop builds the outcome, funds, equipment and loss-streak series, one entry per sample |
| AdvancedFinalize.CalculateWinConditions | internal/analysis/advanced_calculator.go:487-629 | the win conditions are those `WinConditionsOf` defines: both range tables, the returns on spending and the three correlations; nothing when there are no samples |
| AdvancedFinalize.SuccessesBound | internal/analysis/advanced_calculator.go:638-644 | a deficit never counts more successes than attempts, and all of them when every attempt succeeded |
| AdvancedFinalize.ScenarioRates | internal/analysis/advanced_calculator.go:646-655 | a scenario counts its attempts, at most that many successes and a rate between 0 and 1; the rate is 1 when every attempt succeeded |
| AdvancedFinalize.ScenarioFrom | internal/analysis/advanced_calculator.go:634-655 | the inner loop sums one deficit's attempts into its scenario |
| AdvancedFinalize.CalculateComebackStats | internal/analysis/advanced_calculator.go:632-659 | visited in any iteration order of the map, the statistics hold exactly the recorded deficits, each with the scenario of its attempts |
| AdvancedFinalize.StepBalanced | internal/analysis/advanced_calculator.go:663-712 | one more round keeps the half and side tallies consistent |
| AdvancedFinalize.CountsBalanced | internal/analysis/advanced_calculator.go:663-712 | the tallies count every round once per half and once per side, team 2's CT rounds are team 1's T rounds and vice versa, and each side's wins and the opponent's wins there make up its rounds |
| AdvancedFinalize.AverageKeepsCounts | internal/analysis/advanced_calculator.go:714-747 | turning the sums into averages changes none of the counts |
| AdvancedFinalize.HalfSideConsistent | internal/analysis/advanced_calculator.go:662-748 | the half and side effects cover every round, and team 1's CT (T) win rate plus team 2's T (CT) win rate is 1 whenever team 1 played that side |
| AdvancedFinalize.CalculateHalfSideEffects | internal/analysis/advanced_calculator.go:662-748 | the tallying loop and the averaging produce the effects `HalfSideOf` defines |
| AdvancedFinalize.InsertAscending | internal/analysis/advanced_calculator.go:778-780 | inserting an entry with a new key into a list strictly ascending by key keeps it strictly ascending |
| AdvancedFinalize.InsertOccurrences | internal/analysis/advanced_calculator.go:778-780 | inserting x adds one occurrence of x and changes no other count |
| AdvancedFinalize.SortByFacts | internal/analysis/advanced_calculator.go:778-780 | sorting a list of distinct keys orders it strictly by key and keeps every entry exactly as often as before and every property all entries had |
| AdvancedFinalize.OccursOnce | internal/analysis/advanced_calculator.go:778-780 | in a list with distinct keys every entry occurs exactly once |
| AdvancedFinalize.Averaged | internal/analysis/advanced_calculator.go:753-772 | averaging a point keeps its round number, game count and win counts |
| AdvancedFinalize.AveragedMeaning | internal/analysis/advanced_calculator.go:753-772 | when the games are split into the two teams' wins, the win rate is team 1's share of them, in [0, 1], and an edge that was the difference of the summed funds (equipment) remains the difference of the averages |
| AdvancedFinalize.FinalizeTimeSeries | internal/analysis/advanced_calculator.go:751-781 | the series holds the averaged point of every round exactly once, nothing else, in strictly ascending round order |
| AdvancedFinalize.AddImpactsMeaning | internal/analysis/advanced_calculator.go:874-896 | adding a team's streaks creates entries exactly for their lengths and adds to each length's entry the number of its streaks and their edge changes, negated for team 2; other entries keep their values |
| AdvancedFinalize.ImpactTableMeaning | internal/analysis/advanced_calculator.go:872-896 | the impact table has an entry exactly for the lengths of the two teams' streaks, counting them and summing team 1's edge changes over them |
| AdvancedFinalize.TallyStreaks | internal/analysis/advanced_calculator.go:874-884 | the counting loop over one team's streaks performs the table update `AddImpacts` defines |
| AdvancedFinalize.ImpactList | internal/analysis/advanced_calculator.go:899-910 | every table entry is averaged and listed exactly once, nothing else, in strictly ascending streak length order |
| AdvancedFinalize.ImpactAverages | internal/analysis/advanced_calculator.go:898-903 | every table entry comes from at least one streak, so its occurrences are that count and its average gain is the summed change over it |
| AdvancedFinalize.SummarizeStreaks | internal/analysis/advanced_calculator.go:848-869 | the streaks are sorted longest first as a permutation; the average is the summed length over the count and the maximum the first length, at least every length; an empty list keeps zeros |
| AdvancedFinalize.TotalLength | internal/analysis/advanced_calculator.go:854-857 | the summing loop adds up the streak lengths |
| AdvancedFinalize.MeanWithinLengths | internal/analysis/advanced_calculator.go:853-859 | the summed length of streaks sorted longest first lies between count times the shortest and count times the longest, so the average lies between them |
| AdvancedFinalize.CountLengthPositive | internal/analysis/advanced_calculator.go:874-884 | a length has streaks counted exactly when some streak has that length |
| AdvancedFinalize.LengthsInOrder | internal/analysis/advanced_calculator.go:874-879 | the lengths in order of first appearance: distinct, each of some streak, and every streak's length among them |
| AdvancedFinalize.ImpactOrder | internal/analysis/advanced_calculator.go:899-905 | the lengths of both teams' streaks visit every key of the impact table exactly once |
| AdvancedFinalize.FinalizeStreakAnalysis | internal/analysis/advanced_calculator.go:847-911 | both teams' summaries as `SummaryOf` states them, and the averaged impact list of the table built from the sorted lists, in length order |

## Left out

- I/O: reading the rules file, the distribution and model files, the notebook run, the directory listing, printing and the database. Their results are inputs or are not modelled.
- Randomness: every random draw is a parameter. The RNG strategies `random.go`, `yolo.go` and `min_max_v3.go` are not part of this model.
- Concurrency: the process pool, goroutines, timers, mutexes and atomics. Only the sequential counting is modelled.
- Stats.NewStats: the `SimulationStats` struct (internal/analysis/stats.go:10-50) declares no `ScoreDistribution`, `RoundDistribution` or `AdvancedStats`, yet internal/analysis/calculator.go:31-37 and :68 write and read them, so the source does not compile as written. The model adds the three fields and starts them as empty maps and no advanced record. A Go nil map would panic on the first `++` at calculator.go:32 and :36; that panic is not modelled.
- `SimulationStats` is modelled as a value whose updates return the new record, so its in-place update, mutex and atomic counters are not captured.
- Floating point: IEEE rounding, NaN and Inf. Money is `real`. Division by a zero float, which gives Inf or NaN in Go, is listed per member below.
- The CSF and skew-normal sampling, `calculateStdDev`, volatility, the sigmoid, `ml_logistic.go`, `ml_sgd.go`, `ml_dqn.go` and `internal/util/csf.go` are floating-point numerics and are not part of this model.
- `CalculateFinalStats`, `calculateAdvancedStats`, `calculateRoundStats` and `calculateResponseTimePercentiles` (standard deviation, square roots, timings) are not part of this model.
- `distributions_loader.go`, `strategymanager.go`, the model loaders and their `sync.Once` singletons are not part of this model.
- `createDistributions` and `createWinProbabilityHeatmap` (advanced_calculator.go:784-844) are not modelled. The analyzer does not keep the four all-funds and all-equipment lists they bin. The heatmap indexes a grid by truncating float quotients. The histogram binning itself is modelled (`CreateHistogramBins`).
- Timestamps and the host name: `time.Now` and `os.Hostname` are parameters or are left out of the records.
- The JSON encoding of the game rules in `ConvertGameToMatchData` is an input.
- The `%.2f` text of a tournament matrix cell is not modelled; the cell's numbers are.
- `predictTree_xen` and `predict_xen` (xen_model.go:151-199) are line for line the XGBoost walk and sum, which `MlModels.PredictXgbTree` and `MlModels.XgbMargin` model. The xen strategy takes the resulting win probability as a parameter.
- The feature normalisation of `prepareInput` in `ml_tree.go` and `ml_forest.go` is an input (the feature map).
- The `ml_tree` and `ml_forest` fallback calls `InvestDecisionMaking_adaptive_v2` with a context type it does not accept. The fallback amount is a parameter.
- The strategy context carries every field the strategy files read, including `GameRules_strategy` and `IsFirstRoundHalf`, which `strategycontext.go` does not declare.
- `round.go` calls `Team` setters that `team.go` does not define. They are modelled with their evident meaning on the one `Team` class.
- `game.go` reads `gameRules.startingFunds` and `otFunds` in lower case. They are modelled as the rules' `StartingFunds` and `OTFunds`. The `Rounds` slice of the game is not kept.
- `determineRoundOutcome` never stores the sampled outcome, and overtime switches sides only where `GameState` says so. Both are kept as written.
- `SampleRoundEndFromABM` recurses forever when a side has no distribution. The model returns the `Diverges` marker instead.
- Go compares strings by bytes. The model compares `seq<char>` by character code, which agrees on the ASCII strategy names.
- XGBoost node arrays are assumed acyclic, in the form "every child index is larger than its parent's" (`MlModels.ValidXgbTree`). On a cyclic array the Go walk would not terminate, and the loader does not check for this.
- The map visit order of `calculateComebackStats`, `finalizeTimeSeries` and the streak-impact loop is a parameter. The results do not depend on it: the first is a map, and the other two are sorted by distinct keys.
- `sort.Slice` is modelled by an insertion sort on the sort key. Because the keys are distinct (round numbers, streak lengths), the sorted result is the same for any sorting algorithm.
- AdvancedCalculator.AdvancedAnalyzer.Finalize: returns a fresh analysis and does not change the recorded time points. Go accumulates into the analyzer's own analysis record and divides the stored time points in place, so a second `Finalize` would count and divide again. Only the first call is modelled.
- AdvancedCalculator.AdvancedAnalyzer.Finalize: requires `Ready()`. The constructor establishes it and `ProcessGame` preserves it, so every analyzer the program can build meets it.
- AdvancedFinalize.ScenarioOf: for an empty attempt list it gives a zero success rate where Go divides 0 by 0 (NaN). Recorded lists are never empty (`ScenariosSucceed`).
- AdvancedFinalize.CalculateEconomicMomentum: the two volatilities (standard deviations) are not computed.
- AdvancedAnalysisModel.CalculateCorrelation: the result is kept as a numerator and a squared denominator. The final square root and division are not taken.
- AdvancedAnalysisModel.CreateHistogramBins: bin bounds are exact reals. Where float rounding would leave a value outside every bin, so that Go counts it nowhere, the model counts it in its bin.
- MlModels.ForestPredict: an empty forest fails (None) where Go divides 0 by 0 (NaN).
- Strategies.MinMaxV4: requires a non-zero overtime half length in overtime, where Go's `%` would panic.
- Strategies.AntiAllinV3: requires `V3Ready`: loss-bonus indexes inside the table, a round-end reason in 1..4, and a positive overtime half length. Go would panic on the first two; on the last it divides by zero and gives Inf.
- Strategies.AntiAllinV3Copy: requires `CopyReady`, the index bounds where Go would panic.
- Strategies.ExpectedValue: requires a non-empty loss-bonus table and a loss-bonus level of at least -1 outside the last round of a half, where Go would index out of range.
- Strategies.AntiAllinV2: requires a non-empty loss-bonus table on the branch that indexes it.
- Tournament.RunSeries: requires at least as many game results as the series can play. The games themselves are not simulated.

## Findings

| source | as written | input that shows it | evidently intended | confidence | as-written member | corrected member |
|---|---|---|---|---|---|---|
| internal/engine/game.go:102 | from round 30 on, both scores' excess over 16 is divided by `OTcounter`, which is still 0 until overtime starts at round 31 | 15-15 after round 30: neither regulation test holds, `OTcounter` is 0, and Go's integer division by zero panics | apply the overtime rule only once overtime has started (`OTcounter > 0`) | high, not executed | EngineGame.FifteenAllPanics | EngineGame.FinishVerdictAgrees |
| internal/strategy/anti_allin_v3.go:22-23 | the loss-bonus step is the win streak capped at the length of the table and then used as an index | the default five-entry table with a five-round win streak and no loss in regulation reads `LossBonus[5]` and panics | cap the step at the last index, length - 1 | high, not executed | Strategies.AntiAllinV3FiveWinsPanics | Strategies.AntiAllinV3StreakBound |
| cmd/custom.go:108-114 | the error messages list five strategies although the map accepts six | `adaptive_eco_v2` validates, yet it is missing from the list an unknown name's error prints | list every accepted strategy | medium, not executed | CustomStrategies.AcceptedButNotListed | CustomStrategies.ListedIsAccepted |
