// The conversions of a finished game and of one round into database
// records, and the per-strategy summary of a batch of stored matches. The
// timestamps (the clock) are left out; the JSON encoding of the game rules
// is an input, since the encoder is not part of this model.

module Converters {
  import opened Wrappers

  /** A stored match; the timestamp is not modelled. */
  datatype MatchData = MatchData(
    id: string, batchSimulationId: string, experimentName: string, simulationNumber: int,
    team1Name: string, team2Name: string, team1Strategy: string, team2Strategy: string,
    team1FinalScore: int, team2FinalScore: int, winner: string,
    totalRounds: int, overtimeRounds: int, wentToOvertime: bool,
    durationSeconds: real, gameRulesJson: string)

  /**
   * What `json.Marshal` makes of the game rules: no rules given (a nil
   * interface), an encoding, or an encoder error with its message.
   */
  datatype RulesEncoding = NoRules | Encoded(json: string) | EncodingFailed(message: string)

  const Draw: string := "draw"

  /** The stored winner: the name of the team with more rounds, or "draw". */
  function WinnerName(team1Name: string, team2Name: string, team1Score: int, team2Score: int): string
  {
    if team1Score > team2Score then team1Name
    else if team2Score > team1Score then team2Name
    else Draw
  }

  /**
   * `ConvertGameToMatchData`: an encoder failure is reported as an error
   * (wrapped with "failed to marshal game rules: "); otherwise the record
   * carries the inputs, the winner, the overtime flag and the rules JSON,
   * empty when no rules were given.
   */
  function ConvertGameToMatchData(
    matchId: string, batchId: string, experimentName: string, simNumber: int,
    team1Name: string, team2Name: string, team1Strategy: string, team2Strategy: string,
    team1Score: int, team2Score: int, totalRounds: int, overtimeRounds: int,
    durationSeconds: real, gameRules: RulesEncoding): (r: Result<MatchData, string>)
    ensures r.Err? <==> gameRules.EncodingFailed?
    ensures gameRules.EncodingFailed? ==> r.error == "failed to marshal game rules: " + gameRules.message
    ensures r.Ok? ==>
      && r.value.winner == (if team1Score > team2Score then team1Name
                            else if team2Score > team1Score then team2Name else Draw)
      && (r.value.wentToOvertime <==> overtimeRounds > 0)
      && r.value.gameRulesJson == (if gameRules.Encoded? then gameRules.json else "")
      && r.value.team1FinalScore == team1Score && r.value.team2FinalScore == team2Score
      && r.value.totalRounds == totalRounds && r.value.overtimeRounds == overtimeRounds
  {
    if gameRules.EncodingFailed? then Err("failed to marshal game rules: " + gameRules.message)
    else
      var rulesJson := if gameRules.Encoded? then gameRules.json else "";
      Ok(MatchData(matchId, batchId, experimentName, simNumber, team1Name, team2Name,
                   team1Strategy, team2Strategy, team1Score, team2Score,
                   WinnerName(team1Name, team2Name, team1Score, team2Score),
                   totalRounds, overtimeRounds, overtimeRounds > 0, durationSeconds, rulesJson))
  }

  /**
   * Listing the teams the other way round names the same winner, and a
   * draw is recorded exactly when the scores are equal (given that neither
   * team is itself called "draw").
   */
  lemma WinnerSymmetric(team1Name: string, team2Name: string, team1Score: int, team2Score: int)
    ensures WinnerName(team1Name, team2Name, team1Score, team2Score)
            == WinnerName(team2Name, team1Name, team2Score, team1Score)
    ensures team1Name != Draw && team2Name != Draw ==>
      (WinnerName(team1Name, team2Name, team1Score, team2Score) == Draw <==> team1Score == team2Score)
  {
  }

  /** A stored round; the win reason is always empty and the timestamp is not modelled. */
  datatype RoundData = RoundData(
    matchId: string, roundNumber: int, halfNumber: int, isOvertime: bool, winner: string,
    team1Name: string, team1FundsStart: real, team1FundsEnd: real, team1EquipmentSpent: real,
    team1EquipmentValue: real, team1ScoreBefore: int, team1ScoreAfter: int,
    team1ConsecutiveLosses: int, team1SurvivingPlayers: int,
    team2Name: string, team2FundsStart: real, team2FundsEnd: real, team2EquipmentSpent: real,
    team2EquipmentValue: real, team2ScoreBefore: int, team2ScoreAfter: int,
    team2ConsecutiveLosses: int, team2SurvivingPlayers: int,
    economicAdvantage: real, spendingDifferential: real, isPistolRound: bool, isEcoRound: bool)

  /** One team's side of a round as `ConvertRoundToRoundData` takes it. */
  datatype RoundSide = RoundSide(name: string, fundsStart: real, fundsEnd: real, spent: real, equipValue: real,
                                 scoreBefore: int, scoreAfter: int, losses: int, survivors: int)

  const EcoSpendLimit: real := 2000.0

  /** Round 1 opens every game; round 16 opens the second half, but not in overtime. */
  predicate IsPistolRound(roundNum: int, isOT: bool)
  {
    roundNum == 1 || (roundNum == 16 && !isOT)
  }

  /** A round is an eco round when either team spent less than $2000. */
  predicate IsEcoRound(team1Spent: real, team2Spent: real)
  {
    team1Spent < EcoSpendLimit || team2Spent < EcoSpendLimit
  }

  /** `ConvertRoundToRoundData`: the two sides, the edges team 1 holds, and the pistol and eco flags. */
  function ConvertRoundToRoundData(matchId: string, roundNum: int, halfNum: int, isOT: bool, winner: string,
                                   t1: RoundSide, t2: RoundSide): (r: RoundData)
    ensures r.economicAdvantage + t2.fundsStart == t1.fundsStart
    ensures r.spendingDifferential + t2.spent == t1.spent
    ensures r.isPistolRound <==> IsPistolRound(roundNum, isOT)
    ensures r.isEcoRound <==> IsEcoRound(t1.spent, t2.spent)
    ensures SideOf(r, true) == t1 && SideOf(r, false) == t2
  {
    RoundData(matchId, roundNum, halfNum, isOT, winner,
              t1.name, t1.fundsStart, t1.fundsEnd, t1.spent, t1.equipValue, t1.scoreBefore, t1.scoreAfter,
              t1.losses, t1.survivors,
              t2.name, t2.fundsStart, t2.fundsEnd, t2.spent, t2.equipValue, t2.scoreBefore, t2.scoreAfter,
              t2.losses, t2.survivors,
              t1.fundsStart - t2.fundsStart, t1.spent - t2.spent,
              IsPistolRound(roundNum, isOT), IsEcoRound(t1.spent, t2.spent))
  }

  /** A side read back from a stored round. */
  function SideOf(r: RoundData, team1: bool): RoundSide
  {
    if team1 then
      RoundSide(r.team1Name, r.team1FundsStart, r.team1FundsEnd, r.team1EquipmentSpent, r.team1EquipmentValue,
                r.team1ScoreBefore, r.team1ScoreAfter, r.team1ConsecutiveLosses, r.team1SurvivingPlayers)
    else
      RoundSide(r.team2Name, r.team2FundsStart, r.team2FundsEnd, r.team2EquipmentSpent, r.team2EquipmentValue,
                r.team2ScoreBefore, r.team2ScoreAfter, r.team2ConsecutiveLosses, r.team2SurvivingPlayers)
  }

  /**
   * Converting with the sides exchanged negates both edges and keeps the
   * pistol and eco flags.
   */
  lemma RoundSwapSides(matchId: string, roundNum: int, halfNum: int, isOT: bool, winner: string,
                       t1: RoundSide, t2: RoundSide)
    ensures var r := ConvertRoundToRoundData(matchId, roundNum, halfNum, isOT, winner, t1, t2);
            var s := ConvertRoundToRoundData(matchId, roundNum, halfNum, isOT, winner, t2, t1);
      && s.economicAdvantage == -r.economicAdvantage
      && s.spendingDifferential == -r.spendingDifferential
      && s.isPistolRound == r.isPistolRound && s.isEcoRound == r.isEcoRound
      && SideOf(s, true) == SideOf(r, false) && SideOf(s, false) == SideOf(r, true)
  {
  }

  /** In regulation the pistol rounds are exactly rounds 1 and 16; in overtime only round 1 counts. */
  lemma PistolRoundsOfAGame(roundNum: int, isOT: bool)
    ensures !isOT ==> (IsPistolRound(roundNum, isOT) <==> roundNum == 1 || roundNum == 16)
    ensures isOT ==> (IsPistolRound(roundNum, isOT) <==> roundNum == 1)
  {
  }

  /** The summary of one strategy over a batch; the timestamp is not modelled. */
  datatype BatchSummaryStats = BatchSummaryStats(
    batchSimulationId: string, strategyName: string,
    totalMatches: int, totalWins: int, totalLosses: int, winRate: real,
    totalRoundsPlayed: int, roundsWon: int, roundsLost: int, roundWinRate: real,
    avgFundsPerRound: real, avgSpendingPerRound: real, avgEquipmentValue: real,
    avgMatchScore: real, overtimeFrequency: real, avgMatchDuration: real,
    winRateStdDev: real, consistencyScore: real)

  /** The number of the first n matches that the named strategy won. */
  function WinsIn(matches: seq<MatchData>, name: string, n: int): int
    requires n <= |matches|
    decreases if n < 0 then 0 else n
  {
    if n <= 0 then 0 else WinsIn(matches, name, n - 1) + (if matches[n - 1].winner == name then 1 else 0)
  }

  /** The number of the first n matches that went to overtime. */
  function OvertimeIn(matches: seq<MatchData>, n: int): int
    requires n <= |matches|
    decreases if n < 0 then 0 else n
  {
    if n <= 0 then 0 else OvertimeIn(matches, n - 1) + (if matches[n - 1].wentToOvertime then 1 else 0)
  }

  /** The rounds and the duration of the first n matches. */
  function RoundsPlayedIn(matches: seq<MatchData>, n: int): int
    requires n <= |matches|
    decreases if n < 0 then 0 else n
  {
    if n <= 0 then 0 else RoundsPlayedIn(matches, n - 1) + matches[n - 1].totalRounds
  }

  function DurationIn(matches: seq<MatchData>, n: int): real
    requires n <= |matches|
    decreases if n < 0 then 0 else n
  {
    if n <= 0 then 0.0 else DurationIn(matches, n - 1) + matches[n - 1].durationSeconds
  }

  /** The number of the first n rounds whose winner is the named strategy. */
  function RoundsWonIn(rounds: seq<RoundData>, name: string, n: int): int
    requires n <= |rounds|
    decreases if n < 0 then 0 else n
  {
    if n <= 0 then 0 else RoundsWonIn(rounds, name, n - 1) + (if rounds[n - 1].winner == name then 1 else 0)
  }

  /**
   * The side the named strategy played in a round: team 1 when it carries
   * that name (even if team 2 does too), else team 2, else none.
   */
  function OwnSide(r: RoundData, name: string): Option<RoundSide>
  {
    if r.team1Name == name then Some(SideOf(r, true))
    else if r.team2Name == name then Some(SideOf(r, false))
    else None
  }

  /** The rounds among the first n that the named strategy played. */
  function OwnRoundsIn(rounds: seq<RoundData>, name: string, n: int): int
    requires n <= |rounds|
    decreases if n < 0 then 0 else n
  {
    if n <= 0 then 0 else OwnRoundsIn(rounds, name, n - 1) + (if OwnSide(rounds[n - 1], name).Some? then 1 else 0)
  }

  /** What the named strategy's sides among the first n rounds add up to: start funds, spending, equipment value. */
  function OwnTotalsIn(rounds: seq<RoundData>, name: string, n: int): (real, real, real)
    requires n <= |rounds|
    decreases if n < 0 then 0 else n
  {
    if n <= 0 then (0.0, 0.0, 0.0)
    else
      var t := OwnTotalsIn(rounds, name, n - 1);
      match OwnSide(rounds[n - 1], name)
      case None => t
      case Some(side) => (t.0 + side.fundsStart, t.1 + side.spent, t.2 + side.equipValue)
  }

  /** A ratio that is 0 when its denominator is 0, as every rate of the summary is. */
  function Ratio(num: real, den: int): real
  {
    if den > 0 then num / den as real else 0.0
  }

  lemma {:induction false} CountsBounded(matches: seq<MatchData>, rounds: seq<RoundData>, name: string, n: nat, m: nat)
    requires n <= |matches| && m <= |rounds|
    ensures 0 <= WinsIn(matches, name, n) <= n
    ensures 0 <= OvertimeIn(matches, n) <= n
    ensures 0 <= RoundsWonIn(rounds, name, m) <= m
    ensures 0 <= OwnRoundsIn(rounds, name, m) <= m
    decreases n + m
  {
    if n > 0 {
      CountsBounded(matches, rounds, name, n - 1, m);
    } else if m > 0 {
      CountsBounded(matches, rounds, name, n, m - 1);
    }
  }

  /** A count of at most den items over den is a share between 0 and 1. */
  lemma ShareBetweenZeroAndOne(count: int, den: int)
    requires 0 <= count <= den
    ensures 0.0 <= Ratio(count as real, den) <= 1.0
  {
    if den > 0 {
      assert count as real <= den as real;
      assert count as real / den as real <= den as real / den as real;
    }
  }

  /**
   * `CalculateBatchSummaryStats`: the counts and sums of the match loop and
   * the round loop, then every rate and average with 0 for an empty
   * denominator. The win rate and the overtime frequency are shares of the
   * matches, losses are the matches not won, and the strategy's rounds
   * are never more than the rounds given.
   */
  method CalculateBatchSummaryStats(batchId: string, strategyName: string, matches: seq<MatchData>,
                                    allRounds: seq<RoundData>) returns (s: BatchSummaryStats)
    ensures s.totalMatches == |matches|
    ensures s.totalWins == WinsIn(matches, strategyName, |matches|)
    ensures s.totalRoundsPlayed == RoundsPlayedIn(matches, |matches|)
    ensures s.roundsWon == RoundsWonIn(allRounds, strategyName, |allRounds|)
    ensures s.totalLosses == s.totalMatches - s.totalWins >= 0
    ensures s.roundsLost == s.totalRoundsPlayed - s.roundsWon
    ensures s.winRate == Ratio(s.totalWins as real, |matches|) && 0.0 <= s.winRate <= 1.0
    ensures s.overtimeFrequency == Ratio(OvertimeIn(matches, |matches|) as real, |matches|)
    ensures 0.0 <= s.overtimeFrequency <= 1.0
    ensures s.roundWinRate == Ratio(s.roundsWon as real, s.totalRoundsPlayed)
    ensures s.avgMatchScore == Ratio(s.roundsWon as real, |matches|)
    ensures s.avgMatchDuration == Ratio(DurationIn(matches, |matches|), |matches|)
    ensures var own := OwnRoundsIn(allRounds, strategyName, |allRounds|);
            var totals := OwnTotalsIn(allRounds, strategyName, |allRounds|);
      && 0 <= own <= |allRounds|
      && s.avgFundsPerRound == Ratio(totals.0, own)
      && s.avgSpendingPerRound == Ratio(totals.1, own)
      && s.avgEquipmentValue == Ratio(totals.2, own)
    ensures s.winRateStdDev == 0.0 && s.consistencyScore == 0.0
  {
    var totalWins, totalRoundsPlayed, totalOvertimeMatches, totalDuration := MatchTotals(matches, strategyName);
    var roundsWon, roundCount, totalFunds, totalSpending, totalEquipValue := RoundTotals(allRounds, strategyName);

    CountsBounded(matches, allRounds, strategyName, |matches|, |allRounds|);
    ShareBetweenZeroAndOne(totalWins, |matches|);
    ShareBetweenZeroAndOne(totalOvertimeMatches, |matches|);
    var totalMatches := |matches|;
    var winRate := if totalMatches > 0 then totalWins as real / totalMatches as real else 0.0;
    var roundWinRate := if totalRoundsPlayed > 0 then roundsWon as real / totalRoundsPlayed as real else 0.0;
    var avgFunds, avgSpending, avgEquipValue := 0.0, 0.0, 0.0;
    if roundCount > 0 {
      avgFunds := totalFunds / roundCount as real;
      avgSpending := totalSpending / roundCount as real;
      avgEquipValue := totalEquipValue / roundCount as real;
    }
    var avgDuration := if totalMatches > 0 then totalDuration / totalMatches as real else 0.0;
    var overtimeFreq := if totalMatches > 0 then totalOvertimeMatches as real / totalMatches as real else 0.0;
    var avgMatchScore := if totalMatches > 0 then roundsWon as real / totalMatches as real else 0.0;
    s := BatchSummaryStats(batchId, strategyName, totalMatches, totalWins, totalMatches - totalWins, winRate,
                           totalRoundsPlayed, roundsWon, totalRoundsPlayed - roundsWon, roundWinRate,
                           avgFunds, avgSpending, avgEquipValue, avgMatchScore, overtimeFreq, avgDuration,
                           0.0, 0.0);
  }

  /** The loop over the matches of `CalculateBatchSummaryStats`. */
  method MatchTotals(matches: seq<MatchData>, strategyName: string)
    returns (totalWins: int, totalRoundsPlayed: int, totalOvertimeMatches: int, totalDuration: real)
    ensures totalWins == WinsIn(matches, strategyName, |matches|)
    ensures totalRoundsPlayed == RoundsPlayedIn(matches, |matches|)
    ensures totalOvertimeMatches == OvertimeIn(matches, |matches|)
    ensures totalDuration == DurationIn(matches, |matches|)
  {
    totalWins, totalRoundsPlayed, totalOvertimeMatches := 0, 0, 0;
    totalDuration := 0.0;
    var i := 0;
    while i < |matches|
      invariant 0 <= i <= |matches|
      invariant totalWins == WinsIn(matches, strategyName, i)
      invariant totalRoundsPlayed == RoundsPlayedIn(matches, i)
      invariant totalOvertimeMatches == OvertimeIn(matches, i)
      invariant totalDuration == DurationIn(matches, i)
    {
      var match_ := matches[i];
      totalRoundsPlayed := totalRoundsPlayed + match_.totalRounds;
      if match_.winner == strategyName {
        totalWins := totalWins + 1;
      }
      if match_.wentToOvertime {
        totalOvertimeMatches := totalOvertimeMatches + 1;
      }
      totalDuration := totalDuration + match_.durationSeconds;
      i := i + 1;
    }
  }

  /** The loop over the rounds of `CalculateBatchSummaryStats`. */
  method RoundTotals(allRounds: seq<RoundData>, strategyName: string)
    returns (roundsWon: int, roundCount: int, totalFunds: real, totalSpending: real, totalEquipValue: real)
    ensures roundsWon == RoundsWonIn(allRounds, strategyName, |allRounds|)
    ensures roundCount == OwnRoundsIn(allRounds, strategyName, |allRounds|)
    ensures (totalFunds, totalSpending, totalEquipValue) == OwnTotalsIn(allRounds, strategyName, |allRounds|)
  {
    totalFunds, totalSpending, totalEquipValue := 0.0, 0.0, 0.0;
    roundsWon, roundCount := 0, 0;
    var j := 0;
    while j < |allRounds|
      invariant 0 <= j <= |allRounds|
      invariant roundsWon == RoundsWonIn(allRounds, strategyName, j)
      invariant roundCount == OwnRoundsIn(allRounds, strategyName, j)
      invariant (totalFunds, totalSpending, totalEquipValue) == OwnTotalsIn(allRounds, strategyName, j)
    {
      var round := allRounds[j];
      if round.winner == strategyName {
        roundsWon := roundsWon + 1;
      }
      if round.team1Name == strategyName {
        totalFunds := totalFunds + round.team1FundsStart;
        totalSpending := totalSpending + round.team1EquipmentSpent;
        totalEquipValue := totalEquipValue + round.team1EquipmentValue;
        roundCount := roundCount + 1;
      } else if round.team2Name == strategyName {
        totalFunds := totalFunds + round.team2FundsStart;
        totalSpending := totalSpending + round.team2EquipmentSpent;
        totalEquipValue := totalEquipValue + round.team2EquipmentValue;
        roundCount := roundCount + 1;
      }
      j := j + 1;
    }
  }

  /** When every round is won by one of its two teams, the strategy wins no more rounds than it plays. */
  lemma {:induction false} RoundsWonAtMostOwn(rounds: seq<RoundData>, name: string, n: nat)
    requires n <= |rounds|
    requires forall k :: 0 <= k < |rounds| ==> rounds[k].winner == rounds[k].team1Name || rounds[k].winner == rounds[k].team2Name
    ensures RoundsWonIn(rounds, name, n) <= OwnRoundsIn(rounds, name, n)
  {
    if n > 0 {
      RoundsWonAtMostOwn(rounds, name, n - 1);
    }
  }
}
