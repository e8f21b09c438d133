// The rule-based buy strategies of the strategy package: pure functions
// from the context of a round to the amount a team invests. Each file reads
// its own set of context fields, some of which the context struct of the
// package does not declare; the context here carries every field they read.

module Strategies {
  import opened Wrappers
  import opened GoInt
  import opened Reals
  import opened GameRulesModel

  /** The strategy context of the strategy package, as its strategy files read it. */
  datatype StrategyContext = StrategyContext(
    funds: real,
    equipment: real,
    currentRound: int,
    opponentScore: int,
    ownScore: int,
    consecutiveLosses: int,
    consecutiveWins: int,
    side: bool,                 // true = CT
    isPistolRound: bool,
    isLastRoundHalf: bool,
    isFirstRoundHalf: bool,
    isSecondRoundHalf: bool,
    isOvertime: bool,
    isAfterPistol: bool,
    halfLength: int,
    ownSurvivors: int,
    enemySurvivors: int,
    roundEndReason: int,
    overtimeAmount: int,
    lossBonusLevel: int,
    lossBonusLevelOpponent: int,
    fundsOpponent: real,
    startEquipmentOpponent: real,
    rules: GameRules)

  /** The mean of the four round-outcome rewards (the helper `avgArray` is not part of this model). */
  function AvgReward(rules: GameRules): real
  {
    (rules.roundOutcomeReward[0] + rules.roundOutcomeReward[1]
     + rules.roundOutcomeReward[2] + rules.roundOutcomeReward[3]) / 4.0
  }

  // ---------------------------------------------------------------- min_max

  /** The round numbers `min_max` always spends in during regulation. */
  predicate MinMaxForcedRound(ctx: StrategyContext)
  {
    var h := ctx.rules.halfLength;
    || ctx.currentRound <= 3 || (ctx.currentRound > h && ctx.currentRound - h <= 3)
    || ctx.opponentScore == h || ctx.ownScore == h
    || ctx.currentRound == h - 1 || ctx.currentRound == h - 2
    || ctx.currentRound == h * 2 - 1 || ctx.currentRound == h * 2 - 2
  }

  /**
   * `InvestDecisionMaking_min_max`: all or nothing. In regulation it spends
   * in the first three rounds of each half, when a score reaches the half
   * length, in the last two rounds of each half, and otherwise when the
   * round number modulo 6 is at most 3. In overtime it spends whenever an
   * overtime half has at most 3 rounds, when a score reaches the current
   * overtime target, and otherwise when the round modulo 4 is at most 2.
   */
  function MinMax(ctx: StrategyContext): (r: real)
    ensures r == ctx.funds || r == 0.0
    ensures !ctx.isOvertime && MinMaxForcedRound(ctx) ==> r == ctx.funds
    ensures ctx.isOvertime && ctx.rules.otHalfLength <= 3 ==> r == ctx.funds
    ensures !ctx.isOvertime && !MinMaxForcedRound(ctx) && GoRem(ctx.currentRound, 6) <= 3 ==> r == ctx.funds
    ensures !ctx.isOvertime && !MinMaxForcedRound(ctx) && GoRem(ctx.currentRound, 6) > 3 ==> r == 0.0
  {
    var h := ctx.rules.halfLength;
    var ot := ctx.rules.otHalfLength;
    if !ctx.isOvertime then
      if MinMaxForcedRound(ctx) then ctx.funds
      else if GoRem(ctx.currentRound, 6) <= 3 then ctx.funds
      else 0.0
    else
      if ot <= 3 then ctx.funds
      else
        var target := h + GoDiv(ot * ctx.currentRound, ot * 2);
        if ctx.opponentScore == target || ctx.ownScore == target then ctx.funds
        else if GoRem(ctx.currentRound, 4) <= 2 then ctx.funds
        else 0.0
  }

  /** In a regulation stretch past the forced rounds, `min_max` spends four rounds and saves two, repeating every six. */
  lemma MinMaxPeriodic(ctx: StrategyContext)
    requires !ctx.isOvertime && ctx.currentRound > 0 && !MinMaxForcedRound(ctx)
    requires !MinMaxForcedRound(ctx.(currentRound := ctx.currentRound + 6))
    ensures MinMax(ctx) == MinMax(ctx.(currentRound := ctx.currentRound + 6))
  {
    assert (ctx.currentRound + 6) % 6 == ctx.currentRound % 6;
  }

  // ------------------------------------------------------------- min_max_v4

  /**
   * `InvestDecisionMaking_min_max_v4`: all or nothing. It spends in the
   * first and last round of each regulation half, in the first and last
   * round of each overtime half, and otherwise in odd rounds only. The
   * overtime branch takes a remainder by the overtime half length, which
   * must not be 0.
   */
  function MinMaxV4(ctx: StrategyContext): (r: real)
    requires ctx.isOvertime ==> ctx.rules.otHalfLength != 0
    ensures r == ctx.funds || r == 0.0
    ensures GoRem(ctx.currentRound, 2) == 1 ==> r == ctx.funds
    ensures !ctx.isOvertime && (ctx.currentRound == 1 || ctx.currentRound == ctx.rules.halfLength) ==> r == ctx.funds
  {
    var h := ctx.rules.halfLength;
    if !ctx.isOvertime && (ctx.currentRound == 1 || ctx.currentRound == h + 1) then ctx.funds
    else if !ctx.isOvertime && (ctx.currentRound == h || ctx.currentRound == h * 2) then ctx.funds
    else if ctx.isOvertime
         && (GoRem(ctx.currentRound - h * 2, ctx.rules.otHalfLength) == 1
             || GoRem(ctx.currentRound - h * 2, ctx.rules.otHalfLength) == 0) then ctx.funds
    else if GoRem(ctx.currentRound, 2) == 1 then ctx.funds
    else 0.0
  }

  /** Outside the first and last rounds of the halves, `min_max_v4` alternates: spend in odd rounds, save in even ones. */
  lemma MinMaxV4Alternates(ctx: StrategyContext)
    requires !ctx.isOvertime && ctx.currentRound > 1
    requires ctx.currentRound != ctx.rules.halfLength && ctx.currentRound != ctx.rules.halfLength + 1
    requires ctx.currentRound != ctx.rules.halfLength * 2
    ensures MinMaxV4(ctx) == (if ctx.currentRound % 2 == 1 then ctx.funds else 0.0)
  {
  }

  // ------------------------------------------------------------------ casual

  const CasualMinThreshold: real := 25000.0
  const CasualSafetyThreshold: real := 10000.0
  const CasualMaxThreshold: real := 40000.0

  /** The score situations in which the half-based strategies go (nearly) all in. */
  function CloseScoreFactor(halfLength: int, ctx: StrategyContext, opponentNear: real, ownNear: real): Option<real>
  {
    if halfLength - ctx.opponentScore == 1 && !ctx.isOvertime then Some(opponentNear)
    else if halfLength - ctx.opponentScore == 0 && !ctx.isOvertime then Some(1.0)
    else if halfLength - ctx.ownScore == 1 && !ctx.isOvertime then Some(ownNear)
    else if halfLength - ctx.ownScore == 0 && !ctx.isOvertime then Some(1.0)
    else None
  }

  /**
   * `InvestDecisionMaking_casual`: all in on the first and last round of a
   * half, 80% or all when a score nears the half length; otherwise all funds
   * up to $40000, keeping $10000 back below $25000 and nothing at all below
   * $10000.
   */
  function Casual(ctx: StrategyContext): (r: real)
    ensures ctx.funds >= 0.0 ==> 0.0 <= r <= ctx.funds
    ensures !ctx.isLastRoundHalf && !ctx.isFirstRoundHalf && CloseScoreFactor(ctx.rules.halfLength, ctx, 0.8, 0.8).None? ==>
      r <= CasualMaxThreshold && (ctx.funds <= CasualSafetyThreshold ==> r == 0.0)
  {
    if ctx.isLastRoundHalf || ctx.isFirstRoundHalf then ctx.funds
    else match CloseScoreFactor(ctx.rules.halfLength, ctx, 0.8, 0.8)
      case Some(k) => ctx.funds * k
      case None =>
        if ctx.funds > CasualMaxThreshold then CasualMaxThreshold
        else if ctx.funds > CasualMinThreshold then ctx.funds
        else if ctx.funds > CasualSafetyThreshold then ctx.funds - CasualSafetyThreshold
        else 0.0
  }

  /** Outside the round and score rules, `casual` keeps at most $10000 back up to $40000 and spends everything from $25000. */
  lemma CasualKeepsSafetyMargin(ctx: StrategyContext)
    requires !ctx.isLastRoundHalf && !ctx.isFirstRoundHalf && CloseScoreFactor(ctx.rules.halfLength, ctx, 0.8, 0.8).None?
    requires CasualSafetyThreshold < ctx.funds <= CasualMaxThreshold
    ensures ctx.funds - Casual(ctx) <= CasualSafetyThreshold
    ensures ctx.funds > CasualMinThreshold ==> Casual(ctx) == ctx.funds
    ensures ctx.funds <= CasualMinThreshold ==> Casual(ctx) == ctx.funds - CasualSafetyThreshold
  {
  }

  // ---------------------------------------------------------------- smart_v1

  /** The fraction `smart_v1` spends after a given number of consecutive losses. */
  function SmartV1LossFactor(consecutiveLosses: int): real
  {
    if consecutiveLosses < 1 then 0.8
    else if consecutiveLosses == 1 then 0.2
    else if consecutiveLosses == 2 then 0.3
    else if consecutiveLosses == 3 then 0.4
    else 0.9
  }

  /** The share of its funds `smart_v1` spends: all or 80% from the round context, else by the losing streak. */
  function SmartV1Share(ctx: StrategyContext): (k: real)
    ensures 0.2 <= k <= 1.0
    ensures ctx.isLastRoundHalf || ctx.isPistolRound ==> k == 1.0
  {
    if ctx.isLastRoundHalf || ctx.isPistolRound then 1.0
    else match CloseScoreFactor(ctx.halfLength, ctx, 0.8, 0.8)
      case Some(f) => f
      case None => SmartV1LossFactor(ctx.consecutiveLosses)
  }

  /**
   * `InvestDecisionMaking_smart_v1`: all in on the last round of a half and
   * on pistol rounds, 80% or all when a score nears the half length, and
   * otherwise a share of the funds set by the losing streak.
   */
  function SmartV1(ctx: StrategyContext): (r: real)
    ensures ctx.funds >= 0.0 ==> ctx.funds * 0.2 <= r <= ctx.funds
    ensures ctx.isLastRoundHalf || ctx.isPistolRound ==> r == ctx.funds
  {
    ctx.funds * SmartV1Share(ctx)
  }

  /** A longer losing streak of one to three rounds makes `smart_v1` spend more, and a fourth loss more still. */
  lemma SmartV1LossMonotone(a: int, b: int)
    requires 1 <= a <= b
    ensures SmartV1LossFactor(a) <= SmartV1LossFactor(b)
  {
  }

  // --------------------------------------------------------------- all_in_v2

  /** The share of its funds `all_in_v2` spends. */
  function AllInV2Share(ctx: StrategyContext): (k: real)
    ensures 0.2 <= k <= 1.0
    ensures ctx.consecutiveLosses != 1 ==> k >= 0.9
  {
    if ctx.isLastRoundHalf || ctx.isPistolRound then 1.0
    else match CloseScoreFactor(ctx.halfLength, ctx, 1.0, 1.0)
      case Some(f) => f
      case None => if ctx.consecutiveLosses == 1 then 0.2 else 0.9
  }

  /**
   * `InvestDecisionMaking_allin_v2`: all in on the last round of a half,
   * pistol rounds and whenever a score nears the half length; otherwise
   * 20% right after a single loss and 90% in every other case.
   */
  function AllInV2(ctx: StrategyContext): (r: real)
    ensures ctx.funds >= 0.0 ==> 0.0 <= r <= ctx.funds
    ensures ctx.funds >= 0.0 && ctx.consecutiveLosses != 1 ==> r >= ctx.funds * 0.9
  {
    ctx.funds * AllInV2Share(ctx)
  }

  // -------------------------------------------------------------- anti_allin

  /** The share of funds after a winning streak of at least two: 10% less per win, never under 40%. */
  function StreakRatio(consecutiveWins: int, step: real): (ratio: real)
  {
    Max(1.0 - consecutiveWins as real * step, 0.4)
  }

  lemma StreakRatioBounds(consecutiveWins: int, step: real)
    requires consecutiveWins >= 2 && step >= 0.0
    ensures 0.4 <= StreakRatio(consecutiveWins, step) <= 1.0
  {
  }

  /**
   * `InvestDecisionMaking_anti_allin`: all in on the last round of a half
   * and pistol rounds; nothing right after a pistol round it lost; 80% or
   * all when a score nears the half length. Then, after an opponent wipe
   * with at most two wins, twice the most an all-in opponent can field
   * less the own equipment, capped by the funds; all after one win; a
   * shrinking share after more; 90% otherwise.
   */
  function AntiAllin(ctx: StrategyContext): (r: real)
    ensures ctx.funds >= 0.0 ==> r <= ctx.funds
    ensures ctx.funds >= 0.0 && (ctx.enemySurvivors >= 1 || ctx.consecutiveWins > 2) ==> r >= 0.0
    ensures !ctx.isLastRoundHalf && !ctx.isPistolRound && ctx.isAfterPistol && ctx.consecutiveLosses > 0 ==> r == 0.0
  {
    if ctx.isLastRoundHalf || ctx.isPistolRound then ctx.funds
    else if ctx.isAfterPistol && ctx.consecutiveLosses > 0 then 0.0
    else match CloseScoreFactor(ctx.rules.halfLength, ctx, 0.8, 1.0)
      case Some(k) => ctx.funds * k
      case None =>
        if ctx.enemySurvivors < 1 && ctx.consecutiveWins <= 2 then
          var maxEnemyInvestment := 1900.0 * 5.0 + ctx.rules.defaultEquipment * 5.0;
          Min(maxEnemyInvestment * 2.0 - ctx.equipment, ctx.funds)
        else if ctx.consecutiveWins == 1 then ctx.funds
        else if ctx.consecutiveWins >= 2 then
          StreakRatioBounds(ctx.consecutiveWins, 0.1);
          ctx.funds * StreakRatio(ctx.consecutiveWins, 0.1)
        else ctx.funds * 0.9
  }

  // ----------------------------------------------------------- anti_allin_v2

  /** The loss-bonus step `anti_allin_v2` expects the opponent on: the win streak, capped at the last entry. */
  function OpponentBonusIndex(consecutiveWins: int, lossBonusCount: int): int
  {
    if consecutiveWins <= lossBonusCount - 1 then consecutiveWins else lossBonusCount - 1
  }

  /** Whether `anti_allin_v2` reaches its wipe branch, the one that reads the loss-bonus table. */
  predicate AntiAllinV2Wipe(ctx: StrategyContext)
  {
    && !ctx.isLastRoundHalf && !ctx.isFirstRoundHalf
    && !(ctx.isSecondRoundHalf && ctx.consecutiveLosses > 1)
    && CloseScoreFactor(ctx.rules.halfLength, ctx, 0.8, 1.0).None?
    && ctx.enemySurvivors < 1 && ctx.consecutiveWins > 0
  }

  /**
   * `InvestDecisionMaking_anti_allin_v2`: the round-context rules, then
   * after an opponent wipe one and a half times the most the opponent can
   * field (its loss bonus, default equipment and the side's elimination
   * rewards for the own players lost) less the own equipment, capped by
   * the funds; then shares set by the winning or losing streak and the
   * survivors. The wipe branch indexes the loss-bonus table, which must
   * not be empty there.
   */
  function AntiAllinV2(ctx: StrategyContext): (r: real)
    requires AntiAllinV2Wipe(ctx) ==> |ctx.rules.lossBonus| > 0
    ensures ctx.funds >= 0.0 ==> r <= ctx.funds
    ensures ctx.funds >= 0.0 && !AntiAllinV2Wipe(ctx) ==> r >= 0.0
  {
    if ctx.isLastRoundHalf || ctx.isFirstRoundHalf then ctx.funds
    else if ctx.isSecondRoundHalf && ctx.consecutiveLosses > 1 then 0.0
    else match CloseScoreFactor(ctx.rules.halfLength, ctx, 0.8, 1.0)
      case Some(k) => ctx.funds * k
      case None =>
        if ctx.enemySurvivors < 1 && ctx.consecutiveWins > 0 then
          var level := OpponentBonusIndex(ctx.consecutiveWins, |ctx.rules.lossBonus|);
          var elimination :=
            if ctx.side then ctx.rules.additionalRewardTElimination + ctx.rules.eliminationReward
            else ctx.rules.additionalRewardCTElimination + ctx.rules.eliminationReward;
          var maxEnemyInvestment := ctx.rules.lossBonus[level] * 5.0 + ctx.rules.defaultEquipment * 5.0
                                    + elimination * (5 - ctx.ownSurvivors) as real;
          Min(maxEnemyInvestment * 1.5 - ctx.equipment, ctx.funds)
        else if ctx.consecutiveWins == 1 then ctx.funds
        else if ctx.consecutiveWins >= 2 then
          StreakRatioBounds(ctx.consecutiveWins, 0.05);
          ctx.funds * StreakRatio(ctx.consecutiveWins, 0.05)
        else if ctx.consecutiveLosses == 1 then (if ctx.ownSurvivors >= 3 then ctx.funds * 1.0 else 0.0)
        else if ctx.consecutiveLosses == 2 then (if ctx.ownSurvivors >= 2 then ctx.funds else 0.0)
        else if ctx.consecutiveLosses == 3 then ctx.funds * 0.8
        else if ctx.consecutiveLosses >= 4 then ctx.funds * 0.9
        else ctx.funds * 0.85
  }

  /** The capped index always lands inside a non-empty loss-bonus table. */
  lemma OpponentBonusIndexInRange(consecutiveWins: int, lossBonusCount: int)
    requires consecutiveWins > 0 && lossBonusCount > 0
    ensures 0 <= OpponentBonusIndex(consecutiveWins, lossBonusCount) < lossBonusCount
  {
  }

  // --------------------------------------------------------- expected_value

  /** The loss-bonus entry `expected_value` reads: one level up, capped at the last entry. */
  function NextLevelIndex(lossBonusLevel: int, lossBonusCount: int): int
  {
    if lossBonusLevel + 1 <= lossBonusCount - 1 then lossBonusLevel + 1 else lossBonusCount - 1
  }

  /** The expected earnings of a win on the given side: the mean of its two winning outcomes. */
  function ExpectedWinFunds(rules: GameRules, ct: bool): real
  {
    if ct then 0.5 * (rules.roundOutcomeReward[2] * 5.0 + rules.bombdefuseReward) + 0.5 * (rules.roundOutcomeReward[3] * 5.0)
    else 0.5 * (rules.roundOutcomeReward[0] * 5.0 + rules.bombplantReward) + 0.5 * (rules.roundOutcomeReward[1] * 5.0)
  }

  /**
   * `InvestDecisionMaking_expected_value`: all in on the last round of a
   * half; otherwise the mean of the expected win earnings and the next
   * loss bonus, capped by the funds. The loss-bonus read needs a level of
   * at least -1 and a non-empty table.
   */
  function ExpectedValue(ctx: StrategyContext): (r: real)
    requires !ctx.isLastRoundHalf ==> |ctx.rules.lossBonus| > 0 && ctx.lossBonusLevel >= -1
    ensures r <= ctx.funds
    ensures ctx.isLastRoundHalf ==> r == ctx.funds
    ensures !ctx.isLastRoundHalf ==>
      r == Min(0.5 * ExpectedWinFunds(ctx.rules, ctx.side)
               + 0.5 * (ctx.rules.lossBonus[NextLevelIndex(ctx.lossBonusLevel, |ctx.rules.lossBonus|)] * 5.0), ctx.funds)
  {
    if ctx.isLastRoundHalf then ctx.funds
    else
      var lossFunds := ctx.rules.lossBonus[NextLevelIndex(ctx.lossBonusLevel, |ctx.rules.lossBonus|)] * 5.0;
      Min(0.5 * ExpectedWinFunds(ctx.rules, ctx.side) + 0.5 * lossFunds, ctx.funds)
  }

  /** With non-negative rewards and funds, `expected_value` invests a non-negative amount. */
  lemma ExpectedValueNonNegative(ctx: StrategyContext)
    requires !ctx.isLastRoundHalf && |ctx.rules.lossBonus| > 0 && ctx.lossBonusLevel >= -1
    requires ctx.funds >= 0.0 && AllNonNegative(ctx.rules.lossBonus) && AllNonNegative(ctx.rules.roundOutcomeReward)
    requires ctx.rules.bombdefuseReward >= 0.0 && ctx.rules.bombplantReward >= 0.0
    ensures ExpectedValue(ctx) >= 0.0
  {
    var i := NextLevelIndex(ctx.lossBonusLevel, |ctx.rules.lossBonus|);
    assert ctx.rules.lossBonus[i] >= 0.0;
    assert ExpectedWinFunds(ctx.rules, ctx.side) >= 0.0 by {
      assert ctx.rules.roundOutcomeReward[0] >= 0.0 && ctx.rules.roundOutcomeReward[1] >= 0.0;
      assert ctx.rules.roundOutcomeReward[2] >= 0.0 && ctx.rules.roundOutcomeReward[3] >= 0.0;
    }
  }

  // ----------------------------------------------------------- anti_allin_v3

  /** The score that wins the game in the current stretch: past the half length and the overtime halves played. */
  function ScoreToWin(ctx: StrategyContext): int
  {
    ctx.rules.halfLength + ctx.rules.otHalfLength * ctx.overtimeAmount + 1
  }

  /** Whether either team is `gap` rounds away from the winning score. */
  predicate WithinOfWin(ctx: StrategyContext, gap: int)
  {
    ScoreToWin(ctx) - ctx.opponentScore == gap || ScoreToWin(ctx) - ctx.ownScore == gap
  }

  /** Whether `anti_allin_v3` reaches its win-streak branch, the one that reads the loss-bonus table. */
  predicate V3StreakBranch(ctx: StrategyContext)
  {
    !ctx.isLastRoundHalf && !(ctx.isPistolRound && !ctx.isOvertime) && !ctx.isOvertime && ctx.consecutiveLosses < 1
  }

  /** Whether `anti_allin_v3` reaches its regulation branch after a loss, the one that reads the round-end reward. */
  predicate V3AfterLossBranch(ctx: StrategyContext)
  {
    !ctx.isLastRoundHalf && !(ctx.isPistolRound && !ctx.isOvertime) && !ctx.isOvertime && ctx.consecutiveLosses >= 1
  }

  /** What `anti_allin_v3`'s callers must supply for the tables it indexes and the overtime split. */
  predicate V3Ready(ctx: StrategyContext)
  {
    && (V3StreakBranch(ctx) ==>
          ctx.consecutiveWins >= 0 && |ctx.rules.lossBonus| >= 1
          && (ctx.consecutiveWins != 1 ==> |ctx.rules.lossBonus| >= 2))
    && (V3AfterLossBranch(ctx) ==> 1 <= ctx.roundEndReason <= 4)
    && (ctx.isOvertime && !ctx.isLastRoundHalf ==> ctx.rules.otHalfLength > 0)
  }

  /**
   * The all-in amount `anti_allin_v3` expects from the opponent after a win
   * streak, with the opponent on loss-bonus step `level`: its loss bonus and
   * default equipment, what its survivors saved, and the elimination
   * rewards for the own players lost.
   */
  function StreakAllInEstimate(ctx: StrategyContext, level: int): real
    requires 0 <= level < |ctx.rules.lossBonus|
    requires ctx.consecutiveWins != 1 ==> |ctx.rules.lossBonus| >= 2
  {
    var approxFunds := (ctx.rules.lossBonus[level] + ctx.rules.defaultEquipment) * 5.0;
    var savedEquipment :=
      if ctx.consecutiveWins == 1 then ctx.enemySurvivors as real * AvgReward(ctx.rules)
      else ctx.enemySurvivors as real * ctx.rules.lossBonus[if level - 1 >= 1 then level - 1 else 1];
    approxFunds + savedEquipment + (5 - ctx.ownSurvivors) as real * ctx.rules.eliminationReward
  }

  /** The all-in amount `anti_allin_v3` expects from the opponent after it won the last round. */
  function AfterLossAllInEstimate(ctx: StrategyContext): real
    requires 1 <= ctx.roundEndReason <= 4
  {
    (ctx.rules.roundOutcomeReward[ctx.roundEndReason - 1] + ctx.rules.defaultEquipment) * 5.0
    + ctx.enemySurvivors as real * AvgReward(ctx.rules)
    + (5 - ctx.ownSurvivors) as real * ctx.rules.eliminationReward
  }

  /**
   * `InvestDecisionMaking_anti_allin_v3` with the loss-bonus step of its
   * win-streak branch capped at the last entry of the table: all in on the
   * last round of a half and regulation pistol rounds; after a win, up to
   * twice the opponent's expected all-in; after a loss, the same when the
   * funds and equipment cover the opponent's all-in, all in when a team is
   * one or two rounds from winning, and nothing otherwise; in overtime,
   * all in when a team is one round from winning and an even split of the
   * funds over the overtime half otherwise.
   */
  function AntiAllinV3(ctx: StrategyContext): (r: real)
    requires V3Ready(ctx)
    ensures ctx.isLastRoundHalf ==> r == ctx.funds
    ensures ctx.funds >= 0.0 && ctx.equipment >= 0.0 ==> r <= ctx.funds + ctx.equipment
    ensures V3AfterLossBranch(ctx) && ctx.funds + ctx.equipment < AfterLossAllInEstimate(ctx) && !WithinOfWin(ctx, 1) && !WithinOfWin(ctx, 2) ==> r == 0.0
    ensures ctx.isOvertime && !ctx.isLastRoundHalf && !WithinOfWin(ctx, 1) ==> r * ctx.rules.otHalfLength as real == ctx.funds
  {
    if ctx.isLastRoundHalf then ctx.funds
    else if ctx.isPistolRound && !ctx.isOvertime then ctx.funds
    else if !ctx.isOvertime then
      if ctx.consecutiveLosses < 1 then
        var level := if ctx.consecutiveWins <= |ctx.rules.lossBonus| - 1 then ctx.consecutiveWins else |ctx.rules.lossBonus| - 1;
        Min(ctx.funds + ctx.equipment, StreakAllInEstimate(ctx, level) * 2.0)
      else
        var estimate := AfterLossAllInEstimate(ctx);
        if ctx.funds + ctx.equipment >= estimate then Min(ctx.funds + ctx.equipment, estimate * 2.0)
        else if WithinOfWin(ctx, 2) then ctx.funds
        else if WithinOfWin(ctx, 1) then ctx.funds
        else 0.0
    else
      if WithinOfWin(ctx, 1) then ctx.funds
      else ctx.funds / ctx.rules.otHalfLength as real
  }

  /**
   * `InvestDecisionMaking_anti_allin_v3` as written: the loss-bonus step of
   * the win-streak branch is the win streak capped at the LENGTH of the
   * table, one past its last entry, so a streak as long as the table reads
   * out of range and panics (`None`).
   */
  function AntiAllinV3AsWritten(ctx: StrategyContext): (r: Option<real>)
    requires V3Ready(ctx)
    ensures r.None? <==> V3StreakBranch(ctx) && ctx.consecutiveWins >= |ctx.rules.lossBonus|
  {
    if V3StreakBranch(ctx) then
      var level := if ctx.consecutiveWins <= |ctx.rules.lossBonus| then ctx.consecutiveWins else |ctx.rules.lossBonus|;
      if level >= |ctx.rules.lossBonus| then None
      else Some(Min(ctx.funds + ctx.equipment, StreakAllInEstimate(ctx, level) * 2.0))
    else Some(AntiAllinV3(ctx))
  }

  /** Wherever the win streak stays inside the table, the code as written and the capped version agree. */
  lemma AntiAllinV3AgreesInRange(ctx: StrategyContext)
    requires V3Ready(ctx)
    requires V3StreakBranch(ctx) ==> ctx.consecutiveWins < |ctx.rules.lossBonus|
    ensures AntiAllinV3AsWritten(ctx) == Some(AntiAllinV3(ctx))
  {
  }

  /** A context with the default rules, a five-round win streak and no loss: an ordinary regulation round. */
  function FiveWinStreak(): StrategyContext
  {
    StrategyContext(
      funds := 20000.0, equipment := 4000.0, currentRound := 8, opponentScore := 1, ownScore := 6,
      consecutiveLosses := 0, consecutiveWins := 5, side := true,
      isPistolRound := false, isLastRoundHalf := false, isFirstRoundHalf := false, isSecondRoundHalf := false,
      isOvertime := false, isAfterPistol := false, halfLength := 15,
      ownSurvivors := 3, enemySurvivors := 0, roundEndReason := 1, overtimeAmount := 0,
      lossBonusLevel := 0, lossBonusLevelOpponent := 4, fundsOpponent := 5000.0, startEquipmentOpponent := 1000.0,
      rules := DefaultRules())
  }

  /** With the default five-entry loss-bonus table, a five-round win streak makes the code as written index past the table. */
  lemma AntiAllinV3FiveWinsPanics()
    ensures V3Ready(FiveWinStreak())
    ensures AntiAllinV3AsWritten(FiveWinStreak()) == None
  {
  }

  /** In the capped version the loss-bonus index stays inside the table, and the amount never exceeds the funds plus the equipment. */
  lemma AntiAllinV3StreakBound(ctx: StrategyContext)
    requires V3Ready(ctx) && V3StreakBranch(ctx)
    ensures 0 <= (if ctx.consecutiveWins <= |ctx.rules.lossBonus| - 1 then ctx.consecutiveWins else |ctx.rules.lossBonus| - 1) < |ctx.rules.lossBonus|
    ensures AntiAllinV3(ctx) <= ctx.funds + ctx.equipment
  {
  }

  // ------------------------------------------------------ anti_allin_v3_copy

  /** The tunable ratios of the `anti_allin_v3_copy` strategy. */
  datatype V3Config = V3Config(pressingRatio: real, overturnThreshold: real, overturnRatio: real)

  const DefaultV3Config := V3Config(1.15, 0.3, 0.8)

  predicate ValidConfig(c: V3Config)
  {
    c.pressingRatio > 0.0 && c.overturnThreshold > 0.0 && c.overturnRatio > 0.0
  }

  /**
   * `loadAntiAllinV3Config_copy`: the first of the three configuration
   * paths whose file could be read and decoded into a configuration with
   * all three ratios positive, or the defaults. `attempts` holds, path by
   * path, the decoded configuration or `None` when reading or decoding
   * failed.
   */
  function LoadConfig(attempts: seq<Option<V3Config>>): (c: V3Config)
    ensures ValidConfig(c)
    ensures c == DefaultV3Config || exists i :: 0 <= i < |attempts| && attempts[i] == Some(c)
    ensures (forall i :: 0 <= i < |attempts| ==> attempts[i].None? || !ValidConfig(attempts[i].value)) ==> c == DefaultV3Config
    ensures |attempts| > 0 && attempts[0].Some? && ValidConfig(attempts[0].value) ==> c == attempts[0].value
  {
    if attempts == [] then DefaultV3Config
    else if attempts[0].Some? && ValidConfig(attempts[0].value) then attempts[0].value
    else
      LoadConfig(attempts[1..])
  }

  /** Whether `anti_allin_v3_copy` reaches its branch for the second overtime round after a loss. */
  predicate CopyOvertimeSecond(ctx: StrategyContext)
  {
    ctx.isOvertime && !(ctx.isFirstRoundHalf && ctx.rules.otFunds > AvgReward(ctx.rules) * 2.5)
    && ctx.isSecondRoundHalf && ctx.consecutiveLosses == 1
  }

  /** Whether `anti_allin_v3_copy` reaches its shared branches after the all-in and overtime rules. */
  predicate CopyReachesPressing(ctx: StrategyContext)
  {
    && !ctx.isLastRoundHalf && !WithinOfWin(ctx, 2) && !WithinOfWin(ctx, 1)
    && (!ctx.isOvertime ==> !ctx.isFirstRoundHalf && !(ctx.isSecondRoundHalf && ctx.consecutiveLosses < 1))
    && (ctx.isOvertime ==> !(ctx.isFirstRoundHalf && ctx.rules.otFunds > AvgReward(ctx.rules) * 2.5) && !CopyOvertimeSecond(ctx))
  }

  /** What `anti_allin_v3_copy`'s callers must supply for the tables it indexes. */
  predicate CopyReady(ctx: StrategyContext)
  {
    && (!ctx.isLastRoundHalf && !WithinOfWin(ctx, 2) && !WithinOfWin(ctx, 1) && CopyOvertimeSecond(ctx) ==> 1 <= ctx.roundEndReason <= 4)
    && (CopyReachesPressing(ctx) && ctx.consecutiveLosses < 1 ==>
          0 <= ctx.lossBonusLevelOpponent < |ctx.rules.lossBonus|)
    && (CopyReachesPressing(ctx) && ctx.consecutiveLosses >= 1 ==> 1 <= ctx.roundEndReason <= 4)
  }

  /** The saved-equipment term, dropped when the rules play without saves. */
  function SavedUnlessNoSaves(rules: GameRules, saved: real): real
  {
    if rules.withSaves then saved else 0.0
  }

  /** The opponent's expected all-in after it won the last round, as `anti_allin_v3_copy` estimates it. */
  function CopyAfterLossEstimate(ctx: StrategyContext): real
    requires 1 <= ctx.roundEndReason <= 4
  {
    (ctx.rules.roundOutcomeReward[ctx.roundEndReason - 1] + ctx.rules.defaultEquipment) * 5.0
    + SavedUnlessNoSaves(ctx.rules, ctx.enemySurvivors as real * AvgReward(ctx.rules))
    + (5 - ctx.ownSurvivors) as real * ctx.rules.eliminationReward
  }

  /**
   * `InvestDecisionMaking_anti_allin_v3_copy` with its configuration as a
   * parameter: all in on the last round of a half and when a team is one or
   * two rounds from winning; in regulation all in on the first round of a
   * half and on the second after a won pistol; in overtime nothing on the
   * first round when the overtime funds exceed two and a half average
   * rewards, and the pressing ratio of the opponent's expected all-in on
   * the second round after a loss. Otherwise the pressing ratio of the
   * opponent's expected all-in after a win, and after a loss the overturn
   * ratio of it when the funds and equipment reach its overturn threshold,
   * nothing when they do not. Every amount above the funds is capped by
   * funds and equipment.
   */
  function AntiAllinV3Copy(ctx: StrategyContext, config: V3Config): (r: real)
    requires CopyReady(ctx)
    ensures ctx.isLastRoundHalf || WithinOfWin(ctx, 1) || WithinOfWin(ctx, 2) ==> r == ctx.funds
    ensures ctx.funds >= 0.0 && ctx.equipment >= 0.0 ==> r <= ctx.funds + ctx.equipment
    ensures (CopyReachesPressing(ctx) && ctx.consecutiveLosses >= 1
             && ctx.funds + ctx.equipment < config.overturnThreshold * CopyAfterLossEstimate(ctx)) ==> r == 0.0
  {
    var elimination := (5 - ctx.ownSurvivors) as real * ctx.rules.eliminationReward;
    if ctx.isLastRoundHalf || WithinOfWin(ctx, 2) || WithinOfWin(ctx, 1) then ctx.funds
    else if !ctx.isOvertime && ctx.isFirstRoundHalf then ctx.funds
    else if !ctx.isOvertime && ctx.isSecondRoundHalf && ctx.consecutiveLosses < 1 then ctx.funds
    else if ctx.isOvertime && ctx.isFirstRoundHalf && ctx.rules.otFunds > AvgReward(ctx.rules) * 2.5 then 0.0
    else if CopyOvertimeSecond(ctx) then
      var approxFunds := (ctx.rules.roundOutcomeReward[ctx.roundEndReason - 1] + ctx.rules.otEquipment) * 5.0;
      var saved := SavedUnlessNoSaves(ctx.rules, ctx.enemySurvivors as real * ((ctx.rules.otEquipment + ctx.rules.otEquipment) / 5.0) * 0.9);
      Min(ctx.funds + ctx.equipment, (approxFunds + saved + elimination) * config.pressingRatio)
    else if ctx.consecutiveLosses < 1 then
      var level := ctx.lossBonusLevelOpponent;
      var approxFunds := (ctx.rules.lossBonus[level] + ctx.rules.defaultEquipment) * 5.0;
      var saved := SavedUnlessNoSaves(ctx.rules,
        if ctx.consecutiveWins == 1 then ctx.enemySurvivors as real * AvgReward(ctx.rules)
        else ctx.enemySurvivors as real * ctx.rules.lossBonus[if level - 1 >= 0 then level - 1 else 0]);
      Min(ctx.funds + ctx.equipment, (approxFunds + saved + elimination) * config.pressingRatio)
    else
      var total := CopyAfterLossEstimate(ctx);
      if ctx.funds + ctx.equipment >= total * config.overturnThreshold then Min(ctx.funds + ctx.equipment, total * config.overturnRatio)
      else 0.0
  }
}
