// The buy strategies of the models package: adaptive_eco_v1 and v2, scrooge
// and default_half, pure functions from the package's own strategy context
// to the amount a team invests.

module EcoModels {
  import opened GoInt
  import opened Reals

  /** The strategy context of the models package. */
  datatype ModelContext = ModelContext(
    funds: real,
    equipment: real,
    playersAlive: int,
    roundImportance: real,
    economicAdvantage: real,
    winProbability: real,
    currentRound: int,
    opponentScore: int,
    ownScore: int,
    consecutiveLosses: int,
    side: bool,                 // true = CT
    isPistolRound: bool,
    isLastRoundHalf: bool,
    isOvertime: bool,
    isEcoAfterPistol: bool,
    halfLength: int,
    otHalfLength: int)

  // ---------------------------------------------------------- adaptive_eco_v1

  datatype RoundType = Pistol | AntiEco | ForceBuy | Eco | Buy

  /** `determineRoundType`: the kind of round a round number suggests. */
  function DetermineRoundType(round: int): (t: RoundType)
    ensures t == Pistol <==> round == 1 || round == 16
    ensures t == AntiEco <==> round == 2 || round == 17
    ensures t == ForceBuy <==> 14 <= round <= 15 || 29 <= round <= 30
    ensures t == Eco <==> round > 4 && GoRem(round - 1, 3) == 0 && round != 16
  {
    if round == 1 || round == 16 then Pistol
    else if round == 2 || round == 17 then AntiEco
    else if (14 <= round && round <= 15) || (29 <= round && round <= 30) then ForceBuy
    else if GoRem(round - 1, 3) == 0 && round > 4 then Eco
    else Buy
  }

  /** The own score adaptive_eco_v1 derives from the round number: every earlier round the opponent did not win. */
  function DerivedOwnScore(round: int, opponentScore: int): int
  {
    (round - 1) - opponentScore
  }

  /** `calculateScoreImportance`: 1.2 in a close game, 1.4 when behind by three or more, 0.9 when ahead by three or more. */
  function ScoreImportance(round: int, opponentScore: int): (k: real)
    ensures var diff := DerivedOwnScore(round, opponentScore) - opponentScore;
      && (-2 <= diff <= 2 <==> k == 1.2)
      && (diff <= -3 <==> k == 1.4)
      && (diff >= 3 <==> k == 0.9)
    ensures k != 1.0
  {
    var diff := DerivedOwnScore(round, opponentScore) - opponentScore;
    if Abs(diff) <= 2 then 1.2
    else if diff <= -3 then 1.4
    else if diff >= 3 then 0.9
    else 1.0
  }

  /** The economic classes of adaptive_eco_v1, poorest first. */
  datatype EconomicState = Poor | Tight | Moderate | Comfortable | Rich

  function Rank(s: EconomicState): nat
  {
    match s
    case Poor => 0
    case Tight => 1
    case Moderate => 2
    case Comfortable => 3
    case Rich => 4
  }

  /** `assessEconomicState`: thresholds $50000, $30000, $17500 and $10000. */
  function AssessEconomicState(funds: real): (s: EconomicState)
    ensures s == Rich <==> funds >= 50000.0
    ensures s == Poor <==> funds < 10000.0
  {
    if funds >= 50000.0 then Rich
    else if funds >= 30000.0 then Comfortable
    else if funds >= 17500.0 then Moderate
    else if funds >= 10000.0 then Tight
    else Poor
  }

  /** More funds never give a poorer class. */
  lemma EconomicStateMonotone(a: real, b: real)
    requires a <= b
    ensures Rank(AssessEconomicState(a)) <= Rank(AssessEconomicState(b))
  {
  }

  /** `calculateBaseInvestment`: a share of the funds, capped per class. */
  function BaseInvestment(funds: real, state: EconomicState): (r: real)
    ensures funds >= 0.0 ==> 0.0 <= r <= funds * 0.7
    ensures r <= 20000.0
  {
    match state
    case Rich => Min(funds * 0.7, 20000.0)
    case Comfortable => Min(funds * 0.65, 17500.0)
    case Moderate => Min(funds * 0.6, 15000.0)
    case Tight => Min(funds * 0.5, 10000.0)
    case Poor => Min(funds * 0.3, 5000.0)
  }

  /** The investment the round type sets before the score and momentum modifiers. */
  function RoundTypeInvestment(funds: real, t: RoundType, base: real): real
  {
    match t
    case Pistol => Min(funds, 14000.0)
    case AntiEco => Min(funds * 0.6, 12500.0)
    case ForceBuy => Min(funds * 0.85, 20000.0)
    case Eco => Min(funds * 0.2, 4000.0)
    case Buy => base
  }

  /** `applyScoreModifiers`: more when far behind with money, less when far ahead, the importance factor, and more near match point. */
  function ApplyScoreModifiers(investment: real, funds: real, round: int, opponentScore: int, importance: real): real
  {
    var own := DerivedOwnScore(round, opponentScore);
    var diff := own - opponentScore;
    var a := if diff <= -4 && funds >= 20000.0 then investment * 1.3 else investment;
    var b := if diff >= 5 then a * 0.8 else a;
    var c := b * importance;
    if own >= 15 || opponentScore >= 15 then c * 1.25 else c
  }

  /** `applyEconomicMomentum`: 10% more when rich, 10% less when poor. */
  function ApplyEconomicMomentum(investment: real, state: EconomicState): real
  {
    if state == Rich then investment * 1.1
    else if state == Poor then investment * 0.9
    else investment
  }

  /** The final bounds of adaptive_eco_v1: at least $1500, then at most the funds and $20000. */
  function FinalBoundsV1(investment: real, funds: real): (r: real)
    ensures r <= funds && r <= 20000.0
    ensures funds >= 1500.0 ==> r >= 1500.0
    ensures funds < 1500.0 ==> r == funds
  {
    Min(Min(Max(investment, 1500.0), funds), 20000.0)
  }

  /** `InvestDecisionMaking_adaptive_v1`. */
  function AdaptiveV1(ctx: ModelContext): (r: real)
    ensures r <= ctx.funds && r <= 20000.0
    ensures ctx.funds >= 1500.0 ==> r >= 1500.0
    ensures ctx.funds < 1500.0 ==> r == ctx.funds
  {
    var t := DetermineRoundType(ctx.currentRound);
    var importance := ScoreImportance(ctx.currentRound, ctx.opponentScore);
    var state := AssessEconomicState(ctx.funds);
    var investment := RoundTypeInvestment(ctx.funds, t, BaseInvestment(ctx.funds, state));
    var scored := ApplyScoreModifiers(investment, ctx.funds, ctx.currentRound, ctx.opponentScore, importance);
    FinalBoundsV1(ApplyEconomicMomentum(scored, state), ctx.funds)
  }

  // ---------------------------------------------------------- adaptive_eco_v2

  datatype EconomicStateV2 = Critical | PoorV2 | ModerateV2 | Healthy

  /** `assessEconomicStateV2`: thresholds $17500, $12500 and $5000. */
  function AssessEconomicStateV2(funds: real): (s: EconomicStateV2)
    ensures s == Healthy <==> funds >= 17500.0
    ensures s == ModerateV2 <==> 12500.0 <= funds < 17500.0
    ensures s == PoorV2 <==> 5000.0 <= funds < 12500.0
    ensures s == Critical <==> funds < 5000.0
  {
    if funds >= 17500.0 then Healthy
    else if funds >= 12500.0 then ModerateV2
    else if funds >= 5000.0 then PoorV2
    else Critical
  }

  /** `calculateBaseInvestmentV2`: a share of the funds, capped per class. */
  function BaseInvestmentV2(funds: real, state: EconomicStateV2): (r: real)
    ensures funds >= 0.0 ==> 0.0 <= r <= funds * 0.75
    ensures r <= 20000.0
  {
    match state
    case Healthy => Min(funds * 0.75, 20000.0)
    case ModerateV2 => Min(funds * 0.65, 15000.0)
    case PoorV2 => Min(funds * 0.45, 9000.0)
    case Critical => Min(funds * 0.25, 4000.0)
  }

  /** `applyRoundModifiersV2`: the pistol, anti-eco, last-round and overtime adjustments. */
  function ApplyRoundModifiersV2(base: real, ctx: ModelContext): (r: real)
    ensures ctx.isPistolRound ==> r == Max(base, Min(ctx.funds * 0.8, 4000.0))
    ensures !ctx.isPistolRound && ctx.isEcoAfterPistol && ctx.ownScore > ctx.opponentScore ==> r <= 10000.0
    ensures !ctx.isPistolRound && !(ctx.isEcoAfterPistol && ctx.ownScore > ctx.opponentScore) && ctx.isOvertime ==> r <= ctx.funds * 0.9
  {
    if ctx.isPistolRound then Max(base, Min(ctx.funds * 0.8, 4000.0))
    else if ctx.isEcoAfterPistol && ctx.ownScore > ctx.opponentScore then Min(base * 0.7, 10000.0)
    else
      var a := if ctx.isLastRoundHalf then base * (1.0 + ctx.roundImportance * 0.3) else base;
      if ctx.isOvertime then Min(a * 1.2, ctx.funds * 0.9) else a
  }

  /** `applyScorePressureV2`: more when behind, less when far ahead, more near match point. */
  function ApplyScorePressureV2(investment: real, ctx: ModelContext): real
  {
    var diff := ctx.ownScore - ctx.opponentScore;
    var pressure := (ctx.ownScore + ctx.opponentScore) as real / 30.0;
    var a :=
      if diff < -3 then investment * (1.0 + (Abs(diff) as real / 15.0) * 0.4)
      else if diff < -1 then investment * (1.0 + pressure * 0.2)
      else if diff > 3 then investment * (0.9 - pressure * 0.1)
      else investment;
    if ctx.ownScore >= 14 || ctx.opponentScore >= 14 then a * (1.0 + ctx.roundImportance * 0.3) else a
  }

  /** `applySideModifiersV2`: the CT and T side factors by funds. */
  function SideFactorV2(ctx: ModelContext): (k: real)
    ensures 0.85 <= k <= 1.15
  {
    if ctx.side then (if ctx.funds < 12500.0 then 0.85 else 1.1)
    else if ctx.funds >= 15000.0 then 0.95
    else if ctx.funds >= 7500.0 then 1.15
    else 1.0
  }

  /** `applyLossBonusLogicV2`: 10% more per loss from two losses on, at most 40% more; 10% less right after a win. */
  function LossBonusFactorV2(consecutiveLosses: int): (k: real)
    ensures 0.9 <= k <= 1.4
    ensures consecutiveLosses >= 4 ==> k == 1.4
    ensures consecutiveLosses == 1 || consecutiveLosses < 0 ==> k == 1.0
  {
    if consecutiveLosses >= 2 then Min(1.0 + consecutiveLosses as real * 0.1, 1.4)
    else if consecutiveLosses == 0 then 0.9
    else 1.0
  }

  /**
   * `applySafetyChecksV2`: never above the funds, $2500 kept back when the
   * funds exceed $5000, never above $22500, and at least $1000 whenever the
   * funds allow it.
   */
  function ApplySafetyChecksV2(investment: real, funds: real): (r: real)
    ensures r <= funds && r <= 22500.0
    ensures funds >= 1000.0 ==> r >= 1000.0
    ensures funds > 5000.0 ==> r <= funds - 2500.0
    ensures investment >= 0.0 && funds >= 0.0 ==> r >= 0.0
    ensures 1000.0 <= investment && investment <= funds && investment <= 22500.0 && (funds > 5000.0 ==> investment <= funds - 2500.0) ==> r == investment
  {
    var a := Min(investment, funds);
    var b := if funds > 5000.0 then Min(a, funds - 2500.0) else a;
    var c := Min(b, 22500.0);
    if funds >= 1000.0 then Max(c, 1000.0) else c
  }

  /** `InvestDecisionMaking_adaptive_v2`. */
  function AdaptiveV2(ctx: ModelContext): (r: real)
    ensures r <= ctx.funds && r <= 22500.0
    ensures ctx.funds >= 1000.0 ==> r >= 1000.0
    ensures ctx.funds > 5000.0 ==> r <= ctx.funds - 2500.0
  {
    var state := AssessEconomicStateV2(ctx.funds);
    var investment := ApplyRoundModifiersV2(BaseInvestmentV2(ctx.funds, state), ctx);
    var pressured := ApplyScorePressureV2(investment, ctx);
    var sided := pressured * SideFactorV2(ctx);
    ApplySafetyChecksV2(sided * LossBonusFactorV2(ctx.consecutiveLosses), ctx.funds)
  }

  // ------------------------------------------------------ scrooge and half

  /** `InvestDecisionMaking_scrooge`: exactly $1500, or 80% of the funds when there is less than that. */
  function Scrooge(ctx: ModelContext): (r: real)
    ensures r <= 1500.0
    ensures ctx.funds >= 0.0 ==> 0.0 <= r <= ctx.funds
    ensures ctx.funds >= 1500.0 ==> r == 1500.0
    ensures ctx.funds < 1500.0 ==> r == ctx.funds * 0.8
  {
    if ctx.funds < 1500.0 then ctx.funds * 0.8 else 1500.0
  }

  /** `InvestDecisionMaking_half`: all funds in rounds 15 and 30, half of them otherwise. */
  function DefaultHalf(ctx: ModelContext): (r: real)
    ensures ctx.funds >= 0.0 ==> 0.0 <= r <= ctx.funds
    ensures ctx.currentRound == 15 || ctx.currentRound == 30 ==> r == ctx.funds
    ensures ctx.currentRound != 15 && ctx.currentRound != 30 ==> r + r == ctx.funds
  {
    if ctx.currentRound == 15 || ctx.currentRound == 30 then ctx.funds else ctx.funds / 2.0
  }

  /** default_half reads only the round number and the funds. */
  lemma DefaultHalfReadsRoundAndFunds(a: ModelContext, b: ModelContext)
    requires a.currentRound == b.currentRound && a.funds == b.funds
    ensures DefaultHalf(a) == DefaultHalf(b)
  {
  }
}
