// The xen_model buy strategy: six buy types with equipment and spending
// ranges, the investment each one needs, the model's feature vector, and
// the minimax choice of the buy type whose worst case over the opponent's
// affordable buy types is best. The model's win probability for a feature
// vector is a parameter; the tree walk it sums is the XGBoost walk.

module XenModel {
  import opened Wrappers
  import opened Reals
  import Strategies

  datatype BuyTypeDefinition = BuyTypeDefinition(
    name: string,
    minStartingEquipment: real,
    maxStartingEquipment: real,
    minSpend: real,
    maxSpend: real,
    encodedValue: int)

  /** The zero value a failed lookup returns. */
  const NoBuyType := BuyTypeDefinition("", 0.0, 0.0, 0.0, 0.0, 0)

  /** The entries of `BuyTypeDefinitions`. */
  datatype BuyType = Eco | LowBuy | HalfBuy | HeroLow | HeroHalf | FullBuy

  /** The map key of each entry. */
  function Key(b: BuyType): string
  {
    match b
    case Eco => "eco"
    case LowBuy => "low_buy"
    case HalfBuy => "half_buy"
    case HeroLow => "hero_low"
    case HeroHalf => "hero_half"
    case FullBuy => "full_buy"
  }

  /** The entry a map key names, if any. */
  function Lookup(key: string): (b: Option<BuyType>)
    ensures b.Some? ==> Key(b.value) == key
  {
    if key == "eco" then Some(Eco)
    else if key == "low_buy" then Some(LowBuy)
    else if key == "half_buy" then Some(HalfBuy)
    else if key == "hero_low" then Some(HeroLow)
    else if key == "hero_half" then Some(HeroHalf)
    else if key == "full_buy" then Some(FullBuy)
    else None
  }

  /** Every entry is found under its own key, so the keys are distinct. */
  lemma LookupKey(b: BuyType)
    ensures Lookup(Key(b)) == Some(b)
  {
  }

  /** `BuyTypeDefinitions`: each entry's name, ranges and model code. */
  function Definition(b: BuyType): BuyTypeDefinition
  {
    match b
    case Eco => BuyTypeDefinition("Eco", 0.0, 3000.0, 0.0, 2000.0, 0)
    case LowBuy => BuyTypeDefinition("Low Buy", 0.0, 3000.0, 2000.0, 7500.0, 5)
    case HalfBuy => BuyTypeDefinition("Half Buy", 0.0, 3000.0, 7500.0, 20000.0, 2)
    case HeroLow => BuyTypeDefinition("Hero Low Buy", 3000.0, 20000.0, 0.0, 7500.0, 4)
    case HeroHalf => BuyTypeDefinition("Hero Half Buy", 3000.0, 20000.0, 7500.0, 17000.0, 3)
    case FullBuy => BuyTypeDefinition("Full Buy", 3000.0, 999999.0, 17500.0, 999999.0, 1)
  }

  /** The description each entry carries. */
  function Description(b: BuyType): string
  {
    match b
    case Eco => "Minimal buy to save money - starting equipment 0-3k, spent 0-2k"
    case LowBuy => "Light buy with weak utility - starting equipment 0-3k, spent 2k-7.5k"
    case HalfBuy => "Moderate buy with decent utility - starting equipment 0-3k, spent 7.5-20k"
    case HeroLow => "Strong economy with weak utility - starting equipment 3-20k, spent 0-7.5k"
    case HeroHalf => "Strong economy with solid utility - starting equipment 3-20k, spent 7.5-17k"
    case FullBuy => "Full buy for max firepower - starting equipment + spent > 20k"
  }

  /** The entry whose model code is `code`. */
  function OfCode(code: int): Option<BuyType>
  {
    if code == 0 then Some(Eco)
    else if code == 1 then Some(FullBuy)
    else if code == 2 then Some(HalfBuy)
    else if code == 3 then Some(HeroHalf)
    else if code == 4 then Some(HeroLow)
    else if code == 5 then Some(LowBuy)
    else None
  }

  /** The six entries carry the six distinct codes 0 to 5, and each code names exactly one of them. */
  lemma EncodedValuesDistinct()
    ensures forall b :: OfCode(Definition(b).encodedValue) == Some(b)
    ensures forall c :: OfCode(c).Some? <==> 0 <= c <= 5
    ensures forall c :: OfCode(c).Some? ==> Definition(OfCode(c).value).encodedValue == c
  {
    forall b ensures OfCode(Definition(b).encodedValue) == Some(b) {
      match b
      case Eco =>
      case LowBuy =>
      case HalfBuy =>
      case HeroLow =>
      case HeroHalf =>
      case FullBuy =>
    }
  }

  /** An iteration order that visits every entry. */
  predicate Lists(order: seq<BuyType>)
  {
    forall b :: b in order
  }

  /**
   * `GetBuyTypeByEncodedValue`: the first definition, in the map's
   * iteration order `order`, whose code is `code`; the zero value when none
   * has it.
   */
  method GetBuyTypeByEncodedValue(order: seq<BuyType>, code: int) returns (profile: BuyTypeDefinition)
    requires Lists(order)
    ensures OfCode(code).Some? ==> profile == Definition(OfCode(code).value)
    ensures OfCode(code).None? ==> profile == NoBuyType
  {
    EncodedValuesDistinct();
    var i := 0;
    while i < |order|
      invariant 0 <= i <= |order|
      invariant OfCode(code).Some? ==> OfCode(code).value !in order[..i]
    {
      var p := Definition(order[i]);
      if p.encodedValue == code {
        return p;
      }
      assert order[..i + 1] == order[..i] + [order[i]];
      i := i + 1;
    }
    assert order[..i] == order;
    profile := NoBuyType;
  }

  /** The definition a code stands for, as `GetBuyTypeByEncodedValue` finds it. */
  function ByCode(code: int): BuyTypeDefinition
  {
    match OfCode(code)
    case None => NoBuyType
    case Some(b) => Definition(b)
  }

  /** Whether the equipment lies inside a buy type's starting-equipment range. */
  predicate EquipmentInRange(profile: BuyTypeDefinition, equipment: real)
  {
    profile.minStartingEquipment <= equipment <= profile.maxStartingEquipment
  }

  /** Every entry has a name, a minimum spend between 0 and its maximum spend, and a positive maximum spend. */
  lemma DefinitionSane(b: BuyType)
    ensures Definition(b).name != ""
    ensures 0.0 <= Definition(b).minSpend <= Definition(b).maxSpend
    ensures 0.0 < Definition(b).maxSpend
  {
    match b
    case Eco =>
    case LowBuy =>
    case HalfBuy =>
    case HeroLow =>
    case HeroHalf =>
    case FullBuy =>
  }

  /**
   * The investment an entry needs: -1 when the equipment is outside its
   * range or the funds do not reach its minimum spend, otherwise the funds
   * up to its maximum spend.
   */
  function Investment(b: BuyType, funds: real, equipment: real): (r: real)
    ensures r == -1.0 <==> !EquipmentInRange(Definition(b), equipment) || funds < Definition(b).minSpend
    ensures r != -1.0 ==> Definition(b).minSpend <= r <= funds && r <= Definition(b).maxSpend
    ensures r != -1.0 ==> r == funds || r == Definition(b).maxSpend
  {
    DefinitionSane(b);
    var profile := Definition(b);
    if profile.minStartingEquipment > equipment || profile.maxStartingEquipment < equipment then -1.0
    else if funds < profile.minSpend then -1.0
    else if funds < profile.maxSpend then funds
    else profile.maxSpend
  }

  /** `CalculateInvestmentForBuyType`: 0 for an unknown key, otherwise the entry's investment. */
  function InvestmentForBuyType(buyType: string, funds: real, equipment: real): (r: real)
    ensures Lookup(buyType).None? ==> r == 0.0
    ensures Lookup(buyType).Some? ==> r == Investment(Lookup(buyType).value, funds, equipment)
  {
    match Lookup(buyType)
    case None => 0.0
    case Some(b) => Investment(b, funds, equipment)
  }

  /** `CanAffordBuyType`: a named buy type whose equipment range holds the equipment and whose minimum spend the funds reach. */
  function CanAffordBuyType(profile: BuyTypeDefinition, funds: real, equipment: real): (b: bool)
    ensures b <==> profile.name != "" && EquipmentInRange(profile, equipment) && funds >= profile.minSpend
  {
    if profile.name == "" then false
    else if equipment < profile.minStartingEquipment || equipment > profile.maxStartingEquipment then false
    else funds >= profile.minSpend
  }

  /** Affordability and a non-negative investment agree on every entry. */
  lemma AffordableIffInvestment(b: BuyType, funds: real, equipment: real)
    ensures CanAffordBuyType(Definition(b), funds, equipment) <==> Investment(b, funds, equipment) >= 0.0
  {
    DefinitionSane(b);
  }

  const Normalizer: real := 999999.0

  /**
   * `prepareXenFeatures`: the CT and T scores, their difference, the CT and
   * T equipment and money divided by 999999, and the two buy codes. The
   * team's own score, money and equipment take the CT slots when `isCT`
   * and the T slots otherwise; the buy codes are placed as given.
   */
  function XenFeatures(ctx: Strategies.StrategyContext, ctBuyType: int, tBuyType: int, isCT: bool): (f: seq<real>)
    ensures |f| == 9
    ensures f[2] == f[0] - f[1]
    ensures f[7] == ctBuyType as real && f[8] == tBuyType as real
    ensures isCT ==> f[0] == ctx.ownScore as real && f[5] == ctx.funds / Normalizer
    ensures !isCT ==> f[1] == ctx.ownScore as real && f[6] == ctx.funds / Normalizer
  {
    var ctScore := if isCT then ctx.ownScore else ctx.opponentScore;
    var tScore := if isCT then ctx.opponentScore else ctx.ownScore;
    var ctMoney := if isCT then ctx.funds else ctx.fundsOpponent;
    var tMoney := if isCT then ctx.fundsOpponent else ctx.funds;
    var ctEquipment := if isCT then ctx.equipment else ctx.startEquipmentOpponent;
    var tEquipment := if isCT then ctx.startEquipmentOpponent else ctx.equipment;
    [ctScore as real, tScore as real, (ctScore - tScore) as real,
     ctEquipment / Normalizer, tEquipment / Normalizer, ctMoney / Normalizer, tMoney / Normalizer,
     ctBuyType as real, tBuyType as real]
  }

  /** `PredictCTWinProbability`: the model's probability clamped to [0, 1]. */
  function CTWinProbability(predict: seq<real> -> real, ctx: Strategies.StrategyContext, ctBuyType: int, tBuyType: int, isCT: bool): (p: real)
    ensures 0.0 <= p <= 1.0
  {
    Clamp(predict(XenFeatures(ctx, ctBuyType, tBuyType, isCT)), 0.0, 1.0)
  }

  /** The team's own win probability with its buy code against the opponent's. */
  function OwnWinProbability(predict: seq<real> -> real, ctx: Strategies.StrategyContext, own: int, opponent: int): (p: real)
    ensures 0.0 <= p <= 1.0
  {
    var ct := CTWinProbability(predict, ctx, own, opponent, ctx.side);
    if ctx.side then ct else 1.0 - ct
  }

  /** The least own win probability over the opponent's affordable buy codes below `n`, starting from 1. */
  function WorstCaseUpTo(predict: seq<real> -> real, ctx: Strategies.StrategyContext, own: int, n: int): (w: real)
    requires 0 <= n <= 6
    ensures 0.0 <= w <= 1.0
  {
    if n == 0 then 1.0
    else
      var w := WorstCaseUpTo(predict, ctx, own, n - 1);
      var o := n - 1;
      if CanAffordBuyType(ByCode(o), ctx.fundsOpponent, ctx.startEquipmentOpponent) && OwnWinProbability(predict, ctx, own, o) < w
      then OwnWinProbability(predict, ctx, own, o)
      else w
  }

  /** The worst case of one own buy code over all six opponent buy codes. */
  function WorstCase(predict: seq<real> -> real, ctx: Strategies.StrategyContext, own: int): real
  {
    WorstCaseUpTo(predict, ctx, own, 6)
  }

  /** No affordable opponent buy type does worse for the team than the worst case. */
  lemma {:induction false} WorstCaseIsLowest(predict: seq<real> -> real, ctx: Strategies.StrategyContext, own: int, n: int, o: int)
    requires 0 <= o < n <= 6
    requires CanAffordBuyType(ByCode(o), ctx.fundsOpponent, ctx.startEquipmentOpponent)
    ensures WorstCaseUpTo(predict, ctx, own, n) <= OwnWinProbability(predict, ctx, own, o)
  {
    if o < n - 1 {
      WorstCaseIsLowest(predict, ctx, own, n - 1, o);
    }
  }

  /** The inner loop of `InvestDecisionMaking_xen_model`: the worst case over the opponent's affordable buy types. */
  method WorstCaseWinProb(predict: seq<real> -> real, ctx: Strategies.StrategyContext, order: seq<BuyType>, own: int)
    returns (worst: real)
    requires Lists(order)
    ensures worst == WorstCase(predict, ctx, own)
  {
    worst := 1.0;
    var o := 0;
    while o < 6
      invariant 0 <= o <= 6
      invariant worst == WorstCaseUpTo(predict, ctx, own, o)
    {
      var opponent := GetBuyTypeByEncodedValue(order, o);
      if CanAffordBuyType(opponent, ctx.fundsOpponent, ctx.startEquipmentOpponent) {
        var effective := OwnWinProbability(predict, ctx, own, o);
        if effective < worst {
          worst := effective;
        }
      }
      o := o + 1;
    }
  }

  /** The amount spent when no buy type is chosen: 75% of the funds, at most $2000. */
  function EcoFallback(funds: real): real
  {
    Min(funds * 0.75, 2000.0)
  }

  /** The investment a buy type needs, for the team's funds and equipment. */
  function InvestmentOf(ctx: Strategies.StrategyContext, b: BuyType): real
  {
    Investment(b, ctx.funds, ctx.equipment)
  }

  /** A buy type the team can reach: its investment is not the -1 marker. */
  predicate Reachable(ctx: Strategies.StrategyContext, b: BuyType)
  {
    InvestmentOf(ctx, b) >= 0.0
  }

  /** The worst case of a buy type, under its model code. */
  function BuyWorstCase(predict: seq<real> -> real, ctx: Strategies.StrategyContext, b: BuyType): real
  {
    WorstCase(predict, ctx, Definition(b).encodedValue)
  }

  /** No reachable buy type has a worst case above 0, so nothing is selected. */
  predicate NothingSelected(predict: seq<real> -> real, ctx: Strategies.StrategyContext, order: seq<BuyType>)
  {
    forall k :: 0 <= k < |order| && Reachable(ctx, order[k]) ==> BuyWorstCase(predict, ctx, order[k]) <= 0.0
  }

  /**
   * Position `j` of the iteration order holds the minimax choice: a
   * reachable buy type with a positive worst case that no reachable buy
   * type beats, and that every earlier reachable one falls short of (the
   * strict `>` keeps the first of equal worst cases).
   */
  predicate Selected(predict: seq<real> -> real, ctx: Strategies.StrategyContext, order: seq<BuyType>, j: int)
  {
    && 0 <= j < |order|
    && Reachable(ctx, order[j])
    && 0.0 < BuyWorstCase(predict, ctx, order[j])
    && (forall k :: 0 <= k < |order| && Reachable(ctx, order[k]) ==>
          BuyWorstCase(predict, ctx, order[k]) <= BuyWorstCase(predict, ctx, order[j]))
    && (forall k :: 0 <= k < j && Reachable(ctx, order[k]) ==>
          BuyWorstCase(predict, ctx, order[k]) < BuyWorstCase(predict, ctx, order[j]))
  }

  /** At most one position holds the minimax choice. */
  lemma SelectedUnique(predict: seq<real> -> real, ctx: Strategies.StrategyContext, order: seq<BuyType>, i: int, j: int)
    requires Selected(predict, ctx, order, i) && Selected(predict, ctx, order, j)
    ensures i == j
  {
  }

  /** With positive funds every reachable buy type needs a positive investment. */
  lemma ReachablePositive(ctx: Strategies.StrategyContext, b: BuyType)
    requires ctx.funds > 0.0 && Reachable(ctx, b)
    ensures InvestmentOf(ctx, b) > 0.0
  {
    DefinitionSane(b);
  }

  /**
   * `InvestDecisionMaking_xen_model`: a model that fails to load panics
   * (`None`). Otherwise, over the buy types in the map's iteration order
   * `order`, skip those the team cannot reach and keep the first one whose
   * worst case is strictly above every earlier one's and above 0. Its
   * investment is the answer, or the eco fallback when that is not positive.
   */
  method XenInvest(loaded: bool, predict: seq<real> -> real, ctx: Strategies.StrategyContext, order: seq<BuyType>)
    returns (r: Option<real>)
    requires Lists(order)
    ensures r.None? <==> !loaded
    ensures r.Some? && ctx.funds >= 0.0 ==> 0.0 <= r.value <= ctx.funds
    ensures r.Some? && NothingSelected(predict, ctx, order) ==> r.value == EcoFallback(ctx.funds)
    ensures r.Some? && !NothingSelected(predict, ctx, order) ==>
              exists j :: Selected(predict, ctx, order, j)
                && r.value == (if InvestmentOf(ctx, order[j]) > 0.0 then InvestmentOf(ctx, order[j]) else EcoFallback(ctx.funds))
    ensures r.Some? && ctx.funds > 0.0 && !NothingSelected(predict, ctx, order) ==>
              exists j :: Selected(predict, ctx, order, j) && r.value == InvestmentOf(ctx, order[j]) > 0.0
  {
    if !loaded {
      return None;
    }
    var bestWorstCase := 0.0;
    var bestInvestment := 0.0;
    var best := -1;
    var i := 0;
    while i < |order|
      invariant 0 <= i <= |order|
      invariant -1 <= best < i
      invariant best == -1 ==> bestWorstCase == 0.0 && bestInvestment == 0.0
      invariant best != -1 ==> InvestmentOf(ctx, order[best]) == bestInvestment && Reachable(ctx, order[best])
      invariant best != -1 ==> bestWorstCase == BuyWorstCase(predict, ctx, order[best]) && 0.0 < bestWorstCase
      invariant best != -1 ==> forall k :: 0 <= k < best && Reachable(ctx, order[k]) ==>
                  BuyWorstCase(predict, ctx, order[k]) < bestWorstCase
      invariant forall k :: 0 <= k < i && Reachable(ctx, order[k]) ==>
                  BuyWorstCase(predict, ctx, order[k]) <= bestWorstCase
      invariant ctx.funds >= 0.0 ==> bestInvestment <= ctx.funds
    {
      var key := order[i];
      var amount := InvestmentForBuyType(Key(key), ctx.funds, ctx.equipment);
      LookupKey(key);
      if amount >= 0.0 {
        var worst := WorstCaseWinProb(predict, ctx, order, Definition(key).encodedValue);
        if worst > bestWorstCase {
          bestWorstCase := worst;
          bestInvestment := amount;
          best := i;
        }
      }
      i := i + 1;
    }
    var investment;
    if bestInvestment <= 0.0 {
      investment := EcoFallback(ctx.funds);
    } else {
      investment := bestInvestment;
    }
    if best != -1 {
      assert Selected(predict, ctx, order, best);
      if ctx.funds > 0.0 {
        ReachablePositive(ctx, order[best]);
      }
    }
    r := Some(investment);
  }
}
