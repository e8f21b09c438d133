// One round of a game: the team reset at its start, the winner mapping from
// the round outcome, and the money paid out at its end (round rewards, kill
// money and the loss-bonus ladder).

module EngineRound {
  import opened EngineTeam
  import opened GameRulesModel
  import opened Reals

  /** The fields of the round outcome that the round logic reads. */
  datatype RoundOutcome = RoundOutcome(
    reasonCode: int,
    bombPlanted: bool,
    ctWins: bool,
    ctSurvivors: int,
    tSurvivors: int,
    ctEquipmentPerPlayer: seq<real>,
    tEquipmentPerPlayer: seq<real>)

  /** The outcome a fresh round holds before anything is stored in it. */
  function ZeroOutcome(): RoundOutcome
  {
    RoundOutcome(0, false, false, 0, 0, [], [])
  }

  /** `LossBonusCalculation`: the per-player loss bonus at a loss-bonus level. */
  function LossBonusCalculation(level: int): (bonus: real)
    ensures 1400.0 <= bonus <= 3400.0
    ensures level <= 0 ==> bonus == 1400.0
    ensures level >= 4 ==> bonus == 3400.0
  {
    if level >= 4 then 3400.0
    else if level == 3 then 2900.0
    else if level == 2 then 2400.0
    else if level == 1 then 1900.0
    else 1400.0
  }

  /** A higher level never pays less. */
  lemma LossBonusMonotone(l1: int, l2: int)
    requires l1 <= l2
    ensures LossBonusCalculation(l1) <= LossBonusCalculation(l2)
  {
  }

  /** Between levels 0 and 4 every further loss adds 500 per player. */
  lemma LossBonusStep(level: int)
    requires 0 <= level < 4
    ensures LossBonusCalculation(level + 1) == LossBonusCalculation(level) + 500.0
  {
  }

  /** The team-wide round rewards by end reason, as (winner, loser). */
  function BaseRewards(reasonCode: int, bombPlanted: bool): (p: (real, real))
    ensures reasonCode == 3 ==> p.1 == 4300.0
    ensures reasonCode != 3 ==> p.1 == 0.0
    ensures reasonCode == 1 || reasonCode == 3 ==> p.0 == 17800.0
    ensures reasonCode == 4 || (reasonCode == 2 && !bombPlanted) ==> p.0 == 16250.0
    ensures reasonCode == 2 && bombPlanted ==> p.0 == 16550.0
    ensures reasonCode < 1 || reasonCode > 4 ==> p.0 == 0.0
  {
    if reasonCode == 1 then (3500.0 * 5.0 + 300.0, 0.0)
    else if reasonCode == 2 then (3250.0 * 5.0 + (if bombPlanted then 300.0 else 0.0), 0.0)
    else if reasonCode == 3 then (3500.0 * 5.0 + 300.0, 800.0 * 5.0 + 300.0)
    else if reasonCode == 4 then (3250.0 * 5.0, 0.0)
    else (0.0, 0.0)
  }

  /** How many players the loss bonus is paid to: on a CT win by reason 4 the surviving Ts get none. */
  function LossBonusPlayers(o: RoundOutcome): int
  {
    if o.ctWins then 5 - (if o.reasonCode == 4 then o.tSurvivors else 0) else 5
  }

  /**
   * The money of a round, as (winner, loser): the round reward, 300 per
   * player the other side lost, and for the loser the loss bonus.
   */
  function Payout(o: RoundOutcome, lossBonus: real): (p: (real, real))
  {
    var base := BaseRewards(o.reasonCode, o.bombPlanted);
    var winnerSurvivors := if o.ctWins then o.ctSurvivors else o.tSurvivors;
    var loserSurvivors := if o.ctWins then o.tSurvivors else o.ctSurvivors;
    (base.0 + (5 - loserSurvivors) as real * 300.0,
     base.1 + (5 - winnerSurvivors) as real * 300.0 + lossBonus * LossBonusPlayers(o) as real)
  }

  /**
   * The loss bonus goes to the loser only: the winner's amount does not
   * depend on it, and the loser's grows by the bonus times the number of
   * players it is paid to (5, or 5 - TSurvivors on a CT win by reason 4).
   */
  lemma LossBonusShare(o: RoundOutcome, bonus: real)
    ensures Payout(o, bonus).0 == Payout(o, 0.0).0
    ensures Payout(o, bonus).1 - Payout(o, 0.0).1
      == bonus * (if o.ctWins && o.reasonCode == 4 then 5 - o.tSurvivors else 5) as real
  {
  }

  /** With survivor counts between 0 and 5 and a ladder bonus, both amounts are bounded. */
  lemma PayoutBounds(o: RoundOutcome, level: int)
    requires 0 <= o.ctSurvivors <= 5 && 0 <= o.tSurvivors <= 5
    ensures var p := Payout(o, LossBonusCalculation(level));
      0.0 <= p.0 <= 17800.0 + 1500.0 && 0.0 <= p.1 <= 4300.0 + 1500.0 + 5.0 * 3400.0
  {
    var bonus := LossBonusCalculation(level);
    var n := LossBonusPlayers(o);
    assert 0 <= n <= 5;
    assert 0.0 <= bonus * n as real <= 3400.0 * n as real <= 5.0 * 3400.0;
  }

  /**
   * A team's next loss-bonus level: one up after a loss; after a win one
   * down when the ladder is enabled (it may go negative), else back to 0.
   */
  function NextLevel(lossBonusCalc: bool, level: int, lost: bool): (next: int)
    ensures lost ==> next == level + 1
    ensures !lost && lossBonusCalc ==> next == level - 1
    ensures !lost && !lossBonusCalc ==> next == 0
  {
    if lost then level + 1 else if lossBonusCalc then level - 1 else 0
  }

  /** With the ladder enabled, one team goes up and the other down, so the sum of the two levels is kept. */
  lemma LadderKeepsLevelSum(l1: int, l2: int, team1Lost: bool)
    ensures NextLevel(true, l1, team1Lost) + NextLevel(true, l2, !team1Lost) == l1 + l2
  {
  }

  class Round {
    var roundNumber: int
    /** true if team 1 plays CT this round. */
    var isT1CT: bool
    var calcOutcome: RoundOutcome
    var isT1Winner: bool
    var sideswitch: bool
    var rules: GameRules
    var ot: bool

    /** `NewRound`: both teams start a new round, and the round records its parameters. */
    constructor (t1: Team, t2: Team, roundNumber: int, ctTeam: bool, sideswitch: bool, rules: GameRules, ot: bool)
      requires t1 != t2
      modifies t1, t2
      ensures this.roundNumber == roundNumber && isT1CT == ctTeam && this.sideswitch == sideswitch
      ensures this.rules == rules && this.ot == ot
      ensures calcOutcome == ZeroOutcome() && !isT1Winner
      ensures t1.spent == 0.0 && t1.earned == 0.0 && t1.playersAlive == 5
      ensures t1.equipment == old(t1.remainingEquipment) + (5 - old(t1.playersAlive)) as real * t1.defaultEquipment
      ensures t2.spent == 0.0 && t2.earned == 0.0 && t2.playersAlive == 5
      ensures t2.equipment == old(t2.remainingEquipment) + (5 - old(t2.playersAlive)) as real * t2.defaultEquipment
      ensures t1.funds == old(t1.funds) && t1.side == old(t1.side) && t1.score == old(t1.score)
      ensures t2.funds == old(t2.funds) && t2.side == old(t2.side) && t2.score == old(t2.score)
      ensures t1.lossBonusLevel == old(t1.lossBonusLevel) && t2.lossBonusLevel == old(t2.lossBonusLevel)
    {
      t1.NewRound();
      t2.NewRound();
      this.roundNumber := roundNumber;
      this.isT1CT := ctTeam;
      this.sideswitch := sideswitch;
      this.rules := rules;
      this.ot := ot;
      this.calcOutcome := ZeroOutcome();
      this.isT1Winner := false;
    }

    /**
     * The winner mapping of `determineRoundOutcome`: team 1 wins exactly
     * when its side is the side that won. The sampled outcome is only read
     * here; it is not stored in `calcOutcome`.
     */
    method DetermineRoundOutcome(outcome: RoundOutcome)
      modifies this`isT1Winner
      ensures isT1Winner <==> (isT1CT == outcome.ctWins)
      ensures calcOutcome == old(calcOutcome)
    {
      isT1Winner := !outcome.ctWins;
      if isT1CT {
        isT1Winner := outcome.ctWins;
      }
    }

    /** Team 1's side lost the round stored in `calcOutcome`. */
    predicate Team1SideLost()
      reads this
    {
      isT1CT != calcOutcome.ctWins
    }

    /**
     * `determineFundsEarned`: records each team's saved equipment, pays the
     * loss bonus of the losing side's level as it was before this round,
     * moves both levels, sets each team's Earned to its share of the payout
     * (the winner's share to team 1 exactly when `isT1Winner`), and caps
     * both teams' funds at MaxFunds. Nothing else in either team changes.
     */
    method DetermineFundsEarned(team1: Team, team2: Team)
      requires team1 != team2
      modifies team1`savedEquipment, team1`lossBonusLevel, team1`earned, team1`funds
      modifies team2`savedEquipment, team2`lossBonusLevel, team2`earned, team2`funds
      ensures team1.savedEquipment == Sum(if isT1CT then calcOutcome.ctEquipmentPerPlayer else calcOutcome.tEquipmentPerPlayer)
      ensures team2.savedEquipment == Sum(if isT1CT then calcOutcome.tEquipmentPerPlayer else calcOutcome.ctEquipmentPerPlayer)
      ensures team1.lossBonusLevel == NextLevel(rules.lossBonusCalc, old(team1.lossBonusLevel), Team1SideLost())
      ensures team2.lossBonusLevel == NextLevel(rules.lossBonusCalc, old(team2.lossBonusLevel), !Team1SideLost())
      ensures var bonus := LossBonusCalculation(if Team1SideLost() then old(team1.lossBonusLevel) else old(team2.lossBonusLevel));
        var p := Payout(calcOutcome, bonus);
        team1.earned == (if isT1Winner then p.0 else p.1) && team2.earned == (if isT1Winner then p.1 else p.0)
      ensures team1.funds == Min(old(team1.funds), rules.maxFunds) && team1.funds <= rules.maxFunds
      ensures team2.funds == Min(old(team2.funds), rules.maxFunds) && team2.funds <= rules.maxFunds
    {
      var base := BaseRewards(calcOutcome.reasonCode, calcOutcome.bombPlanted);
      var ctTeam, tTeam := team2, team1;
      if isT1CT {
        ctTeam, tTeam := team1, team2;
        team1.SetSavedEquipment(Sum(calcOutcome.ctEquipmentPerPlayer));
        team2.SetSavedEquipment(Sum(calcOutcome.tEquipmentPerPlayer));
      } else {
        team1.SetSavedEquipment(Sum(calcOutcome.tEquipmentPerPlayer));
        team2.SetSavedEquipment(Sum(calcOutcome.ctEquipmentPerPlayer));
      }

      // the losing side's bonus, read before the levels move
      var loser, winner := ctTeam, tTeam;
      if calcOutcome.ctWins {
        loser, winner := tTeam, ctTeam;
      }
      var lossBonus := LossBonusCalculation(loser.lossBonusLevel);

      loser.SetLossBonusLevel(loser.lossBonusLevel + 1);
      if rules.lossBonusCalc {
        winner.SetLossBonusLevel(winner.lossBonusLevel - 1);
      } else {
        winner.SetLossBonusLevel(0);
      }

      var p := Payout(calcOutcome, lossBonus);
      var earned1, earned2 := p.1, p.0;
      if isT1Winner {
        earned1, earned2 := p.0, p.1;
      }
      team1.SetEarned(earned1);
      team1.SetFunds(Min(team1.funds, rules.maxFunds));
      team2.SetEarned(earned2);
      team2.SetFunds(Min(team2.funds, rules.maxFunds));
    }
  }
}
