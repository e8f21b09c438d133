// A team's economy during a game: funds, equipment, score and losing streak,
// updated in place by the round and game logic.

module EngineTeam {
  class Team {
    var name: string
    /** true while the team plays CT. */
    var side: bool
    var funds: real
    var earned: real
    var equipment: real
    var remainingEquipment: real
    /** The per-player default equipment, fixed when the team is created. */
    const defaultEquipment: real
    var playersAlive: int
    var score: int
    var consecutiveLoss: int
    var spent: real
    var strategy: string
    /** Loss-bonus level and saved equipment: the state the round logic reads and writes through accessors. */
    var lossBonusLevel: int
    var savedEquipment: real

    /** `NewTeam`: five players, five times the starting funds and default equipment, nothing scored or spent. */
    constructor (name: string, startingFunds: real, side: bool, defaultEquipment: real, strategy: string)
      ensures this.name == name && this.side == side && this.strategy == strategy
      ensures this.defaultEquipment == defaultEquipment
      ensures funds == 5.0 * startingFunds && equipment == 5.0 * defaultEquipment
      ensures playersAlive == 5 && remainingEquipment == 0.0
      ensures score == 0 && consecutiveLoss == 0 && spent == 0.0 && earned == 0.0
      ensures lossBonusLevel == 0 && savedEquipment == 0.0
    {
      this.name := name;
      this.funds := 5.0 * startingFunds;
      this.playersAlive := 5;
      this.side := side;
      this.equipment := 5.0 * defaultEquipment;
      this.defaultEquipment := defaultEquipment;
      this.remainingEquipment := 0.0;
      this.score := 0;
      this.consecutiveLoss := 0;
      this.spent := 0.0;
      this.earned := 0.0;
      this.strategy := strategy;
      this.lossBonusLevel := 0;
      this.savedEquipment := 0.0;
    }

    /**
     * `RoundEnd`: a win scores a point and ends the losing streak, a loss
     * lengthens it; the round's money is credited to both Funds and Earned.
     */
    method RoundEnd(winner: bool, fundsEarned: real, alive: int, remaining: real)
      modifies this
      ensures winner ==> score == old(score) + 1 && consecutiveLoss == 0
      ensures !winner ==> score == old(score) && consecutiveLoss == old(consecutiveLoss) + 1
      ensures funds == old(funds) + fundsEarned && earned == old(earned) + fundsEarned
      ensures playersAlive == alive && remainingEquipment == remaining
      ensures side == old(side) && equipment == old(equipment) && spent == old(spent)
      ensures lossBonusLevel == old(lossBonusLevel) && savedEquipment == old(savedEquipment)
      ensures name == old(name) && strategy == old(strategy)
    {
      if winner {
        score := score + 1;
        consecutiveLoss := 0;
      } else {
        consecutiveLoss := consecutiveLoss + 1;
      }
      EarnFunds(fundsEarned);
      playersAlive := alive;
      remainingEquipment := remaining;
    }

    /** `NewOT`: overtime funds and default equipment for five players; side and score are untouched. */
    method NewOT(otFunds: real)
      modifies this
      ensures equipment == 5.0 * defaultEquipment && funds == 5.0 * otFunds && playersAlive == 5
      ensures side == old(side) && score == old(score) && consecutiveLoss == old(consecutiveLoss)
      ensures earned == old(earned) && spent == old(spent) && remainingEquipment == old(remainingEquipment)
      ensures lossBonusLevel == old(lossBonusLevel) && savedEquipment == old(savedEquipment)
      ensures name == old(name) && strategy == old(strategy)
    {
      equipment := 5.0 * defaultEquipment;
      funds := 5.0 * otFunds;
      playersAlive := 5;
    }

    /** `Sideswitch`: change sides and restart the economy (overtime funds in overtime). */
    method Sideswitch(ot: bool, startingFunds: real, otFunds: real)
      modifies this
      ensures side == !old(side)
      ensures funds == (if ot then 5.0 * otFunds else 5.0 * startingFunds)
      ensures equipment == 5.0 * defaultEquipment && playersAlive == 5
      ensures score == old(score) && consecutiveLoss == old(consecutiveLoss)
      ensures earned == old(earned) && spent == old(spent) && remainingEquipment == old(remainingEquipment)
      ensures lossBonusLevel == old(lossBonusLevel) && savedEquipment == old(savedEquipment)
      ensures name == old(name) && strategy == old(strategy)
    {
      side := !side;
      if ot {
        funds := 5.0 * otFunds;
      } else {
        funds := 5.0 * startingFunds;
      }
      equipment := 5.0 * defaultEquipment;
      playersAlive := 5;
    }

    /** `NewRound`: survivors keep their equipment, the dead are re-equipped by default, all five are back. */
    method NewRound()
      modifies this
      ensures spent == 0.0 && earned == 0.0
      ensures equipment == old(remainingEquipment) + (5 - old(playersAlive)) as real * defaultEquipment
      ensures playersAlive == 5
      ensures funds == old(funds) && side == old(side) && score == old(score) && consecutiveLoss == old(consecutiveLoss)
      ensures remainingEquipment == old(remainingEquipment)
      ensures lossBonusLevel == old(lossBonusLevel) && savedEquipment == old(savedEquipment)
      ensures name == old(name) && strategy == old(strategy)
    {
      spent := 0.0;
      earned := 0.0;
      equipment := remainingEquipment + (5 - playersAlive) as real * defaultEquipment;
      playersAlive := 5;
    }

    method EarnFunds(amount: real)
      modifies this
      ensures funds == old(funds) + amount && earned == old(earned) + amount
      ensures side == old(side) && equipment == old(equipment) && spent == old(spent)
      ensures score == old(score) && consecutiveLoss == old(consecutiveLoss)
      ensures playersAlive == old(playersAlive) && remainingEquipment == old(remainingEquipment)
      ensures lossBonusLevel == old(lossBonusLevel) && savedEquipment == old(savedEquipment)
      ensures name == old(name) && strategy == old(strategy)
    {
      funds := funds + amount;
      earned := earned + amount;
    }

    /**
     * `SpendFunds`: an affordable amount moves from Funds into Spent and
     * Equipment; an unaffordable one changes nothing. Funds never go
     * negative, and Funds + Equipment is unchanged either way.
     */
    method SpendFunds(amount: real)
      modifies this
      ensures amount <= old(funds) ==>
        funds == old(funds) - amount && spent == old(spent) + amount && equipment == old(equipment) + amount
      ensures amount > old(funds) ==> funds == old(funds) && spent == old(spent) && equipment == old(equipment)
      ensures old(funds) >= 0.0 ==> funds >= 0.0
      ensures funds + equipment == old(funds) + old(equipment)
      ensures earned == old(earned) && side == old(side) && score == old(score) && consecutiveLoss == old(consecutiveLoss)
      ensures playersAlive == old(playersAlive) && remainingEquipment == old(remainingEquipment)
      ensures lossBonusLevel == old(lossBonusLevel) && savedEquipment == old(savedEquipment)
      ensures name == old(name) && strategy == old(strategy)
    {
      if amount <= funds {
        funds := funds - amount;
        spent := spent + amount;
        equipment := equipment + amount;
      }
    }

    /** The setter the round logic calls as `SetEarned`: records the round's earnings. */
    method SetEarned(amount: real)
      modifies this`earned
      ensures earned == amount
    {
      earned := amount;
    }

    /** The setter the round logic calls as `SetFunds`. */
    method SetFunds(amount: real)
      modifies this`funds
      ensures funds == amount
    {
      funds := amount;
    }

    /** The setter the round logic calls as `SetCurrentLossBonusLevel`. */
    method SetLossBonusLevel(level: int)
      modifies this`lossBonusLevel
      ensures lossBonusLevel == level
    {
      lossBonusLevel := level;
    }

    /** The setter the round logic calls as `SetREEqValue`: the equipment the team saved this round. */
    method SetSavedEquipment(value: real)
      modifies this`savedEquipment
      ensures savedEquipment == value
    {
      savedEquipment := value;
    }
  }
}
