// The game loop: round counting, the side switch, the start of overtime,
// the score and the end-of-game test.

module EngineGame {
  import opened Wrappers
  import opened GoInt
  import opened EngineTeam
  import opened EngineRound
  import opened GameRulesModel

  /** What the end-of-game test, exactly as written, does with a score. */
  datatype Verdict = Continue | Finished(team2Wins: bool) | DivisionByZero

  /**
   * The end-of-game test as written: a regulation win at 16 against at
   * most 14, or from round 30 on an overtime rule that divides both
   * scores' excess over 16 by the overtime count, with Go's truncating
   * division. A zero overtime count there is a run-time panic.
   */
  function FinishVerdictAsWritten(score0: int, score1: int, currentRound: int, otCounter: int): Verdict
  {
    if score0 == 16 && score1 < 15 then Finished(false)
    else if score1 == 16 && score0 < 15 then Finished(true)
    else if currentRound >= 30 && otCounter == 0 then DivisionByZero
    else if currentRound >= 30 && GoDiv(score0 - 16, otCounter) > 4 && GoDiv(score1 - 16, otCounter) > 4
      && score0 - score1 > 2
    then Finished(!(score0 > score1))
    else Continue
  }

  /** The concrete input: 15-15 after round 30, before overtime. */
  lemma FifteenAllPanics()
    ensures FinishVerdictAsWritten(15, 15, 30, 0) == DivisionByZero
  {
  }

  /**
   * The end-of-game test with the overtime rule guarded by a started
   * overtime: None while the game goes on, Some(WinnerTeam) once it ends
   * (false for team 1, true for team 2).
   */
  function FinishVerdict(score0: int, score1: int, currentRound: int, otCounter: int): (v: Option<bool>)
    ensures score0 == 16 && score1 < 15 ==> v == Some(false)
    ensures score1 == 16 && score0 < 15 ==> v == Some(true)
  {
    if score0 == 16 && score1 < 15 then Some(false)
    else if score1 == 16 && score0 < 15 then Some(true)
    else if currentRound >= 30 && otCounter != 0 && GoDiv(score0 - 16, otCounter) > 4
      && GoDiv(score1 - 16, otCounter) > 4 && score0 - score1 > 2
    then Some(!(score0 > score1))
    else None
  }

  /**
   * The guarded test never divides by zero, and wherever the test as
   * written does not panic the two agree.
   */
  lemma {:induction false} FinishVerdictAgrees(score0: int, score1: int, currentRound: int, otCounter: int)
    ensures FinishVerdictAsWritten(score0, score1, currentRound, otCounter) != DivisionByZero ==>
      ((FinishVerdict(score0, score1, currentRound, otCounter) == None)
       <==> (FinishVerdictAsWritten(score0, score1, currentRound, otCounter) == Continue))
    ensures FinishVerdictAsWritten(score0, score1, currentRound, otCounter).Finished? ==>
      FinishVerdict(score0, score1, currentRound, otCounter)
        == Some(FinishVerdictAsWritten(score0, score1, currentRound, otCounter).team2Wins)
  {
  }

  /**
   * Team 2 only ever wins in regulation: the overtime rule needs team 1 to
   * lead by more than two, so it always names team 1.
   */
  lemma Team2WinsOnlyInRegulation(score0: int, score1: int, currentRound: int, otCounter: int)
    ensures FinishVerdict(score0, score1, currentRound, otCounter) == Some(true) ==> score1 == 16 && score0 < 15
  {
  }

  /** No game ends before someone reaches 16. */
  lemma NoWinnerBelowSixteen(score0: int, score1: int, currentRound: int, otCounter: int)
    requires score0 < 16 && score1 < 16 && otCounter >= 0
    ensures FinishVerdict(score0, score1, currentRound, otCounter) == None
  {
    if otCounter != 0 && currentRound >= 30 {
      assert score0 - 16 < 0;
      assert GoDiv(score0 - 16, otCounter) == -((16 - score0) / otCounter);
    }
  }

  /** Does the round about to be played start (or restart) overtime? */
  function StartsOvertime(currentRound: int, ot: bool, otCounter: int): bool
  {
    currentRound == 31 || (ot && currentRound == 15 + otCounter * 6 + 1)
  }

  /** Does the round about to be played switch sides in overtime? */
  function OvertimeSwitch(currentRound: int, ot: bool, otCounter: int): bool
  {
    ot && currentRound == 15 + otCounter * 3 + 1
  }

  class Game {
    const team1: Team
    const team2: Team
    /** true while team 1 plays CT. */
    var currentCT: bool
    var ot: bool
    var otCounter: int
    var firstHalf: bool
    var sideswitch: bool
    var score0: int
    var score1: int
    var currentRound: int
    var inProgress: bool
    var rules: GameRules
    /** false when team 1 won, true when team 2 won. */
    var winnerTeam: bool
    /** The side team 1 started on. */
    const startCT: bool

    /**
     * The state a game keeps from creation on: two distinct teams whose
     * sides follow `currentCT`, one point per round played, the only side
     * switch at round 15, overtime from round 31 with a single overtime
     * count.
     */
    predicate Valid()
      reads this, team1, team2
    {
      team1 != team2
      && team1.side == currentCT && team2.side == !currentCT
      && 0 <= score0 && 0 <= score1 && score0 + score1 == currentRound
      && firstHalf == (currentRound < 15)
      && currentCT == (if currentRound < 15 then startCT else !startCT)
      && ot == (currentRound >= 31)
      && otCounter == (if currentRound >= 31 then 1 else 0)
    }

    /**
     * `NewGame`: two new teams on opposite sides with the starting money
     * and equipment, nothing played. The side draw and the loaded rules are
     * parameters.
     */
    constructor (team1Name: string, team1Strategy: string, team2Name: string, team2Strategy: string,
                 rules: GameRules, currentCT: bool)
      ensures Valid() && fresh(team1) && fresh(team2)
      ensures this.currentCT == currentCT && startCT == currentCT && this.rules == rules
      ensures !ot && otCounter == 0 && firstHalf && !sideswitch
      ensures score0 == 0 && score1 == 0 && currentRound == 0 && !inProgress
      ensures team1.name == team1Name && team1.strategy == team1Strategy
      ensures team2.name == team2Name && team2.strategy == team2Strategy
      ensures team1.funds == 5.0 * rules.startingFunds && team2.funds == 5.0 * rules.startingFunds
      ensures team1.equipment == 5.0 * rules.defaultEquipment && team2.equipment == 5.0 * rules.defaultEquipment
    {
      team1 := new Team(team1Name, rules.startingFunds, currentCT, rules.defaultEquipment, team1Strategy);
      team2 := new Team(team2Name, rules.startingFunds, !currentCT, rules.defaultEquipment, team2Strategy);
      this.currentCT := currentCT;
      startCT := currentCT;
      ot := false;
      otCounter := 0;
      firstHalf := true;
      sideswitch := false;
      score0, score1 := 0, 0;
      currentRound := 0;
      this.rules := rules;
      inProgress := false;
      winnerTeam := false;
    }

    /**
     * In a game that has not been won in regulation by round 30, overtime
     * has not started yet, so the end-of-game test as written divides by
     * zero after that round.
     */
    lemma AsWrittenTestPanicsAtRoundThirty()
      requires Valid() && currentRound == 30
      requires !(score0 == 16 && score1 < 15) && !(score1 == 16 && score0 < 15)
      ensures otCounter == 0
      ensures FinishVerdictAsWritten(score0, score1, currentRound, otCounter) == DivisionByZero
    {
    }

    /** `UpdateScore`: exactly one point, to score 0 when `winner` is true, else to score 1. */
    method UpdateScore(winner: bool)
      modifies this`score0, this`score1
      ensures winner ==> score0 == old(score0) + 1 && score1 == old(score1)
      ensures !winner ==> score1 == old(score1) + 1 && score0 == old(score0)
    {
      if winner {
        score0 := score0 + 1;
      } else {
        score1 := score1 + 1;
      }
    }

    /** `switchSide`: flags the switch, flips the half and the CT side, and both teams switch and restart. */
    method SwitchSide()
      requires team1 != team2
      modifies this`sideswitch, this`firstHalf, this`currentCT, team1, team2
      ensures sideswitch && firstHalf == !old(firstHalf) && currentCT == !old(currentCT)
      ensures team1.side == !old(team1.side) && team2.side == !old(team2.side)
      ensures var funds := if ot then 5.0 * rules.otFunds else 5.0 * rules.startingFunds;
        team1.funds == funds && team2.funds == funds
      ensures team1.equipment == 5.0 * team1.defaultEquipment && team1.playersAlive == 5
      ensures team2.equipment == 5.0 * team2.defaultEquipment && team2.playersAlive == 5
      ensures team1.score == old(team1.score) && team2.score == old(team2.score)
    {
      sideswitch := true;
      firstHalf := !firstHalf;
      currentCT := !currentCT;
      team1.Sideswitch(ot, rules.startingFunds, rules.otFunds);
      team2.Sideswitch(ot, rules.startingFunds, rules.otFunds);
    }

    /** Both teams get the overtime money and default equipment. */
    method StartOvertime()
      requires team1 != team2
      modifies this`ot, this`otCounter, team1, team2
      ensures ot && otCounter == old(otCounter) + 1
      ensures team1.funds == 5.0 * rules.otFunds && team2.funds == 5.0 * rules.otFunds
      ensures team1.equipment == 5.0 * team1.defaultEquipment && team1.playersAlive == 5
      ensures team2.equipment == 5.0 * team2.defaultEquipment && team2.playersAlive == 5
      ensures team1.side == old(team1.side) && team2.side == old(team2.side)
      ensures team1.score == old(team1.score) && team2.score == old(team2.score)
    {
      ot := true;
      otCounter := otCounter + 1;
      team1.NewOT(rules.otFunds);
      team2.NewOT(rules.otFunds);
    }

    /**
     * `GameState`, run before each round: the switch at round 15, the start
     * of overtime at round 31 (or, in overtime, at round 16 + 6 times the
     * overtime count), and the overtime switch at round 16 + 3 times the
     * overtime count. The flags are the ones the code tests in that order.
     */
    method GameState()
      requires team1 != team2
      modifies this`sideswitch, this`firstHalf, this`currentCT, this`ot, this`otCounter, team1, team2
      ensures var s1 := old(currentRound) == 15;
        var o := StartsOvertime(currentRound, old(ot), old(otCounter));
        var s2 := OvertimeSwitch(currentRound, old(ot) || o, old(otCounter) + (if o then 1 else 0));
        ot == (old(ot) || o) && otCounter == old(otCounter) + (if o then 1 else 0)
        && currentCT == (old(currentCT) != (s1 != s2)) && firstHalf == (old(firstHalf) != (s1 != s2))
        && team1.side == (old(team1.side) != (s1 != s2)) && team2.side == (old(team2.side) != (s1 != s2))
        && sideswitch == (old(sideswitch) || s1 || s2)
      ensures var s1 := old(currentRound) == 15;
        var o := StartsOvertime(currentRound, old(ot), old(otCounter));
        var s2 := OvertimeSwitch(currentRound, old(ot) || o, old(otCounter) + (if o then 1 else 0));
        var funds := if o || s2 then 5.0 * rules.otFunds
                     else if s1 then (if old(ot) then 5.0 * rules.otFunds else 5.0 * rules.startingFunds)
                     else old(team1.funds);
        team1.funds == funds && team2.funds == (if o || s1 || s2 then funds else old(team2.funds))
      ensures team1.score == old(team1.score) && team2.score == old(team2.score)
    {
      if currentRound == 15 {
        SwitchSide();
      }
      if StartsOvertime(currentRound, ot, otCounter) {
        StartOvertime();
      }
      if OvertimeSwitch(currentRound, ot, otCounter) {
        SwitchSide();
      }
    }

    /** `GameFinished`, with the overtime rule applied only once overtime has started. */
    method GameFinished()
      modifies this`inProgress, this`winnerTeam
      ensures FinishVerdict(score0, score1, currentRound, otCounter) == None ==>
        inProgress == old(inProgress) && winnerTeam == old(winnerTeam)
      ensures FinishVerdict(score0, score1, currentRound, otCounter).Some? ==>
        !inProgress && Some(winnerTeam) == FinishVerdict(score0, score1, currentRound, otCounter)
    {
      if score0 == 16 && score1 < 15 {
        inProgress := false;
        winnerTeam := false;
      } else if score1 == 16 && score0 < 15 {
        inProgress := false;
        winnerTeam := true;
      } else if currentRound >= 30 && otCounter != 0 && GoDiv(score0 - 16, otCounter) > 4
        && GoDiv(score1 - 16, otCounter) > 4 && score0 - score1 > 2 {
        inProgress := false;
        // the code's `if score0 > score1` choice; the guard above already makes score0 the larger
        winnerTeam := !(score0 > score1);
      }
    }

    /**
     * One pass of the game loop: next round number, `GameState`, the teams'
     * new round, the point to the round's winner, the switch flag cleared,
     * and the end-of-game test. The round's winner is a parameter.
     */
    method PlayRound(winner: bool)
      requires Valid()
      modifies this, team1, team2
      ensures Valid()
      ensures currentRound == old(currentRound) + 1 && !sideswitch
      ensures currentRound == 15 ==>
        currentCT == !old(currentCT) && !firstHalf
        && team1.funds == 5.0 * rules.startingFunds && team2.funds == 5.0 * rules.startingFunds
      ensures currentRound == 31 ==>
        ot && otCounter == 1 && team1.funds == 5.0 * rules.otFunds && team2.funds == 5.0 * rules.otFunds
      ensures currentRound != 15 ==> currentCT == old(currentCT)
      ensures winner ==> score0 == old(score0) + 1 && score1 == old(score1)
      ensures !winner ==> score1 == old(score1) + 1 && score0 == old(score0)
      ensures FinishVerdict(score0, score1, currentRound, otCounter) == None ==> inProgress == old(inProgress)
      ensures FinishVerdict(score0, score1, currentRound, otCounter).Some? ==>
        !inProgress && Some(winnerTeam) == FinishVerdict(score0, score1, currentRound, otCounter)
    {
      currentRound := currentRound + 1;
      GameState();
      var round := new Round(team1, team2, currentRound, currentCT, sideswitch, rules, ot);
      UpdateScore(winner);
      sideswitch := false;
      GameFinished();
    }

    /**
     * `Start`: plays rounds while the game is in progress. The round
     * winners come in as a sequence; the loop stops when the game ends or
     * the sequence runs out. The game only ever stops because the
     * end-of-game test ended it.
     */
    method Start(winners: seq<bool>) returns (played: nat)
      requires Valid()
      modifies this, team1, team2
      ensures Valid()
      ensures played <= |winners| && currentRound == old(currentRound) + played
      ensures played < |winners| ==> !inProgress
      ensures !inProgress ==> played > 0 && Some(winnerTeam) == FinishVerdict(score0, score1, currentRound, otCounter)
      ensures inProgress ==> played == |winners|
    {
      inProgress := true;
      played := 0;
      while inProgress && played < |winners|
        invariant Valid()
        invariant played <= |winners| && currentRound == old(currentRound) + played
        invariant !inProgress ==> played > 0 && Some(winnerTeam) == FinishVerdict(score0, score1, currentRound, otCounter)
        decreases |winners| - played
      {
        PlayRound(winners[played]);
        played := played + 1;
      }
    }
  }
}
