// The game rules: the defaults, strict validation and the merge of a decoded
// JSON rules file over the defaults. Opening and decoding the file are inputs.

module GameRulesModel {
  /** The four round-outcome rewards, a Go `[4]float64`. */
  type Reward4 = s: seq<real> | |s| == 4 witness [0.0, 0.0, 0.0, 0.0]

  datatype GameRules = GameRules(
    defaultEquipment: real,
    otFunds: real,
    otEquipment: real,
    startingFunds: real,
    halfLength: int,
    otHalfLength: int,
    maxFunds: real,
    lossBonusCalc: bool,
    withSaves: bool,
    lossBonus: seq<real>,
    roundOutcomeReward: Reward4,
    eliminationReward: real,
    bombplantRewardAll: real,
    bombplantReward: real,
    bombdefuseReward: real,
    additionalRewardCTElimination: real,
    additionalRewardTElimination: real,
    customCsfRValue: real)

  /** `getDefaultRules`. */
  function DefaultRules(): GameRules
  {
    GameRules(
      defaultEquipment := 200.0,
      otFunds := 10000.0,
      otEquipment := 200.0,
      startingFunds := 800.0,
      halfLength := 15,
      otHalfLength := 3,
      maxFunds := 16000.0 * 5.0,
      lossBonusCalc := true,
      withSaves := true,
      lossBonus := [1400.0, 1900.0, 2400.0, 2900.0, 3400.0],
      roundOutcomeReward := [3500.0, 3250.0, 3500.0, 3250.0],
      eliminationReward := 300.0,
      bombplantRewardAll := 800.0,
      bombplantReward := 300.0,
      bombdefuseReward := 300.0,
      additionalRewardCTElimination := 0.0,
      additionalRewardTElimination := 0.0,
      customCsfRValue := -1.0)
  }

  predicate AllNonNegative(s: seq<real>)
  {
    forall k :: 0 <= k < |s| ==> s[k] >= 0.0
  }

  predicate AllZero(s: seq<real>)
  {
    forall k :: 0 <= k < |s| ==> s[k] == 0.0
  }

  /** The money fields `validateGameRulesStrict` checks. */
  predicate MoneyNonNegative(r: GameRules)
  {
    r.defaultEquipment >= 0.0 && r.startingFunds >= 0.0 && r.otFunds >= 0.0
    && r.otEquipment >= 0.0 && r.maxFunds >= 0.0
  }

  /** The six reward fields `validateGameRulesStrict` checks. */
  predicate RewardsNonNegative(r: GameRules)
  {
    r.eliminationReward >= 0.0 && r.bombplantRewardAll >= 0.0 && r.bombplantReward >= 0.0
    && r.bombdefuseReward >= 0.0 && r.additionalRewardCTElimination >= 0.0 && r.additionalRewardTElimination >= 0.0
  }

  /**
   * `validateGameRulesStrict`, check by check in the source's order. The two
   * checks that a bool is true or false can never fail and are left out.
   */
  function ValidateStrict(r: GameRules): (ok: bool)
    ensures ok <==> MoneyNonNegative(r) && r.halfLength > 0 && r.otHalfLength > 0 && RewardsNonNegative(r)
                    && AllNonNegative(r.roundOutcomeReward) && AllNonNegative(r.lossBonus)
  {
    if r.defaultEquipment < 0.0 then false
    else if r.startingFunds < 0.0 then false
    else if r.otFunds < 0.0 then false
    else if r.otEquipment < 0.0 then false
    else if r.maxFunds < 0.0 then false
    else if r.halfLength <= 0 then false
    else if r.otHalfLength <= 0 then false
    else if r.eliminationReward < 0.0 then false
    else if r.bombplantRewardAll < 0.0 then false
    else if r.bombplantReward < 0.0 then false
    else if r.bombdefuseReward < 0.0 then false
    else if r.additionalRewardCTElimination < 0.0 then false
    else if r.additionalRewardTElimination < 0.0 then false
    else if !AllNonNegative(r.roundOutcomeReward) then false
    else AllNonNegative(r.lossBonus)
  }

  /** The default rules pass strict validation. */
  lemma DefaultsValid()
    ensures ValidateStrict(DefaultRules())
  {
    var d := DefaultRules();
    assert AllNonNegative(d.roundOutcomeReward);
    assert AllNonNegative(d.lossBonus);
  }

  /** The decoded value of a JSON field, or the default when the merge rule does not take it. */
  function TakePositive(v: real, default: real): real { if v > 0.0 then v else default }
  function TakeNonNegative(v: real, default: real): real { if v >= 0.0 then v else default }

  /**
   * The candidate `NewGameRules` merges from the defaults: a money or length
   * field is taken only when the JSON value is positive, a reward (and the
   * custom CSF r value) whenever it is not negative, the two flags always,
   * the outcome rewards when any entry is non-zero and the loss bonus list
   * when it is non-empty. Absent JSON fields decode as zero/false.
   */
  function MergedRules(json: GameRules): GameRules
  {
    var d := DefaultRules();
    GameRules(
      defaultEquipment := TakePositive(json.defaultEquipment, d.defaultEquipment),
      otFunds := TakePositive(json.otFunds, d.otFunds),
      otEquipment := TakePositive(json.otEquipment, d.otEquipment),
      startingFunds := TakePositive(json.startingFunds, d.startingFunds),
      halfLength := if json.halfLength > 0 then json.halfLength else d.halfLength,
      otHalfLength := if json.otHalfLength > 0 then json.otHalfLength else d.otHalfLength,
      maxFunds := TakePositive(json.maxFunds, d.maxFunds),
      lossBonusCalc := json.lossBonusCalc,
      withSaves := json.withSaves,
      lossBonus := if |json.lossBonus| > 0 then json.lossBonus else d.lossBonus,
      roundOutcomeReward := if AllZero(json.roundOutcomeReward) then d.roundOutcomeReward else json.roundOutcomeReward,
      eliminationReward := TakeNonNegative(json.eliminationReward, d.eliminationReward),
      bombplantRewardAll := TakeNonNegative(json.bombplantRewardAll, d.bombplantRewardAll),
      bombplantReward := TakeNonNegative(json.bombplantReward, d.bombplantReward),
      bombdefuseReward := TakeNonNegative(json.bombdefuseReward, d.bombdefuseReward),
      additionalRewardCTElimination := TakeNonNegative(json.additionalRewardCTElimination, d.additionalRewardCTElimination),
      additionalRewardTElimination := TakeNonNegative(json.additionalRewardTElimination, d.additionalRewardTElimination),
      customCsfRValue := TakeNonNegative(json.customCsfRValue, d.customCsfRValue))
  }

  /** The merge as `NewGameRules` performs it: successive assignments to a copy of the defaults. */
  method Merge(json: GameRules) returns (candidate: GameRules)
    ensures candidate == MergedRules(json)
  {
    candidate := MergeFields(json);
    var hasRoundRewards := false;
    var k := 0;
    while k < 4
      invariant 0 <= k <= 4
      invariant !hasRoundRewards
      invariant forall l :: 0 <= l < k ==> json.roundOutcomeReward[l] == 0.0
    {
      if json.roundOutcomeReward[k] != 0.0 {
        hasRoundRewards := true;
        break;
      }
      k := k + 1;
    }
    assert hasRoundRewards <==> !AllZero(json.roundOutcomeReward);
    if hasRoundRewards { candidate := candidate.(roundOutcomeReward := json.roundOutcomeReward); }
    if |json.lossBonus| > 0 { candidate := candidate.(lossBonus := json.lossBonus); }
  }

  /** The scalar fields of the merge; the two lists keep their defaults. */
  method MergeFields(json: GameRules) returns (candidate: GameRules)
    ensures candidate == MergedRules(json).(roundOutcomeReward := DefaultRules().roundOutcomeReward,
                                            lossBonus := DefaultRules().lossBonus)
  {
    candidate := DefaultRules();
    // Each `if json.X > 0 { candidate.X = json.X }` of the source, one field at a time.
    candidate := candidate.(defaultEquipment := TakePositive(json.defaultEquipment, candidate.defaultEquipment));
    candidate := candidate.(otEquipment := TakePositive(json.otEquipment, candidate.otEquipment));
    candidate := candidate.(otFunds := TakePositive(json.otFunds, candidate.otFunds));
    candidate := candidate.(startingFunds := TakePositive(json.startingFunds, candidate.startingFunds));
    if json.halfLength > 0 { candidate := candidate.(halfLength := json.halfLength); }
    if json.otHalfLength > 0 { candidate := candidate.(otHalfLength := json.otHalfLength); }
    candidate := candidate.(maxFunds := TakePositive(json.maxFunds, candidate.maxFunds));
    candidate := candidate.(lossBonusCalc := json.lossBonusCalc);
    candidate := candidate.(withSaves := json.withSaves);
    // Each `if json.X >= 0 { candidate.X = json.X }`.
    candidate := candidate.(eliminationReward := TakeNonNegative(json.eliminationReward, candidate.eliminationReward));
    candidate := candidate.(bombplantRewardAll := TakeNonNegative(json.bombplantRewardAll, candidate.bombplantRewardAll));
    candidate := candidate.(bombplantReward := TakeNonNegative(json.bombplantReward, candidate.bombplantReward));
    candidate := candidate.(bombdefuseReward := TakeNonNegative(json.bombdefuseReward, candidate.bombdefuseReward));
    candidate := candidate.(additionalRewardCTElimination :=
      TakeNonNegative(json.additionalRewardCTElimination, candidate.additionalRewardCTElimination));
    candidate := candidate.(additionalRewardTElimination :=
      TakeNonNegative(json.additionalRewardTElimination, candidate.additionalRewardTElimination));
    candidate := candidate.(customCsfRValue := TakeNonNegative(json.customCsfRValue, candidate.customCsfRValue));
  }

  /** What reading the rules file produced. */
  datatype RulesFile = CannotOpen | CannotParse | Decoded(json: GameRules)

  /**
   * `NewGameRules`: the defaults with false for the empty path, "default",
   * an unreadable or unparsable file, or a merged candidate that fails
   * validation; otherwise the candidate with true.
   */
  method NewGameRules(path: string, file: RulesFile) returns (rules: GameRules, loaded: bool)
    ensures path == "" || path == "default" ==> rules == DefaultRules() && !loaded
    ensures !file.Decoded? ==> rules == DefaultRules() && !loaded
    ensures loaded <==> path != "" && path != "default" && file.Decoded? && ValidateStrict(MergedRules(file.json))
    ensures loaded ==> rules == MergedRules(file.json)
    ensures !loaded ==> rules == DefaultRules()
    ensures ValidateStrict(rules)
  {
    DefaultsValid();
    rules := DefaultRules();
    loaded := false;
    if path != "" && path != "default" {
      match file {
        case CannotOpen => return;
        case CannotParse => return;
        case Decoded(json) =>
          var candidate := Merge(json);
          if !ValidateStrict(candidate) {
            return;
          }
          rules := candidate;
          loaded := true;
      }
    }
  }

  /**
   * A merged candidate can only fail validation through the two arrays: a
   * non-zero outcome-reward array with a negative entry, or a non-empty loss
   * bonus list with a negative entry. Every scalar field is safe because it
   * is overwritten only by a positive (or non-negative) value.
   */
  lemma MergedValidIff(json: GameRules)
    ensures ValidateStrict(MergedRules(json)) <==>
      (AllZero(json.roundOutcomeReward) || AllNonNegative(json.roundOutcomeReward))
      && (|json.lossBonus| == 0 || AllNonNegative(json.lossBonus))
  {
    DefaultsValid();
  }

  /** The all-zero record a JSON file holding only `{}` decodes to. */
  function EmptyObject(): GameRules
  {
    GameRules(0.0, 0.0, 0.0, 0.0, 0, 0, 0.0, false, false, [], [0.0, 0.0, 0.0, 0.0], 0.0, 0.0, 0.0, 0.0, 0.0, 0.0, 0.0)
  }

  /**
   * A rules file holding only `{}` passes validation and is loaded, but with
   * every reward zeroed and both flags false: zero counts as an explicit
   * reward and the flag test always holds.
   */
  lemma EmptyObjectLoaded()
    ensures ValidateStrict(MergedRules(EmptyObject()))
    ensures var r := MergedRules(EmptyObject());
      r.eliminationReward == 0.0 && r.bombplantReward == 0.0 && r.bombdefuseReward == 0.0
      && !r.lossBonusCalc && !r.withSaves && r.customCsfRValue == 0.0
      && r.halfLength == 15 && r.startingFunds == 800.0 && r.lossBonus == DefaultRules().lossBonus
  {
    MergedValidIff(EmptyObject());
    assert AllZero(EmptyObject().roundOutcomeReward);
  }
}
