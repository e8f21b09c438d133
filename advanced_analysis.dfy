// The records of the advanced analysis and its helpers: the histogram of a
// list of values, the correlation of two series (up to its final square
// root) and the ordering of streaks by length.

module AdvancedAnalysisModel {
  import opened Reals

  /** A run of rounds won by one team, with the economic edges at its ends. */
  datatype StreakInfo = StreakInfo(
    length: int,
    startRound: int,
    endRound: int,
    startEconomicEdge: real,
    endEconomicEdge: real,
    startEquipmentEdge: real,
    endEquipmentEdge: real,
    economicChange: real,
    equipmentChange: real,
    gameID: string)

  /** The total length of a list of streaks. */
  function SumLengths(s: seq<StreakInfo>): int
  {
    if s == [] then 0 else SumLengths(s[..|s| - 1]) + s[|s| - 1].length
  }

  /** One team's money in one round, and whether that team won the round. */
  datatype SpendingDecision = SpendingDecision(
    availableFunds: real,
    amountSpent: real,
    spendRatio: real,
    roundWon: bool,
    team: string)

  /** The accumulated (later averaged) values of one round number over all games. */
  datatype RoundTimePoint = RoundTimePoint(
    roundNumber: int,
    team1AvgFunds: real,
    team2AvgFunds: real,
    team1AvgEquipment: real,
    team2AvgEquipment: real,
    avgEconomicAdvantage: real,
    avgEquipmentAdvantage: real,
    team1Wins: int,
    team2Wins: int,
    team1WinRate: real,
    team1AvgSpent: real,
    team2AvgSpent: real,
    team1AvgEarned: real,
    team2AvgEarned: real,
    team1AvgSurvivors: real,
    team2AvgSurvivors: real,
    gamesReachedThisRound: int)

  /** A histogram bin: values v with min <= v < max (the last bin also takes v == max). */
  datatype FrequencyBin = FrequencyBin(min: real, max: real, frequency: int, percentage: real)

  /** The win rate of team 1 over the samples whose advantage lies in [minAdvantage, maxAdvantage). */
  datatype AdvantageRange = AdvantageRange(minAdvantage: real, maxAdvantage: real, team1WinRate: real, sampleSize: int)

  /** The comeback statistics of one deficit size. */
  datatype ComebackScenario = ComebackScenario(
    attempts: int,
    successes: int,
    successRate: real,
    avgEconomicEdge: real,
    avgEquipmentEdge: real)

  /** Rounds won by half and by side. */
  datatype HalfSideAnalysis = HalfSideAnalysis(
    firstHalfTeam1Wins: int,
    firstHalfTeam2Wins: int,
    firstHalfTeam1WinRate: real,
    secondHalfTeam1Wins: int,
    secondHalfTeam2Wins: int,
    secondHalfTeam1WinRate: real,
    team1CTRounds: int,
    team1CTWins: int,
    team1CTWinRate: real,
    team1CTAvgFunds: real,
    team1CTAvgEquipment: real,
    team1TRounds: int,
    team1TWins: int,
    team1TWinRate: real,
    team1TAvgFunds: real,
    team1TAvgEquipment: real,
    team2CTRounds: int,
    team2CTWins: int,
    team2CTWinRate: real,
    team2CTAvgFunds: real,
    team2CTAvgEquipment: real,
    team2TRounds: int,
    team2TWins: int,
    team2TWinRate: real,
    team2TAvgFunds: real,
    team2TAvgEquipment: real)

  function ZeroHalfSide(): HalfSideAnalysis
  {
    HalfSideAnalysis(0, 0, 0.0, 0, 0, 0.0, 0, 0, 0.0, 0.0, 0.0, 0, 0, 0.0, 0.0, 0.0,
                     0, 0, 0.0, 0.0, 0.0, 0, 0, 0.0, 0.0, 0.0)
  }

  /**
   * The momentum part of the analysis the model computes; the two
   * volatilities (standard deviations) are not part of this model.
   */
  datatype EconomicMomentum = EconomicMomentum(
    averageEconomicAdvantage: real,
    averageEquipmentDifferential: real,
    momentumShifts: int,
    averageMomentumDuration: real,
    team1SpendEfficiency: real,
    team2SpendEfficiency: real)

  /** Win rates by advantage range, returns on spending and the correlations of advantages with round wins. */
  datatype WinConditions = WinConditions(
    equipmentAdvantageRanges: seq<AdvantageRange>,
    economicAdvantageRanges: seq<AdvantageRange>,
    team1EquipmentROI: real,
    team2EquipmentROI: real,
    fundsCorrelation: Correlation,
    equipmentCorrelation: Correlation,
    consecLossCorrelation: Correlation)

  /** The length statistics of one team's win streaks. */
  datatype StreakSummary = StreakSummary(sorted: seq<StreakInfo>, avgWinStreak: real, maxWinStreak: int)

  /** What the win streaks of one length did to team 1's edges, on average (team 2's streaks counted negated). */
  datatype StreakEconomicImpact = StreakEconomicImpact(
    streakLength: int,
    occurrences: int,
    avgEconomicAdvantageGain: real,
    avgEquipmentAdvantageGain: real,
    nextRoundWinRate: real)

  /** The parts of the advanced analysis this model computes. */
  datatype AdvancedAnalysis = AdvancedAnalysis(
    economicMomentum: EconomicMomentum,
    winConditions: WinConditions,
    comebacksByDeficit: map<int, ComebackScenario>,
    halfSideEffects: HalfSideAnalysis,
    timeSeries: seq<RoundTimePoint>,
    spendingDecisions: seq<SpendingDecision>,
    team1Streaks: StreakSummary,
    team2Streaks: StreakSummary,
    streakEconomicImpact: seq<StreakEconomicImpact>)

  /** `NewAdvancedAnalysis`: every list and map empty and every figure zero. */
  function NewAdvancedAnalysis(): (a: AdvancedAnalysis)
    ensures a.winConditions.equipmentAdvantageRanges == [] && a.winConditions.economicAdvantageRanges == []
    ensures a.winConditions.fundsCorrelation.NoCorrelation?
    ensures a.comebacksByDeficit == map[] && a.streakEconomicImpact == []
    ensures a.timeSeries == [] && a.spendingDecisions == []
    ensures a.team1Streaks.sorted == [] && a.team2Streaks.sorted == []
    ensures a.team1Streaks.maxWinStreak == 0 && a.team2Streaks.maxWinStreak == 0
    ensures a.economicMomentum.momentumShifts == 0
    ensures a.halfSideEffects.team1CTRounds == 0 && a.halfSideEffects.team1TRounds == 0
  {
    AdvancedAnalysis(EconomicMomentum(0.0, 0.0, 0, 0.0, 0.0, 0.0),
                     WinConditions([], [], 0.0, 0.0, NoCorrelation, NoCorrelation, NoCorrelation),
                     map[], ZeroHalfSide(), [], [],
                     StreakSummary([], 0.0, 0), StreakSummary([], 0.0, 0), [])
  }

  // ---------------------------------------------------------------------
  // createHistogramBins
  // ---------------------------------------------------------------------

  function MinOf(values: seq<real>): real
    requires values != []
  {
    if |values| == 1 then values[0]
    else var m := MinOf(values[..|values| - 1]); if values[|values| - 1] < m then values[|values| - 1] else m
  }

  function MaxOf(values: seq<real>): real
    requires values != []
  {
    if |values| == 1 then values[0]
    else var m := MaxOf(values[..|values| - 1]); if values[|values| - 1] > m then values[|values| - 1] else m
  }

  /** Every value lies between the smallest and the largest. */
  lemma {:induction false} MinMaxBound(values: seq<real>)
    requires values != []
    ensures forall k :: 0 <= k < |values| ==> MinOf(values) <= values[k] <= MaxOf(values)
    decreases |values|
  {
    if |values| > 1 {
      var init := values[..|values| - 1];
      MinMaxBound(init);
      forall k | 0 <= k < |values|
        ensures MinOf(values) <= values[k] <= MaxOf(values)
      {
        if k < |values| - 1 {
          assert values[k] == init[k];
        }
      }
    }
  }

  /** The lower edge of bin i. */
  function Edge(lo: real, width: real, i: int): real
  {
    lo + i as real * width
  }

  /** The bin test of `createHistogramBins`. */
  predicate InBin(v: real, lo: real, width: real, numBins: int, i: int)
  {
    v >= Edge(lo, width, i) && (v < Edge(lo, width, i + 1) || (i == numBins - 1 && v == Edge(lo, width, i + 1)))
  }

  /** The first bin from i on that takes v, or numBins when none does. */
  function FirstBin(v: real, lo: real, width: real, numBins: int, i: int): (k: int)
    requires 0 <= i <= numBins
    ensures i <= k <= numBins
    ensures k < numBins ==> InBin(v, lo, width, numBins, k)
    ensures forall j :: i <= j < k ==> !InBin(v, lo, width, numBins, j)
    decreases numBins - i
  {
    if i == numBins then numBins
    else if InBin(v, lo, width, numBins, i) then i
    else FirstBin(v, lo, width, numBins, i + 1)
  }

  /** How many of the values land in bin k. */
  function Frequency(values: seq<real>, lo: real, width: real, numBins: int, k: int): nat
    requires numBins >= 0
  {
    if values == [] then 0
    else Frequency(values[..|values| - 1], lo, width, numBins, k)
         + (if FirstBin(values[|values| - 1], lo, width, numBins, 0) == k then 1 else 0)
  }

  function SumFrequencies(bins: seq<FrequencyBin>): int
  {
    if bins == [] then 0 else SumFrequencies(bins[..|bins| - 1]) + bins[|bins| - 1].frequency
  }

  /** The bins' frequencies add up as the per-bin counts do. */
  lemma {:induction false} SumFrequenciesIsTotal(bins: seq<FrequencyBin>, values: seq<real>, lo: real, width: real,
                                                 numBins: int, n: int)
    requires 0 <= n <= |bins| == numBins
    requires forall i :: 0 <= i < numBins ==> bins[i].frequency == Frequency(values, lo, width, numBins, i)
    ensures SumFrequencies(bins[..n]) == TotalFrequency(values, lo, width, numBins, n)
  {
    if n > 0 {
      assert bins[..n][..n - 1] == bins[..n - 1];
      SumFrequenciesIsTotal(bins, values, lo, width, numBins, n - 1);
    }
  }

  /** The frequencies of bins 0..n-1. */
  function TotalFrequency(values: seq<real>, lo: real, width: real, numBins: int, n: int): int
    requires numBins >= 0
    decreases if n < 0 then 0 else n
  {
    if n <= 0 then 0 else TotalFrequency(values, lo, width, numBins, n - 1) + Frequency(values, lo, width, numBins, n - 1)
  }

  /** The values that land in some bin. */
  function Landed(values: seq<real>, lo: real, width: real, numBins: int): nat
    requires numBins >= 0
  {
    if values == [] then 0
    else Landed(values[..|values| - 1], lo, width, numBins)
         + (if FirstBin(values[|values| - 1], lo, width, numBins, 0) < numBins then 1 else 0)
  }

  lemma {:induction false} TotalFrequencyStep(values: seq<real>, lo: real, width: real, numBins: int, n: int)
    requires 0 <= n <= numBins && values != []
    ensures var v := values[|values| - 1];
      TotalFrequency(values, lo, width, numBins, n)
      == TotalFrequency(values[..|values| - 1], lo, width, numBins, n)
         + (if FirstBin(v, lo, width, numBins, 0) < n then 1 else 0)
  {
    if n > 0 {
      TotalFrequencyStep(values, lo, width, numBins, n - 1);
    }
  }

  /** Each value is counted in at most one bin: the frequencies add up to the values that landed. */
  lemma {:induction false} TotalIsLanded(values: seq<real>, lo: real, width: real, numBins: int)
    requires numBins >= 0
    ensures TotalFrequency(values, lo, width, numBins, numBins) == Landed(values, lo, width, numBins)
    decreases |values|
  {
    if values == [] {
      ZeroTotal(lo, width, numBins, numBins);
    } else {
      TotalIsLanded(values[..|values| - 1], lo, width, numBins);
      TotalFrequencyStep(values, lo, width, numBins, numBins);
    }
  }

  lemma {:induction false} ZeroTotal(lo: real, width: real, numBins: int, n: int)
    requires numBins >= 0
    ensures TotalFrequency([], lo, width, numBins, n) == 0
    decreases if n < 0 then 0 else n
  {
    if n > 0 {
      ZeroTotal(lo, width, numBins, n - 1);
    }
  }

  /**
   * With exact arithmetic the bins cover [lo, lo + numBins·width]: a value
   * in that interval at or above the edge of bin i lands in bin i or later.
   */
  lemma {:induction false} Covered(v: real, lo: real, width: real, numBins: int, i: int)
    requires 0 <= i < numBins && width >= 0.0
    requires Edge(lo, width, i) <= v <= Edge(lo, width, numBins)
    ensures FirstBin(v, lo, width, numBins, i) < numBins
    decreases numBins - i
  {
    if !InBin(v, lo, width, numBins, i) {
      if i == numBins - 1 {
        assert false;
      }
      EdgeMonotone(lo, width, i + 1, numBins);
      Covered(v, lo, width, numBins, i + 1);
    }
  }

  lemma EdgeMonotone(lo: real, width: real, i: int, j: int)
    requires i <= j && width >= 0.0
    ensures Edge(lo, width, i) <= Edge(lo, width, j)
  {
    assert (j - i) as real * width >= 0.0;
    assert j as real * width == i as real * width + (j - i) as real * width;
  }

  /** Every value between lo and hi lands when the width is (hi - lo) / numBins. */
  lemma {:induction false} AllLanded(values: seq<real>, lo: real, hi: real, numBins: int)
    requires numBins > 0 && lo <= hi
    requires forall k :: 0 <= k < |values| ==> lo <= values[k] <= hi
    ensures Landed(values, lo, (hi - lo) / numBins as real, numBins) == |values|
    decreases |values|
  {
    if values != [] {
      var width := (hi - lo) / numBins as real;
      assert Edge(lo, width, numBins) == hi;
      assert Edge(lo, width, 0) == lo;
      Covered(values[|values| - 1], lo, width, numBins, 0);
      AllLanded(values[..|values| - 1], lo, hi, numBins);
    }
  }

  /** The first loop of `createHistogramBins`: the smallest and the largest value. */
  method MinMax(values: seq<real>) returns (minVal: real, maxVal: real)
    requires values != []
    ensures minVal == MinOf(values) && maxVal == MaxOf(values)
  {
    minVal, maxVal := values[0], values[0];
    var k := 1;
    while k < |values|
      invariant 1 <= k <= |values|
      invariant minVal == MinOf(values[..k]) && maxVal == MaxOf(values[..k])
    {
      assert values[..k + 1][..k] == values[..k];
      if values[k] < minVal {
        minVal := values[k];
      }
      if values[k] > maxVal {
        maxVal := values[k];
      }
      k := k + 1;
    }
    assert values[..k] == values;
  }

  /** The bins a histogram over [lo, lo + numBins·width] starts from: contiguous, empty. */
  predicate EmptyBins(bins: seq<FrequencyBin>, lo: real, width: real)
  {
    forall j :: 0 <= j < |bins| ==> bins[j] == FrequencyBin(Edge(lo, width, j), Edge(lo, width, j + 1), 0, 0.0)
  }

  /** The bins with their edges and the frequencies of the given values. */
  predicate CountedBins(bins: seq<FrequencyBin>, values: seq<real>, lo: real, width: real)
  {
    forall j :: 0 <= j < |bins| ==>
      bins[j].min == Edge(lo, width, j) && bins[j].max == Edge(lo, width, j + 1)
      && bins[j].frequency == Frequency(values, lo, width, |bins|, j)
  }

  /** The second loop of `createHistogramBins`: numBins empty bins of the given width. */
  method InitBins(numBins: nat, lo: real, width: real) returns (a: array<FrequencyBin>)
    ensures fresh(a) && a.Length == numBins
    ensures EmptyBins(a[..], lo, width)
  {
    a := new FrequencyBin[numBins];
    var i := 0;
    while i < numBins
      invariant 0 <= i <= numBins
      invariant forall j :: 0 <= j < i ==>
        a[j] == FrequencyBin(Edge(lo, width, j), Edge(lo, width, j + 1), 0, 0.0)
    {
      a[i] := FrequencyBin(Edge(lo, width, i), Edge(lo, width, i + 1), 0, 0.0);
      i := i + 1;
    }
  }

  /** Counts one value into the first bin that takes it, if any. */
  method CountValue(a: array<FrequencyBin>, done: seq<real>, v: real, lo: real, width: real)
    requires CountedBins(a[..], done, lo, width)
    modifies a
    ensures CountedBins(a[..], done + [v], lo, width)
    ensures forall j :: 0 <= j < a.Length ==> a[j].percentage == old(a[j].percentage)
  {
    var numBins := a.Length;
    var b := FirstBin(v, lo, width, numBins, 0);
    assert (done + [v])[..|done|] == done;
    var j := 0;
    while j < numBins && !(v >= a[j].min && (v < a[j].max || (j == numBins - 1 && v == a[j].max)))
      invariant 0 <= j <= b
    {
      assert a[j].min == Edge(lo, width, j) && a[j].max == Edge(lo, width, j + 1) by {
        assert a[..][j] == a[j];
      }
      j := j + 1;
    }
    if j < numBins {
      assert a[j].min == Edge(lo, width, j) && a[j].max == Edge(lo, width, j + 1) by {
        assert a[..][j] == a[j];
      }
      assert InBin(v, lo, width, numBins, j);
      assert j == b;
      a[j] := a[j].(frequency := a[j].frequency + 1);
    }
  }

  /** The third loop of `createHistogramBins`: every value counted into its bin. */
  method CountValues(a: array<FrequencyBin>, values: seq<real>, lo: real, width: real)
    requires EmptyBins(a[..], lo, width)
    modifies a
    ensures CountedBins(a[..], values, lo, width)
    ensures forall j :: 0 <= j < a.Length ==> a[j].percentage == 0.0
  {
    var k := 0;
    assert CountedBins(a[..], values[..0], lo, width) by {
      assert values[..0] == [];
      forall j | 0 <= j < a.Length
        ensures a[..][j].min == Edge(lo, width, j) && a[..][j].max == Edge(lo, width, j + 1)
        ensures a[..][j].frequency == Frequency([], lo, width, a.Length, j)
      {
        assert a[..][j] == FrequencyBin(Edge(lo, width, j), Edge(lo, width, j + 1), 0, 0.0);
      }
    }
    forall j | 0 <= j < a.Length
      ensures a[j].percentage == 0.0
    {
      assert a[j] == a[..][j] == FrequencyBin(Edge(lo, width, j), Edge(lo, width, j + 1), 0, 0.0);
    }
    while k < |values|
      invariant 0 <= k <= |values|
      invariant CountedBins(a[..], values[..k], lo, width)
      invariant forall j :: 0 <= j < a.Length ==> a[j].percentage == 0.0
    {
      assert values[..k + 1] == values[..k] + [values[k]];
      CountValue(a, values[..k], values[k], lo, width);
      k := k + 1;
    }
    assert values[..k] == values;
  }

  /** The last loop of `createHistogramBins`: each bin's share in percent. */
  method FillPercentages(a: array<FrequencyBin>, total: real)
    requires total != 0.0
    modifies a
    ensures forall j :: 0 <= j < a.Length ==>
      a[j] == old(a[j]).(percentage := old(a[j]).frequency as real / total * 100.0)
  {
    var i := 0;
    while i < a.Length
      invariant 0 <= i <= a.Length
      invariant forall j :: i <= j < a.Length ==> a[j] == old(a[j])
      invariant forall j :: 0 <= j < i ==>
        a[j] == old(a[j]).(percentage := old(a[j]).frequency as real / total * 100.0)
    {
      a[i] := a[i].(percentage := a[i].frequency as real / total * 100.0);
      i := i + 1;
    }
  }

  /**
   * `createHistogramBins`: no bins for no values; otherwise numBins bins of
   * equal width from the smallest to the largest value, adjacent bins
   * sharing an edge, each value counted in the first bin that takes it,
   * and each bin's share of the values in percent.
   */
  method CreateHistogramBins(values: seq<real>, numBins: int) returns (bins: seq<FrequencyBin>)
    requires numBins >= 0
    ensures values == [] ==> bins == []
    ensures values != [] ==> |bins| == numBins
    ensures values != [] ==> forall i :: 0 <= i < numBins - 1 ==> bins[i].max == bins[i + 1].min
    ensures values != [] ==> forall i :: 0 <= i < numBins ==>
      var width := (MaxOf(values) - MinOf(values)) / numBins as real;
      bins[i].min == Edge(MinOf(values), width, i) && bins[i].max == Edge(MinOf(values), width, i + 1)
      && bins[i].frequency == Frequency(values, MinOf(values), width, numBins, i)
      && bins[i].percentage == bins[i].frequency as real / |values| as real * 100.0
    ensures values != [] && numBins > 0 ==> SumFrequencies(bins) == |values|
  {
    if values == [] {
      return [];
    }
    var minVal, maxVal := MinMax(values);
    if numBins == 0 {
      return [];
    }
    var binWidth := (maxVal - minVal) / numBins as real;
    var a := InitBins(numBins, minVal, binWidth);
    CountValues(a, values, minVal, binWidth);
    FillPercentages(a, |values| as real);
    bins := a[..];
    assert bins[..numBins] == bins;
    SumFrequenciesIsTotal(bins, values, minVal, binWidth, numBins, numBins);
    HistogramCountsEveryValue(values, numBins);
  }

  /**
   * With exact arithmetic every value is counted: the bins' frequencies add
   * up to the number of values.
   */
  lemma {:induction false} HistogramCountsEveryValue(values: seq<real>, numBins: int)
    requires values != [] && numBins > 0
    ensures var width := (MaxOf(values) - MinOf(values)) / numBins as real;
      TotalFrequency(values, MinOf(values), width, numBins, numBins) == |values|
  {
    MinMaxBound(values);
    AllLanded(values, MinOf(values), MaxOf(values), numBins);
    TotalIsLanded(values, MinOf(values), (MaxOf(values) - MinOf(values)) / numBins as real, numBins);
  }

  /** When all values are equal the width is 0 and every value falls in the last bin. */
  lemma {:induction false} EqualValuesInLastBin(values: seq<real>, numBins: int, v: real)
    requires numBins > 0 && values != []
    requires forall k :: 0 <= k < |values| ==> values[k] == v
    ensures MinOf(values) == v && MaxOf(values) == v
    ensures FirstBin(v, v, 0.0, numBins, 0) == numBins - 1
  {
    ConstantMinMax(values, v);
    forall j | 0 <= j < numBins - 1
      ensures !InBin(v, v, 0.0, numBins, j)
    {
    }
    assert InBin(v, v, 0.0, numBins, numBins - 1);
    LastBinFirst(v, numBins, 0);
  }

  lemma {:induction false} ConstantMinMax(values: seq<real>, v: real)
    requires values != [] && forall k :: 0 <= k < |values| ==> values[k] == v
    ensures MinOf(values) == v && MaxOf(values) == v
    decreases |values|
  {
    if |values| > 1 {
      ConstantMinMax(values[..|values| - 1], v);
    }
  }

  lemma {:induction false} LastBinFirst(v: real, numBins: int, i: int)
    requires 0 <= i < numBins
    requires forall j :: i <= j < numBins - 1 ==> !InBin(v, v, 0.0, numBins, j)
    requires InBin(v, v, 0.0, numBins, numBins - 1)
    ensures FirstBin(v, v, 0.0, numBins, i) == numBins - 1
    decreases numBins - i
  {
    if i < numBins - 1 {
      LastBinFirst(v, numBins, i + 1);
    }
  }

  // ---------------------------------------------------------------------
  // calculateCorrelation
  // ---------------------------------------------------------------------

  /** Σ (x[i] - m)². */
  function SumSquares(x: seq<real>, m: real): real
  {
    if x == [] then 0.0 else SumSquares(x[..|x| - 1], m) + (x[|x| - 1] - m) * (x[|x| - 1] - m)
  }

  /** Σ (x[i] - mx)(y[i] - my). */
  function SumProducts(x: seq<real>, y: seq<real>, mx: real, my: real): real
    requires |x| == |y|
  {
    if x == [] then 0.0
    else SumProducts(x[..|x| - 1], y[..|y| - 1], mx, my) + (x[|x| - 1] - mx) * (y[|y| - 1] - my)
  }

  /**
   * The correlation as `calculateCorrelation` returns it: 0, or the
   * numerator over the square root of the product of the two sums of
   * squares (kept here as that product).
   */
  datatype Correlation = NoCorrelation | Ratio(numerator: real, denominatorSquared: real)

  /** The correlation of two series, as a ratio whose denominator is kept squared. */
  function CorrelationOf(x: seq<real>, y: seq<real>): Correlation
  {
    if |x| != |y| || |x| == 0 || SumSquares(x, Mean(x)) == 0.0 || SumSquares(y, Mean(y)) == 0.0 then NoCorrelation
    else Ratio(SumProducts(x, y, Mean(x), Mean(y)), SumSquares(x, Mean(x)) * SumSquares(y, Mean(y)))
  }

  /**
   * `calculateCorrelation`: 0 for series of different or zero length or when
   * either series has no variance; otherwise the co-deviation of the two
   * series over the root of the product of their squared deviations.
   */
  method CalculateCorrelation(x: seq<real>, y: seq<real>) returns (r: Correlation)
    ensures r == CorrelationOf(x, y)
  {
    if |x| != |y| || |x| == 0 {
      return NoCorrelation;
    }
    var n := |x| as real;
    var meanX, meanY := SumPair(x, y);
    meanX := meanX / n;
    meanY := meanY / n;
    assert meanX == Mean(x) && meanY == Mean(y);
    var numerator, denomX, denomY := Deviations(x, y, meanX, meanY);
    if denomX == 0.0 || denomY == 0.0 {
      return NoCorrelation;
    }
    return Ratio(numerator, denomX * denomY);
  }

  /**
   * A correlation that is not 0 has a positive squared denominator, so its
   * square root and the division are defined; and the correlation of x with
   * y is that of y with x.
   */
  lemma CorrelationProperties(x: seq<real>, y: seq<real>)
    ensures CorrelationOf(x, y).Ratio? ==> CorrelationOf(x, y).denominatorSquared > 0.0
    ensures CorrelationOf(x, y) == CorrelationOf(y, x)
  {
    SumSquaresNonNegative(x, Mean(x));
    SumSquaresNonNegative(y, Mean(y));
    if |x| == |y| {
      SumProductsSymmetric(x, y, Mean(x), Mean(y));
      PositiveProduct(SumSquares(x, Mean(x)), SumSquares(y, Mean(y)));
    }
  }

  lemma PositiveProduct(a: real, b: real)
    requires a >= 0.0 && b >= 0.0
    ensures a != 0.0 && b != 0.0 ==> a * b > 0.0
    ensures a * b == b * a
  {
  }

  lemma {:induction false} SumProductsSymmetric(x: seq<real>, y: seq<real>, mx: real, my: real)
    requires |x| == |y|
    ensures SumProducts(x, y, mx, my) == SumProducts(y, x, my, mx)
    decreases |x|
  {
    if x != [] {
      SumProductsSymmetric(x[..|x| - 1], y[..|y| - 1], mx, my);
    }
  }

  /** The first loop of `calculateCorrelation`: the sums of both series. */
  method SumPair(x: seq<real>, y: seq<real>) returns (sx: real, sy: real)
    requires |x| == |y|
    ensures sx == Sum(x) && sy == Sum(y)
  {
    sx, sy := 0.0, 0.0;
    var i := 0;
    while i < |x|
      invariant 0 <= i <= |x|
      invariant sx == Sum(x[..i]) && sy == Sum(y[..i])
    {
      assert x[..i + 1][..i] == x[..i];
      assert y[..i + 1][..i] == y[..i];
      sx := sx + x[i];
      sy := sy + y[i];
      i := i + 1;
    }
    assert x[..i] == x && y[..i] == y;
  }

  /** The second loop of `calculateCorrelation`: the co-deviation and both squared deviations. */
  method Deviations(x: seq<real>, y: seq<real>, meanX: real, meanY: real)
    returns (numerator: real, denomX: real, denomY: real)
    requires |x| == |y|
    ensures numerator == SumProducts(x, y, meanX, meanY)
    ensures denomX == SumSquares(x, meanX) && denomY == SumSquares(y, meanY)
  {
    numerator, denomX, denomY := 0.0, 0.0, 0.0;
    var i := 0;
    while i < |x|
      invariant 0 <= i <= |x|
      invariant numerator == SumProducts(x[..i], y[..i], meanX, meanY)
      invariant denomX == SumSquares(x[..i], meanX) && denomY == SumSquares(y[..i], meanY)
    {
      assert x[..i + 1][..i] == x[..i];
      assert y[..i + 1][..i] == y[..i];
      var diffX := x[i] - meanX;
      var diffY := y[i] - meanY;
      numerator := numerator + diffX * diffY;
      denomX := denomX + diffX * diffX;
      denomY := denomY + diffY * diffY;
      i := i + 1;
    }
    assert x[..i] == x && y[..i] == y;
  }

  lemma {:induction false} SumSquaresNonNegative(x: seq<real>, m: real)
    ensures SumSquares(x, m) >= 0.0
    decreases |x|
  {
    if x != [] {
      SumSquaresNonNegative(x[..|x| - 1], m);
      var d := x[|x| - 1] - m;
      assert d * d >= 0.0 by {
        if d < 0.0 {
          assert d * d == (-d) * (-d);
        }
      }
    }
  }

  lemma {:induction false} SumOfConstant(x: seq<real>, c: real)
    requires forall k :: 0 <= k < |x| ==> x[k] == c
    ensures Sum(x) == |x| as real * c
    decreases |x|
  {
    if x != [] {
      SumOfConstant(x[..|x| - 1], c);
    }
  }

  lemma {:induction false} SquaresOfConstant(x: seq<real>, c: real)
    requires forall k :: 0 <= k < |x| ==> x[k] == c
    ensures SumSquares(x, c) == 0.0
    decreases |x|
  {
    if x != [] {
      SquaresOfConstant(x[..|x| - 1], c);
    }
  }

  /** A constant series has no variance, so its correlation with anything is 0. */
  lemma ConstantSeriesNoCorrelation(x: seq<real>, c: real)
    requires |x| > 0 && forall k :: 0 <= k < |x| ==> x[k] == c
    ensures Mean(x) == c && SumSquares(x, Mean(x)) == 0.0
  {
    SumOfConstant(x, c);
    SquaresOfConstant(x, c);
  }

  // ---------------------------------------------------------------------
  // sortStreaksByLength
  // ---------------------------------------------------------------------

  predicate LengthDescending(s: seq<StreakInfo>)
  {
    forall i, j :: 0 <= i < j < |s| ==> s[i].length >= s[j].length
  }

  /** The first n streaks of the array are in descending length order. */
  predicate DescendingPrefix(a: array<StreakInfo>, n: int)
    reads a
  {
    forall p, q :: 0 <= p < q < n && q < a.Length ==> a[p].length >= a[q].length
  }

  /** Exchanges the streaks at j - 1 and j. */
  method Swap(a: array<StreakInfo>, j: int)
    requires 0 < j < a.Length
    modifies a
    ensures a[j - 1] == old(a[j]) && a[j] == old(a[j - 1])
    ensures forall k :: 0 <= k < a.Length && k != j - 1 && k != j ==> a[k] == old(a[k])
    ensures multiset(a[..]) == multiset(old(a[..]))
  {
    a[j - 1], a[j] := a[j], a[j - 1];
  }

  /** One step of the sort: the streak at i moved left past every shorter one. */
  method InsertStreak(a: array<StreakInfo>, i: int)
    requires 0 < i < a.Length && DescendingPrefix(a, i)
    modifies a
    ensures DescendingPrefix(a, i + 1)
    ensures multiset(a[..]) == multiset(old(a[..]))
  {
    var j := i;
    while j > 0 && a[j - 1].length < a[j].length
      invariant 0 <= j <= i
      invariant multiset(a[..]) == multiset(old(a[..]))
      invariant forall p, q :: 0 <= p < q <= i && q != j ==> a[p].length >= a[q].length
      invariant 0 < j < i ==> a[j - 1].length >= a[j + 1].length
    {
      Swap(a, j);
      j := j - 1;
    }
  }

  /** `sortStreaksByLength`: the streaks rearranged in place into descending length order. */
  method SortStreaksByLength(a: array<StreakInfo>)
    modifies a
    ensures LengthDescending(a[..])
    ensures multiset(a[..]) == multiset(old(a[..]))
  {
    if a.Length == 0 {
      return;
    }
    var i := 1;
    while i < a.Length
      invariant 1 <= i <= a.Length
      invariant DescendingPrefix(a, i)
      invariant multiset(a[..]) == multiset(old(a[..]))
    {
      InsertStreak(a, i);
      i := i + 1;
    }
  }

  /** After the sort the first streak is a longest one. */
  lemma FirstIsLongest(s: seq<StreakInfo>)
    requires LengthDescending(s) && |s| > 0
    ensures forall k :: 0 <= k < |s| ==> s[k].length <= s[0].length
  {
  }
}
