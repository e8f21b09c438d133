// The end-of-run phase of the advanced analyzer (`Finalize`): the economic
// momentum, the win conditions by advantage range, the comeback rates, the
// half and side counts, the averaged time series and the streak summaries.

module AdvancedFinalize {
  import opened Reals
  import opened AdvancedAnalysisModel
  import opened AnalyzerRecords

  // ---------------------------------------------------------------------
  // calculateEconomicMomentum
  // ---------------------------------------------------------------------

  /** The sign of a funds edge that counts as momentum: beyond 5000 either way, else none. */
  function AdvantageSign(v: real): (s: int)
    ensures s == 1 <==> v > 5000.0
    ensures s == -1 <==> v < -5000.0
    ensures s == 0 <==> -5000.0 <= v <= 5000.0
  {
    if v > 5000.0 then 1 else if v < -5000.0 then -1 else 0
  }

  /** The variables of the momentum loop. */
  datatype MomentumState = MomentumState(shifts: int, durations: seq<int>, current: int, lastSign: int)

  /** One pass of the momentum loop: a neutral round changes nothing, a new sign closes the current run. */
  function MomentumStep(st: MomentumState, v: real): MomentumState
  {
    var sign := AdvantageSign(v);
    if sign == 0 then st
    else if sign == st.lastSign then st.(current := st.current + 1)
    else MomentumState(if st.lastSign != 0 then st.shifts + 1 else st.shifts,
                       if st.current > 0 then st.durations + [st.current] else st.durations,
                       1, sign)
  }

  /** The loop variables after the first n edges. */
  function MomentumAfter(advs: seq<real>, n: nat): MomentumState
    requires n <= |advs|
  {
    if n == 0 then MomentumState(0, [], 0, 0) else MomentumStep(MomentumAfter(advs, n - 1), advs[n - 1])
  }

  /** The run lengths the loop reports: the closed runs and the open one. */
  function Durations(advs: seq<real>): seq<int>
  {
    var st := MomentumAfter(advs, |advs|);
    if st.current > 0 then st.durations + [st.current] else st.durations
  }

  /** The non-neutral signs among the first n edges, in order. */
  function SignsUpTo(advs: seq<real>, n: nat): seq<int>
    requires n <= |advs|
  {
    if n == 0 then []
    else SignsUpTo(advs, n - 1) + (if AdvantageSign(advs[n - 1]) != 0 then [AdvantageSign(advs[n - 1])] else [])
  }

  /** The number of neighbouring entries that differ. */
  function Changes(sg: seq<int>): nat
  {
    if |sg| < 2 then 0
    else Changes(sg[..|sg| - 1]) + (if sg[|sg| - 2] != sg[|sg| - 1] then 1 else 0)
  }

  function SumInts(s: seq<int>): int
  {
    if s == [] then 0 else SumInts(s[..|s| - 1]) + s[|s| - 1]
  }

  lemma SumIntsAppend(s: seq<int>, x: int)
    ensures SumInts(s + [x]) == SumInts(s) + x
  {
    assert (s + [x])[..|s|] == s;
  }

  /**
   * The loop invariant of the momentum count: the shifts are the sign
   * changes so far, the closed runs and the open one together hold every
   * non-neutral round, there is one closed run per change, and every run
   * is at least one round long.
   */
  predicate Tallies(st: MomentumState, sg: seq<int>)
  {
    st.shifts == Changes(sg)
    && (sg == [] ==> st.lastSign == 0 && st.current == 0 && st.durations == [])
    && (sg != [] ==> st.lastSign == sg[|sg| - 1] && st.lastSign != 0 && st.current >= 1
                     && |st.durations| == Changes(sg))
    && SumInts(st.durations) + st.current == |sg|
    && forall k :: 0 <= k < |st.durations| ==> st.durations[k] >= 1
  }

  /** A non-neutral edge extends the open run or closes it and starts another. */
  lemma TalliesStep(st: MomentumState, sg: seq<int>, v: real)
    requires Tallies(st, sg) && AdvantageSign(v) != 0
    ensures Tallies(MomentumStep(st, v), sg + [AdvantageSign(v)])
  {
    var sg' := sg + [AdvantageSign(v)];
    assert sg'[..|sg'| - 1] == sg;
    if AdvantageSign(v) != st.lastSign && st.current > 0 {
      SumIntsAppend(st.durations, st.current);
    }
  }

  lemma {:induction false} MomentumInvariant(advs: seq<real>, n: nat)
    requires n <= |advs|
    ensures Tallies(MomentumAfter(advs, n), SignsUpTo(advs, n))
  {
    if n > 0 {
      MomentumInvariant(advs, n - 1);
      var st, sg, v := MomentumAfter(advs, n - 1), SignsUpTo(advs, n - 1), advs[n - 1];
      assert MomentumAfter(advs, n) == MomentumStep(st, v);
      if AdvantageSign(v) != 0 {
        assert SignsUpTo(advs, n) == sg + [AdvantageSign(v)];
        TalliesStep(st, sg, v);
      } else {
        assert MomentumStep(st, v) == st;
        assert SignsUpTo(advs, n) == sg;
      }
    }
  }

  /**
   * What `calculateEconomicMomentum` reports about momentum: one shift per
   * change of sign, one run per shift plus the last, and the runs together
   * cover every non-neutral round.
   */
  lemma DurationsCoverSigns(advs: seq<real>)
    ensures var sg := SignsUpTo(advs, |advs|);
      MomentumAfter(advs, |advs|).shifts == Changes(sg)
      && SumInts(Durations(advs)) == |sg|
      && |Durations(advs)| == (if sg == [] then 0 else Changes(sg) + 1)
      && forall k :: 0 <= k < |Durations(advs)| ==> Durations(advs)[k] >= 1
  {
    MomentumInvariant(advs, |advs|);
    var st := MomentumAfter(advs, |advs|);
    if st.current > 0 {
      SumIntsAppend(st.durations, st.current);
    }
  }

  /** Wins per thousand spent; 0 when nothing was spent. */
  function PerThousand(wins: int, spent: real): real
  {
    if spent > 0.0 then wins as real / (spent / 1000.0) else 0.0
  }

  /** The rounds among the samples that team 1 (or team 2) won. */
  function WinsOf(samples: seq<WinConditionSample>, team1: bool): nat
  {
    if samples == [] then 0
    else WinsOf(samples[..|samples| - 1], team1) + (if samples[|samples| - 1].team1Won == team1 then 1 else 0)
  }

  /** What team 1 (or team 2) spent over the samples. */
  function SpentOf(samples: seq<WinConditionSample>, team1: bool): real
  {
    if samples == [] then 0.0
    else
      var s := samples[|samples| - 1];
      SpentOf(samples[..|samples| - 1], team1) + (if team1 then s.team1Spent else s.team2Spent)
  }

  /** Every sampled round was won by exactly one of the teams. */
  lemma {:induction false} WinsPartition(samples: seq<WinConditionSample>)
    ensures WinsOf(samples, true) + WinsOf(samples, false) == |samples|
  {
    if samples != [] {
      WinsPartition(samples[..|samples| - 1]);
    }
  }

  /** The momentum figures `calculateEconomicMomentum` leaves in the analysis (zero when there are no rounds). */
  function MomentumOf(econ: seq<real>, equip: seq<real>, samples: seq<WinConditionSample>): EconomicMomentum
  {
    if econ == [] then EconomicMomentum(0.0, 0.0, 0, 0.0, 0.0, 0.0)
    else
      var durations := Durations(econ);
      EconomicMomentum(
        Mean(econ), Mean(equip),
        MomentumAfter(econ, |econ|).shifts,
        if durations == [] then 0.0 else SumInts(durations) as real / (|durations| as real),
        PerThousand(WinsOf(samples, true), SpentOf(samples, true)),
        PerThousand(WinsOf(samples, false), SpentOf(samples, false)))
  }

  /**
   * The momentum figures in terms of the rounds: the average edges, one
   * shift per change of the non-neutral sign, and the average run as the
   * non-neutral rounds over the number of runs.
   */
  lemma MomentumMeaning(econ: seq<real>, equip: seq<real>, samples: seq<WinConditionSample>)
    requires |econ| == |equip| && econ != []
    ensures var m, sg := MomentumOf(econ, equip, samples), SignsUpTo(econ, |econ|);
      m.averageEconomicAdvantage == Mean(econ) && m.averageEquipmentDifferential == Mean(equip)
      && m.momentumShifts == Changes(sg)
      && m.averageMomentumDuration == (if sg == [] then 0.0 else |sg| as real / ((Changes(sg) + 1) as real))
      && m.averageMomentumDuration >= (if sg == [] then 0.0 else 1.0)
  {
    DurationsCoverSigns(econ);
    var sg := SignsUpTo(econ, |econ|);
    if sg != [] {
      ChangesBound(sg);
      RatioAtLeastOne(|sg|, Changes(sg) + 1);
    }
  }

  lemma RatioAtLeastOne(a: nat, b: nat)
    requires 0 < b <= a
    ensures a as real / (b as real) >= 1.0
  {
  }

  lemma {:induction false} ChangesBound(sg: seq<int>)
    ensures sg != [] ==> Changes(sg) < |sg|
  {
    if |sg| >= 2 {
      ChangesBound(sg[..|sg| - 1]);
    }
  }

  /** The first loop of `calculateEconomicMomentum`: the sums of both edge lists. */
  method SumEdges(econ: seq<real>, equip: seq<real>) returns (se: real, sq: real)
    requires |econ| == |equip|
    ensures se == Sum(econ) && sq == Sum(equip)
  {
    se, sq := 0.0, 0.0;
    var i := 0;
    while i < |econ|
      invariant 0 <= i <= |econ|
      invariant se == Sum(econ[..i]) && sq == Sum(equip[..i])
    {
      assert econ[..i + 1][..i] == econ[..i] && equip[..i + 1][..i] == equip[..i];
      se, sq := se + econ[i], sq + equip[i];
      i := i + 1;
    }
    assert econ[..i] == econ && equip[..i] == equip;
  }

  /** The momentum loop of `calculateEconomicMomentum`: shifts and run lengths. */
  method CountMomentum(econ: seq<real>) returns (shifts: int, durations: seq<int>)
    ensures shifts == MomentumAfter(econ, |econ|).shifts && durations == Durations(econ)
  {
    shifts := 0;
    durations := [];
    var currentDuration := 0;
    var lastSign := 0;
    var i := 0;
    while i < |econ|
      invariant 0 <= i <= |econ|
      invariant MomentumState(shifts, durations, currentDuration, lastSign) == MomentumAfter(econ, i)
    {
      var currentSign := 0;
      if econ[i] > 5000.0 {
        currentSign := 1;
      } else if econ[i] < -5000.0 {
        currentSign := -1;
      }
      if currentSign != 0 {
        if currentSign == lastSign {
          currentDuration := currentDuration + 1;
        } else {
          if currentDuration > 0 {
            durations := durations + [currentDuration];
          }
          currentDuration := 1;
          if lastSign != 0 {
            shifts := shifts + 1;
          }
          lastSign := currentSign;
        }
      }
      i := i + 1;
    }
    if currentDuration > 0 {
      durations := durations + [currentDuration];
    }
  }

  /** The average of the run lengths, summed in order. */
  method AverageDuration(durations: seq<int>) returns (avg: real)
    ensures avg == if durations == [] then 0.0 else SumInts(durations) as real / (|durations| as real)
  {
    avg := 0.0;
    if |durations| > 0 {
      var total := 0.0;
      var k := 0;
      while k < |durations|
        invariant 0 <= k <= |durations|
        invariant total == SumInts(durations[..k]) as real
      {
        assert durations[..k + 1][..k] == durations[..k];
        total := total + durations[k] as real;
        k := k + 1;
      }
      assert durations[..k] == durations;
      avg := total / (|durations| as real);
    }
  }

  /** The spending loop shared by the momentum and the returns: wins and money spent per team. */
  method SampleTotals(samples: seq<WinConditionSample>) returns (wins1: int, wins2: int, spent1: real, spent2: real)
    ensures wins1 == WinsOf(samples, true) && wins2 == WinsOf(samples, false)
    ensures spent1 == SpentOf(samples, true) && spent2 == SpentOf(samples, false)
  {
    wins1, wins2, spent1, spent2 := 0, 0, 0.0, 0.0;
    var i := 0;
    while i < |samples|
      invariant 0 <= i <= |samples|
      invariant wins1 == WinsOf(samples[..i], true) && wins2 == WinsOf(samples[..i], false)
      invariant spent1 == SpentOf(samples[..i], true) && spent2 == SpentOf(samples[..i], false)
    {
      assert samples[..i + 1][..i] == samples[..i];
      spent1 := spent1 + samples[i].team1Spent;
      spent2 := spent2 + samples[i].team2Spent;
      if samples[i].team1Won {
        wins1 := wins1 + 1;
      } else {
        wins2 := wins2 + 1;
      }
      i := i + 1;
    }
    assert samples[..i] == samples;
  }

  /** `calculateEconomicMomentum`, without the two volatilities. */
  method CalculateEconomicMomentum(econ: seq<real>, equip: seq<real>, samples: seq<WinConditionSample>)
    returns (m: EconomicMomentum)
    requires |econ| == |equip|
    ensures m == MomentumOf(econ, equip, samples)
  {
    m := EconomicMomentum(0.0, 0.0, 0, 0.0, 0.0, 0.0);
    if |econ| == 0 {
      return;
    }
    var sumEcon, sumEquip := SumEdges(econ, equip);
    var shifts, durations := CountMomentum(econ);
    var avgDuration := AverageDuration(durations);
    var wins1, wins2, spent1, spent2 := SampleTotals(samples);
    m := EconomicMomentum(sumEcon / (|econ| as real), sumEquip / (|equip| as real), shifts, avgDuration,
                          PerThousand(wins1, spent1), PerThousand(wins2, spent2));
  }

  // ---------------------------------------------------------------------
  // calculateWinConditions
  // ---------------------------------------------------------------------

  /** `math.MaxFloat64`, which closes the outermost ranges. */
  const MaxFloat64: real := 179769313486231570814527423731704356798070567525844996598917476803157260780028538760589558632766878171540458953514382464234321326889464182768467546703537516986049910576551282076245490090389328944075868508455133942304583236903222948165808559332123348274797826204144723168738177180919299881250404026184124858368.0

  datatype Bounds = Bounds(lo: real, hi: real)

  /** The ranges from lo through each cut point in turn, the last one closed by MaxFloat64. */
  function Tail(lo: real, cuts: seq<real>): seq<Bounds>
    decreases |cuts|
  {
    if cuts == [] then [Bounds(lo, MaxFloat64)] else [Bounds(lo, cuts[0])] + Tail(cuts[0], cuts[1..])
  }

  const EquipmentCuts: seq<real> := [-10000.0, -5000.0, -2500.0, 0.0, 2500.0, 5000.0, 10000.0]
  const EconomicCuts: seq<real> := [-15000.0, -10000.0, -5000.0, -2500.0, 0.0, 2500.0, 5000.0, 10000.0, 15000.0]

  /** The eight equipment-edge ranges and the ten funds-edge ranges, from -MaxFloat64 up. */
  const EquipmentBounds: seq<Bounds> := Tail(-MaxFloat64, EquipmentCuts)
  const EconomicBounds: seq<Bounds> := Tail(-MaxFloat64, EconomicCuts)

  /** Each cut lies above the one before and below MaxFloat64. */
  predicate Ascending(lo: real, cuts: seq<real>)
    decreases |cuts|
  {
    cuts == [] || (lo < cuts[0] < MaxFloat64 && Ascending(cuts[0], cuts[1..]))
  }

  /** A range is [lo, hi); the range that ends at MaxFloat64 takes everything from lo up. */
  predicate InRange(v: real, b: Bounds)
  {
    if b.hi == MaxFloat64 then v >= b.lo else b.lo <= v < b.hi
  }

  /** The number of ranges that hold v. */
  function HitCount(v: real, bs: seq<Bounds>): nat
  {
    if bs == [] then 0 else (if InRange(v, bs[0]) then 1 else 0) + HitCount(v, bs[1..])
  }

  /** The ranges from lo never overlap and leave no gap: v lands in exactly one of them when v >= lo. */
  lemma {:induction false} TailHits(lo: real, cuts: seq<real>, v: real)
    requires Ascending(lo, cuts)
    ensures HitCount(v, Tail(lo, cuts)) == if v >= lo then 1 else 0
    decreases |cuts|
  {
    var t := Tail(lo, cuts);
    if cuts == [] {
      assert t[1..] == [];
    } else {
      TailHits(cuts[0], cuts[1..], v);
      assert t[0] == Bounds(lo, cuts[0]) && t[1..] == Tail(cuts[0], cuts[1..]);
    }
  }

  lemma CutsAscending()
    ensures Ascending(-MaxFloat64, EquipmentCuts) && Ascending(-MaxFloat64, EconomicCuts)
  {
  }

  /** Which edge of a sample a range list reads. */
  datatype Measure = Funds | Equipment

  function Advantage(s: WinConditionSample, m: Measure): real
  {
    if m.Funds? then s.fundsAdvantage else s.equipmentAdvantage
  }

  /** The samples whose edge lies in the range. */
  function InCount(samples: seq<WinConditionSample>, b: Bounds, m: Measure): nat
  {
    if samples == [] then 0
    else InCount(samples[..|samples| - 1], b, m) + (if InRange(Advantage(samples[|samples| - 1], m), b) then 1 else 0)
  }

  /** The samples in the range that team 1 won. */
  function WinIn(samples: seq<WinConditionSample>, b: Bounds, m: Measure): nat
  {
    if samples == [] then 0
    else
      var s := samples[|samples| - 1];
      WinIn(samples[..|samples| - 1], b, m) + (if InRange(Advantage(s, m), b) && s.team1Won then 1 else 0)
  }

  lemma {:induction false} WinInBound(samples: seq<WinConditionSample>, b: Bounds, m: Measure)
    ensures WinIn(samples, b, m) <= InCount(samples, b, m)
  {
    if samples != [] {
      WinInBound(samples[..|samples| - 1], b, m);
    }
  }

  /** A range as reported when it holds at least one sample, with team 1's win rate in it; nothing otherwise. */
  function RangeHead(samples: seq<WinConditionSample>, b: Bounds, m: Measure): seq<AdvantageRange>
  {
    var n := InCount(samples, b, m);
    if n > 0 then [AdvantageRange(b.lo, b.hi, WinIn(samples, b, m) as real / (n as real), n)] else []
  }

  /** The reported ranges: the non-empty ones, in the order of the table. */
  function RangesOf(samples: seq<WinConditionSample>, bs: seq<Bounds>, m: Measure): seq<AdvantageRange>
  {
    if bs == [] then [] else RangeHead(samples, bs[0], m) + RangesOf(samples, bs[1..], m)
  }

  function SumSizes(rs: seq<AdvantageRange>): int
  {
    if rs == [] then 0 else rs[0].sampleSize + SumSizes(rs[1..])
  }

  /** Σ over the ranges of the samples each one holds. */
  function TotalIn(samples: seq<WinConditionSample>, bs: seq<Bounds>, m: Measure): nat
  {
    if bs == [] then 0 else InCount(samples, bs[0], m) + TotalIn(samples, bs[1..], m)
  }

  /** The samples whose edge is at least lo. */
  function CountFrom(samples: seq<WinConditionSample>, m: Measure, lo: real): nat
  {
    if samples == [] then 0
    else CountFrom(samples[..|samples| - 1], m, lo) + (if Advantage(samples[|samples| - 1], m) >= lo then 1 else 0)
  }

  lemma {:induction false} SumSizesAppend(a: seq<AdvantageRange>, b: seq<AdvantageRange>)
    ensures SumSizes(a + b) == SumSizes(a) + SumSizes(b)
    decreases |a|
  {
    if a != [] {
      SumSizesAppend(a[1..], b);
      assert (a + b)[0] == a[0] && (a + b)[1..] == a[1..] + b;
    } else {
      assert a + b == b;
    }
  }

  /** Dropping the empty ranges loses no sample. */
  lemma {:induction false} SizesAreTotals(samples: seq<WinConditionSample>, bs: seq<Bounds>, m: Measure)
    ensures SumSizes(RangesOf(samples, bs, m)) == TotalIn(samples, bs, m)
    decreases |bs|
  {
    if bs != [] {
      SizesAreTotals(samples, bs[1..], m);
      var head := RangeHead(samples, bs[0], m);
      SumSizesAppend(head, RangesOf(samples, bs[1..], m));
      if head != [] {
        assert head[1..] == [];
      }
    }
  }

  /** One more sample adds to the totals the number of ranges it lands in. */
  lemma {:induction false} TotalInStep(samples: seq<WinConditionSample>, s: WinConditionSample, bs: seq<Bounds>, m: Measure)
    ensures TotalIn(samples + [s], bs, m) == TotalIn(samples, bs, m) + HitCount(Advantage(s, m), bs)
    decreases |bs|
  {
    if bs != [] {
      TotalInStep(samples, s, bs[1..], m);
      assert (samples + [s])[..|samples|] == samples;
    }
  }

  /** Over the ranges of `Tail(lo, cuts)` the samples are counted once each when their edge is at least lo. */
  lemma {:induction false} TotalInTail(samples: seq<WinConditionSample>, lo: real, cuts: seq<real>, m: Measure)
    requires Ascending(lo, cuts)
    ensures TotalIn(samples, Tail(lo, cuts), m) == CountFrom(samples, m, lo)
    decreases |samples|
  {
    if samples == [] {
      ZeroTotals(Tail(lo, cuts), m);
    } else {
      var prefix, s := samples[..|samples| - 1], samples[|samples| - 1];
      assert samples == prefix + [s];
      TotalInTail(prefix, lo, cuts, m);
      TotalInStep(prefix, s, Tail(lo, cuts), m);
      TailHits(lo, cuts, Advantage(s, m));
    }
  }

  lemma {:induction false} ZeroTotals(bs: seq<Bounds>, m: Measure)
    ensures TotalIn([], bs, m) == 0
    decreases |bs|
  {
    if bs != [] {
      ZeroTotals(bs[1..], m);
    }
  }

  lemma {:induction false} CountFromAll(samples: seq<WinConditionSample>, m: Measure, lo: real)
    ensures CountFrom(samples, m, lo) <= |samples|
    ensures (forall k :: 0 <= k < |samples| ==> Advantage(samples[k], m) >= lo) ==> CountFrom(samples, m, lo) == |samples|
  {
    if samples != [] {
      var prefix := samples[..|samples| - 1];
      CountFromAll(prefix, m, lo);
      assert forall k :: 0 <= k < |prefix| ==> prefix[k] == samples[k];
    }
  }

  /** A count out of a positive total is a rate between 0 and 1. */
  lemma RateWithin(part: nat, total: nat)
    requires part <= total && total > 0
    ensures 0.0 <= part as real / (total as real) <= 1.0
  {
    assert part as real / (total as real) * (total as real) == part as real;
  }

  predicate ProperRange(r: AdvantageRange)
  {
    r.sampleSize > 0 && 0.0 <= r.team1WinRate <= 1.0
  }

  /** Every reported range holds at least one sample and a win rate between 0 and 1. */
  lemma {:induction false} RangesWellFormed(samples: seq<WinConditionSample>, bs: seq<Bounds>, m: Measure)
    ensures forall k :: 0 <= k < |RangesOf(samples, bs, m)| ==> ProperRange(RangesOf(samples, bs, m)[k])
    decreases |bs|
  {
    if bs != [] {
      RangesWellFormed(samples, bs[1..], m);
      var head, rest := RangeHead(samples, bs[0], m), RangesOf(samples, bs[1..], m);
      if head != [] {
        WinInBound(samples, bs[0], m);
        RateWithin(WinIn(samples, bs[0], m), InCount(samples, bs[0], m));
        assert ProperRange(head[0]);
      }
      assert forall k :: 0 <= k < |head + rest| ==> (head + rest)[k] == if k < |head| then head[k] else rest[k - |head|];
    }
  }

  /**
   * The range tables of `calculateWinConditions` account for every sample
   * exactly once: the sizes of the equipment ranges, and of the funds
   * ranges, add up to the number of samples whose edge is at least
   * -MaxFloat64 (every edge a float64 can hold).
   */
  lemma RangesCoverSamples(samples: seq<WinConditionSample>)
    ensures SumSizes(RangesOf(samples, EquipmentBounds, Equipment)) == CountFrom(samples, Equipment, -MaxFloat64)
    ensures SumSizes(RangesOf(samples, EconomicBounds, Funds)) == CountFrom(samples, Funds, -MaxFloat64)
  {
    CutsAscending();
    SizesAreTotals(samples, EquipmentBounds, Equipment);
    TotalInTail(samples, -MaxFloat64, EquipmentCuts, Equipment);
    SizesAreTotals(samples, EconomicBounds, Funds);
    TotalInTail(samples, -MaxFloat64, EconomicCuts, Funds);
  }

  /** The number of samples in one range and how many of them team 1 won. */
  method CountInRange(samples: seq<WinConditionSample>, b: Bounds, m: Measure) returns (total: int, team1Wins: int)
    ensures total == InCount(samples, b, m) && team1Wins == WinIn(samples, b, m)
  {
    total, team1Wins := 0, 0;
    var i := 0;
    while i < |samples|
      invariant 0 <= i <= |samples|
      invariant total == InCount(samples[..i], b, m) && team1Wins == WinIn(samples[..i], b, m)
    {
      assert samples[..i + 1][..i] == samples[..i];
      var v := if m.Funds? then samples[i].fundsAdvantage else samples[i].equipmentAdvantage;
      var inRange := false;
      if b.hi == MaxFloat64 {
        inRange := v >= b.lo;
      } else {
        inRange := v >= b.lo && v < b.hi;
      }
      if inRange {
        total := total + 1;
        if samples[i].team1Won {
          team1Wins := team1Wins + 1;
        }
      }
      i := i + 1;
    }
    assert samples[..i] == samples;
  }

  lemma RangesOfSuffix(samples: seq<WinConditionSample>, bs: seq<Bounds>, j: int, m: Measure)
    requires 0 <= j < |bs|
    ensures RangesOf(samples, bs[j..], m) == RangeHead(samples, bs[j], m) + RangesOf(samples, bs[j + 1..], m)
  {
    assert bs[j..][0] == bs[j] && bs[j..][1..] == bs[j + 1..];
  }

  lemma Regroup<T>(a: seq<T>, b: seq<T>, c: seq<T>)
    ensures a + (b + c) == (a + b) + c
  {
  }

  /** One range table of `calculateWinConditions`: the non-empty ranges in order, with their win rates. */
  method BucketSamples(samples: seq<WinConditionSample>, bs: seq<Bounds>, m: Measure) returns (ranges: seq<AdvantageRange>)
    ensures ranges == RangesOf(samples, bs, m)
  {
    ranges := [];
    var j := 0;
    while j < |bs|
      invariant 0 <= j <= |bs|
      invariant ranges + RangesOf(samples, bs[j..], m) == RangesOf(samples, bs, m)
    {
      var b := bs[j];
      ghost var before, rest := ranges, RangesOf(samples, bs[j + 1..], m);
      RangesOfSuffix(samples, bs, j, m);
      var total, team1Wins := CountInRange(samples, b, m);
      if total > 0 {
        ranges := ranges + [AdvantageRange(b.lo, b.hi, team1Wins as real / (total as real), total)];
      }
      assert ranges == before + RangeHead(samples, b, m);
      Regroup(before, RangeHead(samples, b, m), rest);
      j := j + 1;
    }
    assert bs[j..] == [];
  }

  /** Team 1's round outcome per sample, as 1 or 0. */
  function Outcomes(samples: seq<WinConditionSample>): seq<real>
  {
    seq(|samples|, k requires 0 <= k < |samples| => if samples[k].team1Won then 1.0 else 0.0)
  }

  function FundsSeries(samples: seq<WinConditionSample>): seq<real>
  {
    seq(|samples|, k requires 0 <= k < |samples| => samples[k].fundsAdvantage)
  }

  function EquipmentSeries(samples: seq<WinConditionSample>): seq<real>
  {
    seq(|samples|, k requires 0 <= k < |samples| => samples[k].equipmentAdvantage)
  }

  /** Team 2's run of losses minus team 1's, per sample. */
  function ConsecLossSeries(samples: seq<WinConditionSample>): seq<real>
  {
    seq(|samples|, k requires 0 <= k < |samples| => (samples[k].team2ConsecLoss - samples[k].team1ConsecLoss) as real)
  }

  /** The win conditions `calculateWinConditions` leaves in the analysis (empty when there are no samples). */
  function WinConditionsOf(samples: seq<WinConditionSample>): WinConditions
  {
    if samples == [] then WinConditions([], [], 0.0, 0.0, NoCorrelation, NoCorrelation, NoCorrelation)
    else
      var outcomes := Outcomes(samples);
      WinConditions(
        RangesOf(samples, EquipmentBounds, Equipment),
        RangesOf(samples, EconomicBounds, Funds),
        PerThousand(WinsOf(samples, true), SpentOf(samples, true)),
        PerThousand(WinsOf(samples, false), SpentOf(samples, false)),
        CorrelationOf(FundsSeries(samples), outcomes),
        CorrelationOf(EquipmentSeries(samples), outcomes),
        CorrelationOf(ConsecLossSeries(samples), outcomes))
  }

  /**
   * When one team won every sampled round the outcome series has no
   * variance, so none of the three correlations is reported.
   */
  lemma OneSidedNoCorrelation(samples: seq<WinConditionSample>, team1: bool)
    requires samples != [] && forall k :: 0 <= k < |samples| ==> samples[k].team1Won == team1
    ensures var w := WinConditionsOf(samples);
      w.fundsCorrelation.NoCorrelation? && w.equipmentCorrelation.NoCorrelation? && w.consecLossCorrelation.NoCorrelation?
  {
    ConstantSeriesNoCorrelation(Outcomes(samples), if team1 then 1.0 else 0.0);
  }

  /** The correlation loop of `calculateWinConditions`: the four series, one entry per sample. */
  method SeriesOf(samples: seq<WinConditionSample>) returns (outcomes: seq<real>, funds: seq<real>, equipment: seq<real>, consecLoss: seq<real>)
    ensures outcomes == Outcomes(samples) && funds == FundsSeries(samples)
    ensures equipment == EquipmentSeries(samples) && consecLoss == ConsecLossSeries(samples)
  {
    outcomes, funds, equipment, consecLoss := [], [], [], [];
    var i := 0;
    while i < |samples|
      invariant 0 <= i <= |samples|
      invariant outcomes == Outcomes(samples)[..i] && funds == FundsSeries(samples)[..i]
      invariant equipment == EquipmentSeries(samples)[..i] && consecLoss == ConsecLossSeries(samples)[..i]
    {
      var sample := samples[i];
      outcomes := outcomes + [if sample.team1Won then 1.0 else 0.0];
      funds := funds + [sample.fundsAdvantage];
      equipment := equipment + [sample.equipmentAdvantage];
      consecLoss := consecLoss + [(sample.team2ConsecLoss - sample.team1ConsecLoss) as real];
      i := i + 1;
    }
  }

  /** `calculateWinConditions`: the two range tables, the returns on spending and the three correlations. */
  method CalculateWinConditions(samples: seq<WinConditionSample>) returns (w: WinConditions)
    ensures w == WinConditionsOf(samples)
  {
    w := WinConditions([], [], 0.0, 0.0, NoCorrelation, NoCorrelation, NoCorrelation);
    if |samples| == 0 {
      return;
    }
    var equipRanges := BucketSamples(samples, EquipmentBounds, Equipment);
    var econRanges := BucketSamples(samples, EconomicBounds, Funds);
    var wins1, wins2, spent1, spent2 := SampleTotals(samples);
    var outcomes, funds, equipment, consecLoss := SeriesOf(samples);
    var fundsCorrelation := CalculateCorrelation(funds, outcomes);
    var equipmentCorrelation := CalculateCorrelation(equipment, outcomes);
    var consecLossCorrelation := CalculateCorrelation(consecLoss, outcomes);
    w := WinConditions(equipRanges, econRanges, PerThousand(wins1, spent1), PerThousand(wins2, spent2),
                       fundsCorrelation, equipmentCorrelation, consecLossCorrelation);
  }

  // ---------------------------------------------------------------------
  // calculateComebackStats
  // ---------------------------------------------------------------------

  function Successes(attempts: seq<ComebackAttempt>): nat
  {
    if attempts == [] then 0
    else Successes(attempts[..|attempts| - 1]) + (if attempts[|attempts| - 1].success then 1 else 0)
  }

  function EconEdgeSum(attempts: seq<ComebackAttempt>): real
  {
    if attempts == [] then 0.0
    else EconEdgeSum(attempts[..|attempts| - 1]) + attempts[|attempts| - 1].economicAdvantageAvg
  }

  function EquipEdgeSum(attempts: seq<ComebackAttempt>): real
  {
    if attempts == [] then 0.0
    else EquipEdgeSum(attempts[..|attempts| - 1]) + attempts[|attempts| - 1].equipmentAdvantageAvg
  }

  /** The statistics of one deficit size: attempts, successes, their rate and the average edges. */
  function ScenarioOf(attempts: seq<ComebackAttempt>): ComebackScenario
  {
    var n := |attempts| as real;
    if attempts == [] then ComebackScenario(0, 0, 0.0, 0.0, 0.0)
    else ComebackScenario(|attempts|, Successes(attempts), Successes(attempts) as real / n,
                          EconEdgeSum(attempts) / n, EquipEdgeSum(attempts) / n)
  }

  lemma {:induction false} SuccessesBound(attempts: seq<ComebackAttempt>)
    ensures Successes(attempts) <= |attempts|
    ensures (forall k :: 0 <= k < |attempts| ==> attempts[k].success) ==> Successes(attempts) == |attempts|
  {
    if attempts != [] {
      var prefix := attempts[..|attempts| - 1];
      SuccessesBound(prefix);
      assert forall k :: 0 <= k < |prefix| ==> prefix[k] == attempts[k];
    }
  }

  /**
   * Every scenario counts at most as many successes as attempts, so its
   * rate lies between 0 and 1; when every attempt succeeded the rate is 1.
   */
  lemma ScenarioRates(attempts: seq<ComebackAttempt>)
    ensures var sc := ScenarioOf(attempts);
      sc.attempts == |attempts| && 0 <= sc.successes <= sc.attempts && 0.0 <= sc.successRate <= 1.0
    ensures attempts != [] && (forall k :: 0 <= k < |attempts| ==> attempts[k].success) ==>
      ScenarioOf(attempts).successes == |attempts| && ScenarioOf(attempts).successRate == 1.0
  {
    SuccessesBound(attempts);
    if attempts != [] {
      RateWithin(Successes(attempts), |attempts|);
      if forall k :: 0 <= k < |attempts| ==> attempts[k].success {
        SelfRatio(|attempts|);
      }
    }
  }

  lemma SelfRatio(k: int)
    requires k > 0
    ensures k as real / k as real == 1.0
  {
    var x := k as real;
    assert x / x * x == x;
  }

  /** The inner loop of `calculateComebackStats`: one deficit's attempts summed up. */
  method ScenarioFrom(attempts: seq<ComebackAttempt>) returns (sc: ComebackScenario)
    ensures sc == ScenarioOf(attempts)
  {
    var successes := 0;
    var totalEcon, totalEquip := 0.0, 0.0;
    var i := 0;
    while i < |attempts|
      invariant 0 <= i <= |attempts|
      invariant successes == Successes(attempts[..i])
      invariant totalEcon == EconEdgeSum(attempts[..i]) && totalEquip == EquipEdgeSum(attempts[..i])
    {
      assert attempts[..i + 1][..i] == attempts[..i];
      if attempts[i].success {
        successes := successes + 1;
      }
      totalEcon := totalEcon + attempts[i].economicAdvantageAvg;
      totalEquip := totalEquip + attempts[i].equipmentAdvantageAvg;
      i := i + 1;
    }
    assert attempts[..i] == attempts;
    sc := ComebackScenario(|attempts|, successes, 0.0, 0.0, 0.0);
    if |attempts| > 0 {
      var n := |attempts| as real;
      sc := sc.(successRate := successes as real / n, avgEconomicEdge := totalEcon / n, avgEquipmentEdge := totalEquip / n);
    }
  }

  /** An iteration order of a Go map: every key, once. */
  predicate IterationOrder<V>(order: seq<int>, m: map<int, V>)
  {
    (forall i, j :: 0 <= i < j < |order| ==> order[i] != order[j])
    && (forall i :: 0 <= i < |order| ==> order[i] in m)
    && (forall k :: k in m ==> k in order)
  }

  /** `calculateComebackStats`: the deficits, visited in the map's iteration order, each get their scenario. */
  method CalculateComebackStats(m: map<int, seq<ComebackAttempt>>, order: seq<int>) returns (out: map<int, ComebackScenario>)
    requires IterationOrder(order, m)
    ensures forall d :: d in out <==> d in m
    ensures forall d :: d in out ==> out[d] == ScenarioOf(m[d])
  {
    out := map[];
    var i := 0;
    while i < |order|
      invariant 0 <= i <= |order|
      invariant forall d :: d in out ==> d in m && out[d] == ScenarioOf(m[d])
      invariant forall j :: 0 <= j < i ==> order[j] in out
    {
      var deficit := order[i];
      var scenario := ScenarioFrom(m[deficit]);
      out := out[deficit := scenario];
      i := i + 1;
    }
  }

  // ---------------------------------------------------------------------
  // calculateHalfSideEffects
  // ---------------------------------------------------------------------

  /** The half tally of one round: which half, and who won it. */
  function HalfTally(h: HalfSideAnalysis, r: HalfSideRound): HalfSideAnalysis
  {
    if r.isFirstHalf then
      (if r.team1Won then h.(firstHalfTeam1Wins := h.firstHalfTeam1Wins + 1)
       else h.(firstHalfTeam2Wins := h.firstHalfTeam2Wins + 1))
    else
      (if r.team1Won then h.(secondHalfTeam1Wins := h.secondHalfTeam1Wins + 1)
       else h.(secondHalfTeam2Wins := h.secondHalfTeam2Wins + 1))
  }

  /** Team 1's side tally of one round: its side, money, equipment and whether it won. */
  function Team1SideTally(h: HalfSideAnalysis, r: HalfSideRound): HalfSideAnalysis
  {
    if r.team1IsCT then
      h.(team1CTRounds := h.team1CTRounds + 1,
         team1CTAvgFunds := h.team1CTAvgFunds + r.team1Funds,
         team1CTAvgEquipment := h.team1CTAvgEquipment + r.team1Equipment,
         team1CTWins := if r.team1Won then h.team1CTWins + 1 else h.team1CTWins)
    else
      h.(team1TRounds := h.team1TRounds + 1,
         team1TAvgFunds := h.team1TAvgFunds + r.team1Funds,
         team1TAvgEquipment := h.team1TAvgEquipment + r.team1Equipment,
         team1TWins := if r.team1Won then h.team1TWins + 1 else h.team1TWins)
  }

  /** Team 2's side tally of one round: team 2 is always on the side team 1 is not. */
  function Team2SideTally(h: HalfSideAnalysis, r: HalfSideRound): HalfSideAnalysis
  {
    if !r.team1IsCT then
      h.(team2CTRounds := h.team2CTRounds + 1,
         team2CTAvgFunds := h.team2CTAvgFunds + r.team2Funds,
         team2CTAvgEquipment := h.team2CTAvgEquipment + r.team2Equipment,
         team2CTWins := if !r.team1Won then h.team2CTWins + 1 else h.team2CTWins)
    else
      h.(team2TRounds := h.team2TRounds + 1,
         team2TAvgFunds := h.team2TAvgFunds + r.team2Funds,
         team2TAvgEquipment := h.team2TAvgEquipment + r.team2Equipment,
         team2TWins := if !r.team1Won then h.team2TWins + 1 else h.team2TWins)
  }

  /** One round added to the half and side tallies. */
  function HalfSideStep(h: HalfSideAnalysis, r: HalfSideRound): HalfSideAnalysis
  {
    Team2SideTally(Team1SideTally(HalfTally(h, r), r), r)
  }

  /** The tallies over a list of rounds, before any averaging. */
  function HalfSideCounts(rounds: seq<HalfSideRound>): HalfSideAnalysis
  {
    if rounds == [] then ZeroHalfSide() else HalfSideStep(HalfSideCounts(rounds[..|rounds| - 1]), rounds[|rounds| - 1])
  }

  /** wins / n when n is positive; otherwise the value stays as it was. */
  function RateOr(wins: int, n: int, otherwise: real): real
  {
    if n > 0 then wins as real / (n as real) else otherwise
  }

  /** sum / n when n is positive; otherwise the sum stays as it was. */
  function AverageOr(sum: real, n: int): real
  {
    if n > 0 then sum / (n as real) else sum
  }

  /** The rates, and the sums turned into averages, wherever their denominator is positive. */
  function AverageHalfSide(h: HalfSideAnalysis): HalfSideAnalysis
  {
    HalfSideAnalysis(
      h.firstHalfTeam1Wins, h.firstHalfTeam2Wins,
      RateOr(h.firstHalfTeam1Wins, h.firstHalfTeam1Wins + h.firstHalfTeam2Wins, h.firstHalfTeam1WinRate),
      h.secondHalfTeam1Wins, h.secondHalfTeam2Wins,
      RateOr(h.secondHalfTeam1Wins, h.secondHalfTeam1Wins + h.secondHalfTeam2Wins, h.secondHalfTeam1WinRate),
      h.team1CTRounds, h.team1CTWins, RateOr(h.team1CTWins, h.team1CTRounds, h.team1CTWinRate),
      AverageOr(h.team1CTAvgFunds, h.team1CTRounds), AverageOr(h.team1CTAvgEquipment, h.team1CTRounds),
      h.team1TRounds, h.team1TWins, RateOr(h.team1TWins, h.team1TRounds, h.team1TWinRate),
      AverageOr(h.team1TAvgFunds, h.team1TRounds), AverageOr(h.team1TAvgEquipment, h.team1TRounds),
      h.team2CTRounds, h.team2CTWins, RateOr(h.team2CTWins, h.team2CTRounds, h.team2CTWinRate),
      AverageOr(h.team2CTAvgFunds, h.team2CTRounds), AverageOr(h.team2CTAvgEquipment, h.team2CTRounds),
      h.team2TRounds, h.team2TWins, RateOr(h.team2TWins, h.team2TRounds, h.team2TWinRate),
      AverageOr(h.team2TAvgFunds, h.team2TRounds), AverageOr(h.team2TAvgEquipment, h.team2TRounds))
  }

  /** The half and side effects `calculateHalfSideEffects` leaves in the analysis. */
  function HalfSideOf(rounds: seq<HalfSideRound>): HalfSideAnalysis
  {
    AverageHalfSide(HalfSideCounts(rounds))
  }

  /**
   * The tallies are consistent: every round falls in one half and is won by
   * one team; team 1 is on one side and team 2 on the other, so team 2's CT
   * rounds are team 1's T rounds, and each side's wins and the opponent's
   * wins on the other side make up the rounds played there.
   */
  predicate Balanced(h: HalfSideAnalysis, n: int)
  {
    HalvesBalanced(h, n) && SidesBalanced(h, n)
  }

  predicate HalvesBalanced(h: HalfSideAnalysis, n: int)
  {
    h.firstHalfTeam1Wins + h.firstHalfTeam2Wins + h.secondHalfTeam1Wins + h.secondHalfTeam2Wins == n
    && h.firstHalfTeam1Wins >= 0 && h.firstHalfTeam2Wins >= 0 && h.secondHalfTeam1Wins >= 0 && h.secondHalfTeam2Wins >= 0
  }

  predicate SidesBalanced(h: HalfSideAnalysis, n: int)
  {
    h.team1CTRounds + h.team1TRounds == n
    && h.team2CTRounds == h.team1TRounds && h.team2TRounds == h.team1CTRounds
    && 0 <= h.team1CTWins && 0 <= h.team2TWins && h.team1CTWins + h.team2TWins == h.team1CTRounds
    && 0 <= h.team1TWins && 0 <= h.team2CTWins && h.team1TWins + h.team2CTWins == h.team1TRounds
  }

  /** One more round keeps the tallies balanced. */
  lemma StepBalanced(h: HalfSideAnalysis, n: int, r: HalfSideRound)
    requires Balanced(h, n)
    ensures Balanced(HalfSideStep(h, r), n + 1)
  {
    var a := HalfTally(h, r);
    assert HalvesBalanced(a, n + 1) && SidesBalanced(a, n);
    var b := Team1SideTally(a, r);
    var c := Team2SideTally(b, r);
    assert HalvesBalanced(c, n + 1);
    assert SidesBalanced(c, n + 1);
  }

  lemma {:induction false} CountsBalanced(rounds: seq<HalfSideRound>)
    ensures Balanced(HalfSideCounts(rounds), |rounds|)
  {
    if rounds != [] {
      var init := rounds[..|rounds| - 1];
      CountsBalanced(init);
      StepBalanced(HalfSideCounts(init), |init|, rounds[|rounds| - 1]);
    }
  }

  /** Averaging changes none of the counts. */
  lemma AverageKeepsCounts(h: HalfSideAnalysis, n: int)
    requires Balanced(h, n)
    ensures Balanced(AverageHalfSide(h), n)
  {
  }

  /**
   * The half and side effects cover every round once, and the two teams'
   * rates on opposite sides are complementary: team 1's CT win rate and
   * team 2's T win rate add up to 1 (and likewise for team 1 on T).
   */
  lemma HalfSideConsistent(rounds: seq<HalfSideRound>)
    ensures Balanced(HalfSideOf(rounds), |rounds|)
    ensures var h := HalfSideOf(rounds);
      (h.team1CTRounds > 0 ==> h.team1CTWinRate + h.team2TWinRate == 1.0)
      && (h.team1TRounds > 0 ==> h.team1TWinRate + h.team2CTWinRate == 1.0)
  {
    CountsBalanced(rounds);
    var c := HalfSideCounts(rounds);
    var h := AverageHalfSide(c);
    assert HalfSideOf(rounds) == h;
    AverageKeepsCounts(c, |rounds|);
    if c.team1CTRounds > 0 {
      assert h.team1CTWinRate == c.team1CTWins as real / c.team1CTRounds as real;
      assert h.team2TWinRate == c.team2TWins as real / c.team1CTRounds as real;
      Complementary(c.team1CTWins, c.team2TWins, c.team1CTRounds);
    }
    if c.team1TRounds > 0 {
      assert h.team1TWinRate == c.team1TWins as real / c.team1TRounds as real;
      assert h.team2CTWinRate == c.team2CTWins as real / c.team1TRounds as real;
      Complementary(c.team1TWins, c.team2CTWins, c.team1TRounds);
    }
  }

  lemma Complementary(a: int, b: int, n: int)
    requires n > 0 && a + b == n
    ensures a as real / (n as real) + b as real / (n as real) == 1.0
  {
    assert a as real / (n as real) + b as real / (n as real) == (a + b) as real / (n as real);
  }

  /** `calculateHalfSideEffects`: the tallying loop, then the averages. */
  method CalculateHalfSideEffects(rounds: seq<HalfSideRound>) returns (h: HalfSideAnalysis)
    ensures h == HalfSideOf(rounds)
  {
    h := ZeroHalfSide();
    var i := 0;
    while i < |rounds|
      invariant 0 <= i <= |rounds|
      invariant h == HalfSideCounts(rounds[..i])
    {
      assert rounds[..i + 1][..i] == rounds[..i];
      var round := rounds[i];
      ghost var before := h;
      if round.isFirstHalf {
        if round.team1Won {
          h := h.(firstHalfTeam1Wins := h.firstHalfTeam1Wins + 1);
        } else {
          h := h.(firstHalfTeam2Wins := h.firstHalfTeam2Wins + 1);
        }
      } else {
        if round.team1Won {
          h := h.(secondHalfTeam1Wins := h.secondHalfTeam1Wins + 1);
        } else {
          h := h.(secondHalfTeam2Wins := h.secondHalfTeam2Wins + 1);
        }
      }
      assert h == HalfTally(before, round);
      ghost var halves := h;
      if round.team1IsCT {
        h := h.(team1CTRounds := h.team1CTRounds + 1, team1CTAvgFunds := h.team1CTAvgFunds + round.team1Funds,
                team1CTAvgEquipment := h.team1CTAvgEquipment + round.team1Equipment);
        if round.team1Won {
          h := h.(team1CTWins := h.team1CTWins + 1);
        }
      } else {
        h := h.(team1TRounds := h.team1TRounds + 1, team1TAvgFunds := h.team1TAvgFunds + round.team1Funds,
                team1TAvgEquipment := h.team1TAvgEquipment + round.team1Equipment);
        if round.team1Won {
          h := h.(team1TWins := h.team1TWins + 1);
        }
      }
      assert h == Team1SideTally(halves, round);
      ghost var side1 := h;
      if !round.team1IsCT {
        h := h.(team2CTRounds := h.team2CTRounds + 1, team2CTAvgFunds := h.team2CTAvgFunds + round.team2Funds,
                team2CTAvgEquipment := h.team2CTAvgEquipment + round.team2Equipment);
        if !round.team1Won {
          h := h.(team2CTWins := h.team2CTWins + 1);
        }
      } else {
        h := h.(team2TRounds := h.team2TRounds + 1, team2TAvgFunds := h.team2TAvgFunds + round.team2Funds,
                team2TAvgEquipment := h.team2TAvgEquipment + round.team2Equipment);
        if !round.team1Won {
          h := h.(team2TWins := h.team2TWins + 1);
        }
      }
      assert h == Team2SideTally(side1, round);
      i := i + 1;
    }
    assert rounds[..i] == rounds;
    h := AverageHalfSide(h);
  }

  // ---------------------------------------------------------------------
  // Ordering by key (Go's sort.Slice on a key that is distinct per entry)
  // ---------------------------------------------------------------------

  predicate KeyAscending<T>(s: seq<T>, key: T -> int)
  {
    forall i, j :: 0 <= i < j < |s| ==> key(s[i]) < key(s[j])
  }

  /** No entry of s has key k. */
  predicate KeyAbsent<T>(s: seq<T>, key: T -> int, k: int)
  {
    forall i :: 0 <= i < |s| ==> key(s[i]) != k
  }

  /** The number of times x occurs in s. */
  function Occurrences<T(==)>(s: seq<T>, x: T): nat
  {
    if s == [] then 0 else (if s[0] == x then 1 else 0) + Occurrences(s[1..], x)
  }

  /** x placed before the first entry whose key is not smaller. */
  function InsertBy<T>(x: T, s: seq<T>, key: T -> int): (r: seq<T>)
    ensures |r| == |s| + 1
  {
    if s == [] || key(x) <= key(s[0]) then [x] + s else [s[0]] + InsertBy(x, s[1..], key)
  }

  /** Insertion sort by key. */
  function SortBy<T>(s: seq<T>, key: T -> int): (r: seq<T>)
    ensures |r| == |s|
  {
    if s == [] then [] else InsertBy(s[0], SortBy(s[1..], key), key)
  }

  lemma {:induction false} InsertAscending<T>(x: T, s: seq<T>, key: T -> int)
    requires KeyAscending(s, key) && KeyAbsent(s, key, key(x))
    ensures KeyAscending(InsertBy(x, s, key), key)
    decreases |s|
  {
    if s != [] && key(x) > key(s[0]) {
      InsertAscending(x, s[1..], key);
      InsertHead(x, s[1..], key);
    }
  }

  /** The first entry after inserting x into s is x or the first of s. */
  lemma InsertHead<T>(x: T, s: seq<T>, key: T -> int)
    ensures InsertBy(x, s, key)[0] == x || (s != [] && InsertBy(x, s, key)[0] == s[0])
  {
  }

  lemma {:induction false} InsertAbsent<T>(x: T, s: seq<T>, key: T -> int, k: int)
    requires KeyAbsent(s, key, k) && key(x) != k
    ensures KeyAbsent(InsertBy(x, s, key), key, k)
    decreases |s|
  {
    if s != [] && key(x) > key(s[0]) {
      InsertAbsent(x, s[1..], key, k);
    }
  }

  lemma {:induction false} InsertOccurrences<T>(x: T, s: seq<T>, key: T -> int, y: T)
    ensures Occurrences(InsertBy(x, s, key), y) == Occurrences(s, y) + (if x == y then 1 else 0)
    decreases |s|
  {
    var r := InsertBy(x, s, key);
    if s == [] || key(x) <= key(s[0]) {
      assert r[0] == x && r[1..] == s;
    } else {
      InsertOccurrences(x, s[1..], key, y);
      assert r[0] == s[0] && r[1..] == InsertBy(x, s[1..], key);
    }
  }

  lemma {:induction false} InsertAll<T>(x: T, s: seq<T>, key: T -> int, p: T -> bool)
    requires p(x) && forall i :: 0 <= i < |s| ==> p(s[i])
    ensures forall i :: 0 <= i < |InsertBy(x, s, key)| ==> p(InsertBy(x, s, key)[i])
    decreases |s|
  {
    if s != [] && key(x) > key(s[0]) {
      InsertAll(x, s[1..], key, p);
    }
  }

  /** The keys of s are pairwise different. */
  predicate DistinctKeys<T>(s: seq<T>, key: T -> int)
  {
    forall i, j :: 0 <= i < j < |s| ==> key(s[i]) != key(s[j])
  }

  /**
   * Sorting a list whose keys are distinct orders it strictly by key, keeps
   * every entry exactly as often as it was there, and keeps any property
   * every entry had.
   */
  lemma {:induction false} SortByFacts<T>(s: seq<T>, key: T -> int, p: T -> bool)
    requires DistinctKeys(s, key)
    ensures KeyAscending(SortBy(s, key), key)
    ensures forall y :: Occurrences(SortBy(s, key), y) == Occurrences(s, y)
    ensures (forall i :: 0 <= i < |s| ==> p(s[i])) ==> forall i :: 0 <= i < |s| ==> p(SortBy(s, key)[i])
    ensures forall k :: KeyAbsent(s, key, k) ==> KeyAbsent(SortBy(s, key), key, k)
    decreases |s|
  {
    if s != [] {
      var rest := s[1..];
      assert DistinctKeys(rest, key);
      SortByFacts(rest, key, p);
      var sorted := SortBy(rest, key);
      assert KeyAbsent(rest, key, key(s[0]));
      InsertAscending(s[0], sorted, key);
      forall y
        ensures Occurrences(SortBy(s, key), y) == Occurrences(s, y)
      {
        InsertOccurrences(s[0], sorted, key, y);
      }
      if forall i :: 0 <= i < |s| ==> p(s[i]) {
        assert forall i :: 0 <= i < |rest| ==> p(rest[i]);
        InsertAll(s[0], sorted, key, p);
      }
      forall k | KeyAbsent(s, key, k)
        ensures KeyAbsent(SortBy(s, key), key, k)
      {
        assert KeyAbsent(rest, key, k);
        InsertAbsent(s[0], sorted, key, k);
      }
    }
  }

  /** In a list with distinct keys, each entry occurs exactly once. */
  lemma {:induction false} OccursOnce<T>(s: seq<T>, key: T -> int, j: int)
    requires DistinctKeys(s, key) && 0 <= j < |s|
    ensures Occurrences(s, s[j]) == 1
    decreases |s|
  {
    if j == 0 {
      Absent(s[1..], s[0], key);
    } else {
      OccursOnce(s[1..], key, j - 1);
    }
  }

  lemma {:induction false} Absent<T>(s: seq<T>, x: T, key: T -> int)
    requires KeyAbsent(s, key, key(x))
    ensures Occurrences(s, x) == 0
    decreases |s|
  {
    if s != [] {
      Absent(s[1..], x, key);
    }
  }

  // ---------------------------------------------------------------------
  // finalizeTimeSeries
  // ---------------------------------------------------------------------

  function RoundOf(p: RoundTimePoint): int
  {
    p.roundNumber
  }

  /**
   * A point's sums divided by the number of games that reached its round,
   * and team 1's win rate set from the win counts; a point no game reached
   * is left as it is.
   */
  function Averaged(p: RoundTimePoint): (r: RoundTimePoint)
    ensures r.roundNumber == p.roundNumber && r.gamesReachedThisRound == p.gamesReachedThisRound
    ensures r.team1Wins == p.team1Wins && r.team2Wins == p.team2Wins
  {
    if p.gamesReachedThisRound > 0 then
      var n := p.gamesReachedThisRound as real;
      var total := p.team1Wins + p.team2Wins;
      RoundTimePoint(p.roundNumber,
                     p.team1AvgFunds / n, p.team2AvgFunds / n,
                     p.team1AvgEquipment / n, p.team2AvgEquipment / n,
                     p.avgEconomicAdvantage / n, p.avgEquipmentAdvantage / n,
                     p.team1Wins, p.team2Wins,
                     if total > 0 then p.team1Wins as real / total as real else p.team1WinRate,
                     p.team1AvgSpent / n, p.team2AvgSpent / n,
                     p.team1AvgEarned / n, p.team2AvgEarned / n,
                     p.team1AvgSurvivors / n, p.team2AvgSurvivors / n,
                     p.gamesReachedThisRound)
    else p
  }

  /**
   * For a point whose games are split into team 1's and team 2's wins, the
   * win rate is team 1's share of those games, and an average edge that was
   * the difference of the summed funds (equipment) is still the difference
   * of the averaged funds (equipment).
   */
  lemma AveragedMeaning(p: RoundTimePoint)
    requires p.gamesReachedThisRound > 0 && p.team1Wins >= 0 && p.team2Wins >= 0
    requires p.team1Wins + p.team2Wins == p.gamesReachedThisRound
    ensures Averaged(p).team1WinRate == p.team1Wins as real / p.gamesReachedThisRound as real
    ensures 0.0 <= Averaged(p).team1WinRate <= 1.0
    ensures p.avgEconomicAdvantage == p.team1AvgFunds - p.team2AvgFunds ==>
              Averaged(p).avgEconomicAdvantage == Averaged(p).team1AvgFunds - Averaged(p).team2AvgFunds
    ensures p.avgEquipmentAdvantage == p.team1AvgEquipment - p.team2AvgEquipment ==>
              Averaged(p).avgEquipmentAdvantage == Averaged(p).team1AvgEquipment - Averaged(p).team2AvgEquipment
  {
    var n := p.gamesReachedThisRound as real;
    RateWithin(p.team1Wins, p.gamesReachedThisRound);
    DifferenceOfQuotients(p.team1AvgFunds, p.team2AvgFunds, n);
    DifferenceOfQuotients(p.team1AvgEquipment, p.team2AvgEquipment, n);
  }

  lemma DifferenceOfQuotients(a: real, b: real, n: real)
    requires n > 0.0
    ensures (a - b) / n == a / n - b / n
  {
  }

  /** A point of the final series is the averaged point of its round. */
  predicate FromSeries(m: map<int, RoundTimePoint>, e: RoundTimePoint)
  {
    e.roundNumber in m && e == Averaged(m[e.roundNumber])
  }

  /**
   * The final series of a map of accumulated points: strictly ascending by
   * round, every point the averaged point of its round, and the averaged
   * point of every round present exactly once.
   */
  predicate SeriesListOf(m: map<int, RoundTimePoint>, series: seq<RoundTimePoint>)
  {
    KeyAscending(series, RoundOf)
    && (forall i :: 0 <= i < |series| ==> FromSeries(m, series[i]))
    && (forall k :: k in m ==> Occurrences(series, Averaged(m[k])) == 1)
  }

  /**
   * `finalizeTimeSeries`: every point averaged, visited in the map's
   * iteration order, then ordered by round number. The result holds the
   * averaged point of every round exactly once, in strictly ascending round
   * order, and nothing else.
   */
  method FinalizeTimeSeries(m: map<int, RoundTimePoint>, order: seq<int>) returns (series: seq<RoundTimePoint>)
    requires IterationOrder(order, m)
    requires forall k :: k in m ==> m[k].roundNumber == k
    ensures |series| == |order| && SeriesListOf(m, series)
  {
    var points: seq<RoundTimePoint> := [];
    var i := 0;
    while i < |order|
      invariant 0 <= i <= |order| && |points| == i
      invariant forall j :: 0 <= j < i ==> points[j] == Averaged(m[order[j]])
    {
      points := points + [Averaged(m[order[i]])];
      i := i + 1;
    }
    assert forall j :: 0 <= j < |points| ==> RoundOf(points[j]) == order[j];
    SortByFacts(points, RoundOf, e => FromSeries(m, e));
    series := SortBy(points, RoundOf);
    forall k | k in m
      ensures Occurrences(series, Averaged(m[k])) == 1
    {
      var j :| 0 <= j < |order| && order[j] == k;
      OccursOnce(points, RoundOf, j);
    }
  }

  // ---------------------------------------------------------------------
  // finalizeStreakAnalysis
  // ---------------------------------------------------------------------

  /** Team 1's edge change over a streak: as recorded for team 1, negated for team 2. */
  function Signed(x: real, team1: bool): real
  {
    if team1 then x else -x
  }

  /** The running totals of the streaks of one length. */
  datatype ImpactSum = ImpactSum(occurrences: int, econGain: real, equipGain: real)

  /** The streak economic impact table after the streaks of one team are added, one by one. */
  function AddImpacts(acc: map<int, ImpactSum>, streaks: seq<StreakInfo>, team1: bool): map<int, ImpactSum>
    decreases |streaks|
  {
    if streaks == [] then acc
    else
      var st := streaks[|streaks| - 1];
      var prior := AddImpacts(acc, streaks[..|streaks| - 1], team1);
      var before := if st.length in prior then prior[st.length] else ImpactSum(0, 0.0, 0.0);
      prior[st.length := ImpactSum(before.occurrences + 1,
                                   before.econGain + Signed(st.economicChange, team1),
                                   before.equipGain + Signed(st.equipmentChange, team1))]
  }

  /** The number of streaks of length k. */
  function CountLength(streaks: seq<StreakInfo>, k: int): nat
  {
    if streaks == [] then 0
    else CountLength(streaks[..|streaks| - 1], k) + (if streaks[|streaks| - 1].length == k then 1 else 0)
  }

  /** Team 1's total economic edge change over the streaks of length k. */
  function EconGainOf(streaks: seq<StreakInfo>, k: int, team1: bool): real
  {
    if streaks == [] then 0.0
    else EconGainOf(streaks[..|streaks| - 1], k, team1)
         + (if streaks[|streaks| - 1].length == k then Signed(streaks[|streaks| - 1].economicChange, team1) else 0.0)
  }

  /** Team 1's total equipment edge change over the streaks of length k. */
  function EquipGainOf(streaks: seq<StreakInfo>, k: int, team1: bool): real
  {
    if streaks == [] then 0.0
    else EquipGainOf(streaks[..|streaks| - 1], k, team1)
         + (if streaks[|streaks| - 1].length == k then Signed(streaks[|streaks| - 1].equipmentChange, team1) else 0.0)
  }

  function Entry(acc: map<int, ImpactSum>, k: int): ImpactSum
  {
    if k in acc then acc[k] else ImpactSum(0, 0.0, 0.0)
  }

  /**
   * Adding a team's streaks creates an entry exactly for the lengths that
   * occur, and adds to the entry of length k the number of streaks of that
   * length and their (signed) edge changes; no other entry changes.
   */
  lemma {:induction false} AddImpactsMeaning(acc: map<int, ImpactSum>, streaks: seq<StreakInfo>, team1: bool, k: int)
    ensures k in AddImpacts(acc, streaks, team1) <==> k in acc || CountLength(streaks, k) > 0
    ensures Entry(AddImpacts(acc, streaks, team1), k)
            == ImpactSum(Entry(acc, k).occurrences + CountLength(streaks, k),
                         Entry(acc, k).econGain + EconGainOf(streaks, k, team1),
                         Entry(acc, k).equipGain + EquipGainOf(streaks, k, team1))
    decreases |streaks|
  {
    if streaks != [] {
      AddImpactsMeaning(acc, streaks[..|streaks| - 1], team1, k);
    }
  }

  /** The table of both teams' streaks: team 1's added first, then team 2's. */
  function ImpactTableOf(team1Streaks: seq<StreakInfo>, team2Streaks: seq<StreakInfo>): map<int, ImpactSum>
  {
    AddImpacts(AddImpacts(map[], team1Streaks, true), team2Streaks, false)
  }

  /**
   * The table has an entry exactly for the lengths some streak of either
   * team has, and that entry counts the streaks of that length and sums
   * team 1's edge changes over them.
   */
  lemma ImpactTableMeaning(team1Streaks: seq<StreakInfo>, team2Streaks: seq<StreakInfo>, k: int)
    ensures k in ImpactTableOf(team1Streaks, team2Streaks) <==> CountLength(team1Streaks, k) + CountLength(team2Streaks, k) > 0
    ensures k in ImpactTableOf(team1Streaks, team2Streaks) ==>
              ImpactTableOf(team1Streaks, team2Streaks)[k]
              == ImpactSum(CountLength(team1Streaks, k) + CountLength(team2Streaks, k),
                           EconGainOf(team1Streaks, k, true) + EconGainOf(team2Streaks, k, false),
                           EquipGainOf(team1Streaks, k, true) + EquipGainOf(team2Streaks, k, false))
  {
    AddImpactsMeaning(map[], team1Streaks, true, k);
    AddImpactsMeaning(AddImpacts(map[], team1Streaks, true), team2Streaks, false, k);
  }

  /** The counting loops over one team's streaks. */
  method TallyStreaks(table: map<int, ImpactSum>, streaks: seq<StreakInfo>, team1: bool) returns (out: map<int, ImpactSum>)
    ensures out == AddImpacts(table, streaks, team1)
  {
    out := table;
    var i := 0;
    while i < |streaks|
      invariant 0 <= i <= |streaks|
      invariant out == AddImpacts(table, streaks[..i], team1)
    {
      var st := streaks[i];
      assert streaks[..i + 1][..i] == streaks[..i];
      if st.length !in out {
        out := out[st.length := ImpactSum(0, 0.0, 0.0)];
      }
      var impact := out[st.length];
      out := out[st.length := ImpactSum(impact.occurrences + 1,
                                        impact.econGain + Signed(st.economicChange, team1),
                                        impact.equipGain + Signed(st.equipmentChange, team1))];
      i := i + 1;
    }
    assert streaks[..i] == streaks;
  }

  function LengthOf(e: StreakEconomicImpact): int
  {
    e.streakLength
  }

  /** The averages of one table entry; the next-round win rate is never set. */
  function AverageImpact(k: int, s: ImpactSum): StreakEconomicImpact
  {
    if s.occurrences > 0 then
      StreakEconomicImpact(k, s.occurrences, s.econGain / s.occurrences as real, s.equipGain / s.occurrences as real, 0.0)
    else StreakEconomicImpact(k, s.occurrences, s.econGain, s.equipGain, 0.0)
  }

  /** An entry of the final impact list is the averaged table entry of its length. */
  predicate FromTable(m: map<int, ImpactSum>, e: StreakEconomicImpact)
  {
    e.streakLength in m && e == AverageImpact(e.streakLength, m[e.streakLength])
  }

  /**
   * The final impact list of a table: strictly ascending by streak length,
   * every entry the averaged table entry of its length, and the averaged
   * entry of every length in the table exactly once.
   */
  predicate ImpactListOf(m: map<int, ImpactSum>, impacts: seq<StreakEconomicImpact>)
  {
    KeyAscending(impacts, LengthOf)
    && (forall i :: 0 <= i < |impacts| ==> FromTable(m, impacts[i]))
    && (forall k :: k in m ==> Occurrences(impacts, AverageImpact(k, m[k])) == 1)
  }

  /**
   * The averaging loop and the sort by streak length: every table entry
   * averaged exactly once, in strictly ascending length order.
   */
  method ImpactList(m: map<int, ImpactSum>, order: seq<int>) returns (impacts: seq<StreakEconomicImpact>)
    requires IterationOrder(order, m)
    ensures |impacts| == |order| && ImpactListOf(m, impacts)
  {
    var entries: seq<StreakEconomicImpact> := [];
    var i := 0;
    while i < |order|
      invariant 0 <= i <= |order| && |entries| == i
      invariant forall j :: 0 <= j < i ==> entries[j] == AverageImpact(order[j], m[order[j]])
    {
      var impact := m[order[i]];
      var averaged := impact;
      if impact.occurrences > 0 {
        averaged := ImpactSum(impact.occurrences, impact.econGain / impact.occurrences as real,
                              impact.equipGain / impact.occurrences as real);
      }
      entries := entries + [StreakEconomicImpact(order[i], averaged.occurrences, averaged.econGain, averaged.equipGain, 0.0)];
      i := i + 1;
    }
    assert forall j :: 0 <= j < |entries| ==> LengthOf(entries[j]) == order[j];
    SortByFacts(entries, LengthOf, e => FromTable(m, e));
    impacts := SortBy(entries, LengthOf);
    forall k | k in m
      ensures Occurrences(impacts, AverageImpact(k, m[k])) == 1
    {
      var j :| 0 <= j < |order| && order[j] == k;
      OccursOnce(entries, LengthOf, j);
    }
  }

  /** Every table entry comes from at least one streak, so its averages are true averages. */
  lemma ImpactAverages(team1Streaks: seq<StreakInfo>, team2Streaks: seq<StreakInfo>, k: int)
    requires k in ImpactTableOf(team1Streaks, team2Streaks)
    ensures var n := CountLength(team1Streaks, k) + CountLength(team2Streaks, k);
            n >= 1
            && AverageImpact(k, ImpactTableOf(team1Streaks, team2Streaks)[k]).occurrences == n
            && AverageImpact(k, ImpactTableOf(team1Streaks, team2Streaks)[k]).avgEconomicAdvantageGain
               == (EconGainOf(team1Streaks, k, true) + EconGainOf(team2Streaks, k, false)) / n as real
  {
    ImpactTableMeaning(team1Streaks, team2Streaks, k);
    var e := ImpactTableOf(team1Streaks, team2Streaks)[k];
    var n := CountLength(team1Streaks, k) + CountLength(team2Streaks, k);
    assert e.occurrences == n >= 1;
    assert e.econGain == EconGainOf(team1Streaks, k, true) + EconGainOf(team2Streaks, k, false);
    assert AverageImpact(k, e) == StreakEconomicImpact(k, n, e.econGain / n as real, e.equipGain / n as real, 0.0);
  }

  /**
   * A summary of a team's streaks: the same streaks, longest first, their
   * mean length and the first (longest) length; an empty list keeps the
   * zero figures.
   */
  predicate SummaryOf(streaks: seq<StreakInfo>, summary: StreakSummary)
  {
    |summary.sorted| == |streaks| && multiset(summary.sorted) == multiset(streaks)
    && LengthDescending(summary.sorted)
    && (streaks == [] ==> summary.avgWinStreak == 0.0 && summary.maxWinStreak == 0)
    && (streaks != [] ==>
          summary.avgWinStreak == SumLengths(summary.sorted) as real / |streaks| as real
          && summary.maxWinStreak == summary.sorted[0].length)
  }

  /**
   * The summary of one team's streaks, with the streaks sorted in place
   * longest first; its maximum is the longest length.
   */
  method SummarizeStreaks(streaks: seq<StreakInfo>) returns (summary: StreakSummary)
    ensures SummaryOf(streaks, summary)
    ensures forall k :: 0 <= k < |summary.sorted| ==> summary.sorted[k].length <= summary.maxWinStreak
  {
    var a := new StreakInfo[|streaks|](i requires 0 <= i < |streaks| => streaks[i]);
    assert a[..] == streaks;
    SortStreaksByLength(a);
    var sorted := a[..];
    if |sorted| == 0 {
      return StreakSummary(sorted, 0.0, 0);
    }
    var total := TotalLength(sorted);
    FirstIsLongest(sorted);
    summary := StreakSummary(sorted, total as real / |sorted| as real, sorted[0].length);
  }

  /** The summing loop of `finalizeStreakAnalysis`. */
  method TotalLength(streaks: seq<StreakInfo>) returns (total: int)
    ensures total == SumLengths(streaks)
  {
    total := 0;
    var i := 0;
    while i < |streaks|
      invariant 0 <= i <= |streaks|
      invariant total == SumLengths(streaks[..i])
    {
      assert streaks[..i + 1][..i] == streaks[..i];
      total := total + streaks[i].length;
      i := i + 1;
    }
    assert streaks[..i] == streaks;
  }

  /** The mean streak length lies between the shortest and the longest streak. */
  lemma {:induction false} MeanWithinLengths(s: seq<StreakInfo>)
    requires LengthDescending(s) && s != []
    ensures |s| * s[|s| - 1].length <= SumLengths(s) <= |s| * s[0].length
    decreases |s|
  {
    var n := |s|;
    if n > 1 {
      var init := s[..n - 1];
      assert LengthDescending(init);
      MeanWithinLengths(init);
      assert init[0] == s[0] && init[n - 2] == s[n - 2];
      var first, last, prev := s[0].length, s[n - 1].length, s[n - 2].length;
      assert last <= prev <= first;
      MulStep(n, first);
      MulStep(n, last);
      MulMono(n - 1, prev, last);
    }
  }

  lemma MulStep(n: int, x: int)
    ensures n * x == (n - 1) * x + x
  {
  }

  lemma MulMono(n: nat, x: int, y: int)
    requires y <= x
    ensures n * y <= n * x
  {
  }

  /** A length occurs in a list of streaks exactly when some streak has it. */
  lemma {:induction false} CountLengthPositive(streaks: seq<StreakInfo>, k: int)
    ensures CountLength(streaks, k) > 0 <==> exists i :: 0 <= i < |streaks| && streaks[i].length == k
    decreases |streaks|
  {
    if streaks != [] {
      var init := streaks[..|streaks| - 1];
      CountLengthPositive(init, k);
      if exists i :: 0 <= i < |init| && init[i].length == k {
        var i :| 0 <= i < |init| && init[i].length == k;
        assert streaks[i].length == k;
      }
      if exists i :: 0 <= i < |streaks| && streaks[i].length == k {
        var i :| 0 <= i < |streaks| && streaks[i].length == k;
        if i < |init| {
          assert init[i].length == k;
        }
      }
    }
  }

  lemma {:induction false} CountLengthAppend(a: seq<StreakInfo>, b: seq<StreakInfo>, k: int)
    ensures CountLength(a + b, k) == CountLength(a, k) + CountLength(b, k)
    decreases |b|
  {
    if b == [] {
      assert a + b == a;
    } else {
      CountLengthAppend(a, b[..|b| - 1], k);
      assert (a + b)[..|a + b| - 1] == a + b[..|b| - 1];
    }
  }

  /**
   * The lengths of the streaks in order of first appearance: an order in
   * which the impact table of the streaks can be visited.
   */
  method LengthsInOrder(streaks: seq<StreakInfo>) returns (order: seq<int>)
    ensures forall i, j :: 0 <= i < j < |order| ==> order[i] != order[j]
    ensures forall i :: 0 <= i < |order| ==> CountLength(streaks, order[i]) > 0
    ensures forall k :: CountLength(streaks, k) > 0 ==> k in order
  {
    order := [];
    var i := 0;
    while i < |streaks|
      invariant 0 <= i <= |streaks|
      invariant forall p, q :: 0 <= p < q < |order| ==> order[p] != order[q]
      invariant forall p :: 0 <= p < |order| ==> CountLength(streaks[..i], order[p]) > 0
      invariant forall j :: 0 <= j < i ==> streaks[j].length in order
    {
      assert streaks[..i + 1][..i] == streaks[..i];
      if streaks[i].length !in order {
        order := order + [streaks[i].length];
      }
      i := i + 1;
    }
    assert streaks[..i] == streaks;
    forall k | CountLength(streaks, k) > 0
      ensures k in order
    {
      CountLengthPositive(streaks, k);
    }
  }

  /** An iteration order of the impact table of both teams' streaks. */
  method ImpactOrder(team1Streaks: seq<StreakInfo>, team2Streaks: seq<StreakInfo>) returns (order: seq<int>)
    ensures IterationOrder(order, ImpactTableOf(team1Streaks, team2Streaks))
  {
    order := LengthsInOrder(team1Streaks + team2Streaks);
    forall k
      ensures k in ImpactTableOf(team1Streaks, team2Streaks) <==> CountLength(team1Streaks + team2Streaks, k) > 0
    {
      ImpactTableMeaning(team1Streaks, team2Streaks, k);
      CountLengthAppend(team1Streaks, team2Streaks, k);
    }
  }

  /**
   * `finalizeStreakAnalysis`: both teams' streaks summarised (sorted
   * longest first), then the impact table built from the sorted lists and
   * turned into its averaged list, ordered by streak length.
   */
  method FinalizeStreakAnalysis(team1Streaks: seq<StreakInfo>, team2Streaks: seq<StreakInfo>)
    returns (summary1: StreakSummary, summary2: StreakSummary, impacts: seq<StreakEconomicImpact>)
    ensures SummaryOf(team1Streaks, summary1) && SummaryOf(team2Streaks, summary2)
    ensures ImpactListOf(ImpactTableOf(summary1.sorted, summary2.sorted), impacts)
  {
    summary1 := SummarizeStreaks(team1Streaks);
    summary2 := SummarizeStreaks(team2Streaks);
    var table := TallyStreaks(map[], summary1.sorted, true);
    table := TallyStreaks(table, summary2.sorted, false);
    var order := ImpactOrder(summary1.sorted, summary2.sorted);
    impacts := ImpactList(table, order);
  }
}
