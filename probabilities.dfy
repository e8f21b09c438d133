// The deterministic parts of the round-outcome sampling: the lenient
// integer parse of distribution keys, the choice of the distribution bucket
// nearest to a win probability, the selection of an entry from a
// cumulative distribution for a given random draw, and the fixed fallbacks
// used when no distribution is loaded.

module Probabilities {
  import opened Wrappers
  import opened Reals
  import opened Text

  const MaxInt64: int := 0x7fff_ffff_ffff_ffff
  const MinInt64: int := -0x8000_0000_0000_0000

  predicate IsDigit(c: char)
  {
    '0' <= c <= '9'
  }

  predicate AllDigits(s: string)
  {
    forall i :: 0 <= i < |s| ==> IsDigit(s[i])
  }

  /** The value of a string of decimal digits, most significant first. */
  function DigitsValue(s: string): (v: nat)
    requires AllDigits(s)
  {
    if s == [] then 0 else DigitsValue(s[..|s| - 1]) * 10 + (s[|s| - 1] as int - '0' as int)
  }

  /**
   * `strconv.Atoi` on a 64-bit platform: an optional sign and at least one
   * decimal digit, and a value that fits in 64 bits; anything else is an
   * error (None).
   */
  function Atoi(s: string): (r: Option<int>)
    ensures r.Some? ==> MinInt64 <= r.value <= MaxInt64
  {
    if s == [] then None
    else
      var neg := s[0] == '-';
      var body := if s[0] == '-' || s[0] == '+' then s[1..] else s;
      if body == [] || !AllDigits(body) then None
      else
        var magnitude: int := DigitsValue(body);
        var v := if neg then -magnitude else magnitude;
        if v < MinInt64 || v > MaxInt64 then None else Some(v)
  }

  /** The digits of a string, in order of appearance. */
  function KeepDigits(s: string): (d: string)
    ensures AllDigits(d) && |d| <= |s|
  {
    if s == [] then []
    else KeepDigits(s[..|s| - 1]) + (if IsDigit(s[|s| - 1]) then [s[|s| - 1]] else [])
  }

  /** What `atoiSafe` returns: Atoi's value, else the value of the digits, else 50. */
  function AtoiSafeSpec(s: string): int
  {
    match Atoi(s)
    case Some(v) => v
    case None =>
      var d := KeepDigits(s);
      if d == [] then 50
      else match Atoi(d)
        case Some(v) => v
        case None => 50
  }

  /** `atoiSafe`: parse, or else collect the digits and parse those, or else 50. */
  method AtoiSafe(s: string) returns (i: int)
    ensures i == AtoiSafeSpec(s)
  {
    var parsed := Atoi(s);
    if parsed.Some? {
      return parsed.value;
    }
    var digits := "";
    var k := 0;
    while k < |s|
      invariant 0 <= k <= |s|
      invariant digits == KeepDigits(s[..k])
    {
      assert s[..k + 1][..k] == s[..k];
      if '0' <= s[k] <= '9' {
        digits := digits + [s[k]];
      }
      k := k + 1;
    }
    assert s[..k] == s;
    if digits == "" {
      return 50;
    }
    var retry := Atoi(digits);
    if retry.None? {
      return 50;
    }
    return retry.value;
  }

  lemma DigitCharValue(d: nat)
    requires d < 10
    ensures DigitChar(d) as int - '0' as int == d
  {
    assert "0123456789"[d] as int == '0' as int + d by {
      if d == 0 {} else if d == 1 {} else if d == 2 {} else if d == 3 {} else if d == 4 {}
      else if d == 5 {} else if d == 6 {} else if d == 7 {} else if d == 8 {} else {}
    }
  }

  /** Reading back the decimal text of a natural number gives the number. */
  lemma {:induction false} DigitsValueOfNatToString(n: nat)
    ensures AllDigits(NatToString(n)) && DigitsValue(NatToString(n)) == n
  {
    var s := NatToString(n);
    if n < 10 {
      DigitCharValue(n);
      assert s[..0] == [];
    } else {
      DigitsValueOfNatToString(n / 10);
      DigitCharValue(n % 10);
      assert s[..|s| - 1] == NatToString(n / 10);
    }
  }

  /** A non-empty digit string within range parses to its digit value. */
  lemma AtoiOfDigits(d: string)
    requires d != [] && AllDigits(d) && DigitsValue(d) <= MaxInt64
    ensures Atoi(d) == Some(DigitsValue(d))
  {
    assert IsDigit(d[0]);
  }

  /** A minus sign before a non-empty digit string within range negates its value. */
  lemma AtoiOfNegated(d: string)
    requires d != [] && AllDigits(d) && DigitsValue(d) <= -MinInt64
    ensures Atoi("-" + d) == Some(-(DigitsValue(d) as int))
  {
    assert ("-" + d)[1..] == d;
  }

  /** Round trip: Atoi, and so atoiSafe, reads back the `%d` text of any 64-bit integer. */
  lemma {:induction false} AtoiSafeReadsIntToString(n: int)
    requires MinInt64 <= n <= MaxInt64
    ensures Atoi(IntToString(n)) == Some(n)
    ensures AtoiSafeSpec(IntToString(n)) == n
  {
    if n < 0 {
      DigitsValueOfNatToString(-n);
      AtoiOfNegated(NatToString(-n));
    } else {
      DigitsValueOfNatToString(n);
      AtoiOfDigits(NatToString(n));
    }
  }

  /**
   * When Atoi rejects the string, the result is the value of its digits
   * read in order (the sign is lost), or 50 when there are none or they
   * overflow; it is never negative then.
   */
  lemma AtoiSafeFallback(s: string)
    requires Atoi(s) == None
    ensures KeepDigits(s) == [] ==> AtoiSafeSpec(s) == 50
    ensures KeepDigits(s) != [] && DigitsValue(KeepDigits(s)) <= MaxInt64 ==>
      AtoiSafeSpec(s) == DigitsValue(KeepDigits(s))
    ensures KeepDigits(s) != [] && DigitsValue(KeepDigits(s)) > MaxInt64 ==> AtoiSafeSpec(s) == 50
    ensures AtoiSafeSpec(s) >= 0
  {
    var d := KeepDigits(s);
    if d != [] {
      assert IsDigit(d[0]);
    }
  }

  /** Keeping the digits of a join keeps the digits of each part. */
  lemma {:induction false} KeepDigitsAppend(a: string, b: string)
    ensures KeepDigits(a + b) == KeepDigits(a) + KeepDigits(b)
    decreases |b|
  {
    if b == [] {
      assert a + b == a;
    } else {
      var b' := b[..|b| - 1];
      assert (a + b)[..|a + b| - 1] == a + b';
      KeepDigitsAppend(a, b');
    }
  }

  /** A string of digits keeps all of itself. */
  lemma {:induction false} KeepDigitsOfDigits(d: string)
    requires AllDigits(d)
    ensures KeepDigits(d) == d
  {
    if d != [] {
      KeepDigitsOfDigits(d[..|d| - 1]);
      assert d == d[..|d| - 1] + [d[|d| - 1]];
    }
  }

  /** A string without digits keeps nothing. */
  lemma {:induction false} KeepDigitsOfNonDigits(p: string)
    requires forall i :: 0 <= i < |p| ==> !IsDigit(p[i])
    ensures KeepDigits(p) == []
  {
    if p != [] {
      KeepDigitsOfNonDigits(p[..|p| - 1]);
    }
  }

  /**
   * Stray characters before the digits are skipped, and a sign among them
   * is lost: "p45" reads as 45 and "x-7" as 7.
   */
  lemma AtoiSafeSkipsNonDigits(p: string, d: string)
    requires p != [] && p[0] != '-' && p[0] != '+'
    requires forall i :: 0 <= i < |p| ==> !IsDigit(p[i])
    requires d != [] && AllDigits(d) && DigitsValue(d) <= MaxInt64
    ensures AtoiSafeSpec(p + d) == DigitsValue(d)
  {
    assert (p + d)[0] == p[0];
    assert !IsDigit((p + d)[0]);
    assert Atoi(p + d) == None;
    KeepDigitsAppend(p, d);
    KeepDigitsOfNonDigits(p);
    KeepDigitsOfDigits(d);
    assert KeepDigits(p + d) == d;
    AtoiOfDigits(d);
  }

  function RealAbs(x: real): (r: real)
    ensures r >= 0.0 && (r == x || r == -x)
  {
    if x < 0.0 then -x else x
  }

  /** How far a bucket key lies from the target percentage. */
  function KeyDistance(key: string, target: real): real
  {
    RealAbs(AtoiSafeSpec(key) as real - target)
  }

  /** Every key's distance from the target, in key order. */
  function Distances(keys: seq<string>, target: real): (ds: seq<real>)
    ensures |ds| == |keys|
  {
    if keys == [] then [] else Distances(keys[..|keys| - 1], target) + [KeyDistance(keys[|keys| - 1], target)]
  }

  lemma {:induction false} DistancesAt(keys: seq<string>, target: real, k: nat)
    requires k < |keys|
    ensures Distances(keys, target)[k] == KeyDistance(keys[k], target)
  {
    if k < |keys| - 1 {
      DistancesAt(keys[..|keys| - 1], target, k);
    }
  }

  /**
   * The index of the smallest distance: no distance is smaller, and every
   * earlier one is strictly larger (the first of equal minima wins).
   */
  function FirstMinimum(ds: seq<real>): (i: nat)
    requires |ds| > 0
    ensures i < |ds|
    ensures forall j :: 0 <= j < |ds| ==> ds[i] <= ds[j]
    ensures forall j :: 0 <= j < i ==> ds[j] > ds[i]
  {
    if |ds| == 1 then 0
    else
      var b := FirstMinimum(ds[..|ds| - 1]);
      assert forall j :: 0 <= j < |ds| - 1 ==> ds[..|ds| - 1][j] == ds[j];
      if ds[|ds| - 1] < ds[b] then |ds| - 1 else b
  }

  /** The two properties of the first minimum determine it. */
  lemma FirstMinimumUnique(ds: seq<real>, i: nat)
    requires i < |ds|
    requires forall j :: 0 <= j < |ds| ==> ds[i] <= ds[j]
    requires forall j :: 0 <= j < i ==> ds[j] > ds[i]
    ensures FirstMinimum(ds) == i
  {
    var m := FirstMinimum(ds);
    assert ds[m] <= ds[i] && ds[i] <= ds[m];
  }

  /** The first key nearest to the target, or "50" when there are no keys. */
  function NearestKey(keys: seq<string>, target: real): string
  {
    if keys == [] then "50" else keys[FirstMinimum(Distances(keys, target))]
  }

  /**
   * The key `csfPercentKeyForProb` picks from a map whose keys come in the
   * given order: "50" for none, else the first key nearest to 100·p.
   */
  function CsfPercentKey(keys: seq<string>, p: real): string
  {
    NearestKey(keys, p * 100.0)
  }

  /** A key no farther than another by distance entry is no farther by key distance. */
  lemma NearerAt(keys: seq<string>, target: real, m: nat, j: nat)
    requires m < |keys| && j < |keys|
    requires Distances(keys, target)[m] <= Distances(keys, target)[j]
    ensures KeyDistance(keys[m], target) <= KeyDistance(keys[j], target)
  {
    DistancesAt(keys, target, m);
    DistancesAt(keys, target, j);
  }

  /** The nearest key is one of the keys, and none is nearer to the target. */
  lemma NearestKeyNearest(keys: seq<string>, target: real)
    requires keys != []
    ensures NearestKey(keys, target) in keys
    ensures forall j :: 0 <= j < |keys| ==>
      KeyDistance(NearestKey(keys, target), target) <= KeyDistance(keys[j], target)
  {
    var ds := Distances(keys, target);
    var m := FirstMinimum(ds);
    assert NearestKey(keys, target) == keys[m];
    forall j | 0 <= j < |keys|
      ensures KeyDistance(keys[m], target) <= KeyDistance(keys[j], target)
    {
      assert ds[m] <= ds[j];
      NearerAt(keys, target, m, j);
    }
  }

  /** The chosen key is one of the keys, and none is nearer to 100·p. */
  lemma CsfPercentKeyNearest(keys: seq<string>, p: real)
    requires keys != []
    ensures CsfPercentKey(keys, p) in keys
    ensures forall j :: 0 <= j < |keys| ==>
      KeyDistance(CsfPercentKey(keys, p), p * 100.0) <= KeyDistance(keys[j], p * 100.0)
  {
    NearestKeyNearest(keys, p * 100.0);
  }

  /** Among equally near keys the earliest one is chosen. */
  lemma CsfPercentKeyFirstOfTies(keys: seq<string>, p: real, j: nat)
    requires j < |keys|
    requires forall i :: 0 <= i < j ==> KeyDistance(keys[i], p * 100.0) > KeyDistance(keys[j], p * 100.0)
    requires forall i :: 0 <= i < |keys| ==> KeyDistance(keys[j], p * 100.0) <= KeyDistance(keys[i], p * 100.0)
    ensures CsfPercentKey(keys, p) == keys[j]
  {
    var ds := Distances(keys, p * 100.0);
    forall i | 0 <= i < |keys|
      ensures ds[i] == KeyDistance(keys[i], p * 100.0)
    {
      DistancesAt(keys, p * 100.0, i);
    }
    FirstMinimumUnique(ds, j);
  }

  lemma DistanceAt(keys: seq<string>, target: real, k: nat, n: int)
    requires k < |keys| && n == AtoiSafeSpec(keys[k])
    ensures RealAbs(n as real - target) == Distances(keys, target)[k]
  {
    DistancesAt(keys, target, k);
  }

  /** One step of the running first minimum: it stays, or the next entry replaces it when strictly smaller. */
  lemma MinimumStep(ds: seq<real>, k: nat, bestIdx: nat, bestDiff: real)
    requires bestIdx < k < |ds| && bestDiff == ds[bestIdx]
    requires forall j :: 0 <= j < k ==> bestDiff <= ds[j]
    requires forall j :: 0 <= j < bestIdx ==> ds[j] > bestDiff
    ensures ds[k] < bestDiff ==> (forall j :: 0 <= j < k + 1 ==> ds[k] <= ds[j]) && (forall j :: 0 <= j < k ==> ds[j] > ds[k])
    ensures !(ds[k] < bestDiff) ==> (forall j :: 0 <= j < k + 1 ==> bestDiff <= ds[j])
  {
  }

  /** `csfPercentKeyForProb`. */
  method CsfPercentKeyForProb(keys: seq<string>, p: real) returns (bestKey: string)
    ensures bestKey == CsfPercentKey(keys, p)
  {
    if |keys| == 0 {
      return "50";
    }
    var target := p * 100.0;
    var bestIdx;
    bestIdx, bestKey := NearestIndex(keys, target);
  }

  /** The loop of `csfPercentKeyForProb`: the first key nearest to the target, and its index. */
  method NearestIndex(keys: seq<string>, target: real) returns (bestIdx: nat, bestKey: string)
    requires keys != []
    ensures bestIdx == FirstMinimum(Distances(keys, target))
    ensures bestKey == keys[bestIdx] == NearestKey(keys, target)
  {
    ghost var ds := Distances(keys, target);
    bestIdx := 0;
    bestKey := keys[0];
    var n0 := AtoiSafe(bestKey);
    var bestDiff := RealAbs(n0 as real - target);
    DistanceAt(keys, target, 0, n0);
    var k := 1;
    while k < |keys|
      invariant 1 <= k <= |keys| && bestIdx < k
      invariant bestKey == keys[bestIdx] && bestDiff == ds[bestIdx]
      invariant forall j :: 0 <= j < k ==> bestDiff <= ds[j]
      invariant forall j :: 0 <= j < bestIdx ==> ds[j] > bestDiff
    {
      var s := keys[k];
      var n := AtoiSafe(s);
      var d := RealAbs(n as real - target);
      DistanceAt(keys, target, k, n);
      MinimumStep(ds, k, bestIdx, bestDiff);
      if d < bestDiff {
        bestDiff := d;
        bestKey := s;
        bestIdx := k;
      }
      k := k + 1;
    }
    FirstMinimumUnique(ds, bestIdx);
  }

  /** The running total of the weights up to and including index j. */
  function RunningTotal(weights: seq<real>, j: nat): real
    requires j < |weights|
  {
    Sum(weights[..j + 1])
  }

  /**
   * The first index at which the running total of the weights reaches the
   * draw r, or None when it never does.
   */
  function FirstReaching(weights: seq<real>, r: real): (idx: Option<nat>)
    ensures idx.Some? ==> idx.value < |weights| && RunningTotal(weights, idx.value) >= r
    ensures idx.Some? ==> forall j :: 0 <= j < idx.value ==> RunningTotal(weights, j) < r
    ensures idx.None? ==> forall j :: 0 <= j < |weights| ==> RunningTotal(weights, j) < r
  {
    if weights == [] then None
    else
      var front := weights[..|weights| - 1];
      assert forall j :: 0 <= j < |weights| - 1 ==> RunningTotal(front, j) == RunningTotal(weights, j) by {
        forall j | 0 <= j < |weights| - 1
          ensures RunningTotal(front, j) == RunningTotal(weights, j)
        {
          assert front[..j + 1] == weights[..j + 1];
        }
      }
      var p := FirstReaching(front, r);
      if p.Some? then p
      else if Sum(weights) >= r then
        assert weights[..|weights|] == weights;
        Some(|weights| - 1)
      else
        assert weights[..|weights|] == weights;
        None
  }

  /** The accumulation loop shared by the samplers: add weights in order, stop at the first total ≥ r. */
  method SelectCumulative(weights: seq<real>, r: real) returns (idx: Option<nat>)
    ensures idx == FirstReaching(weights, r)
  {
    var cum := 0.0;
    var k := 0;
    while k < |weights|
      invariant 0 <= k <= |weights|
      invariant cum == Sum(weights[..k])
      invariant forall j :: 0 <= j < k ==> RunningTotal(weights, j) < r
    {
      assert weights[..k + 1][..k] == weights[..k];
      cum := cum + weights[k];
      assert cum == RunningTotal(weights, k);
      if r <= cum {
        return Some(k);
      }
      k := k + 1;
    }
    return None;
  }

  /** The simple fallback when no distribution is loaded: elimination with 70% (CT) or 68% (T). */
  function SimpleReason(ctWin: bool, u: real): (reason: string)
    ensures ctWin ==> (reason == "Elimination" <==> u < 0.70) && (reason != "Elimination" ==> reason == "Defused")
    ensures !ctWin ==> (reason == "Elimination" <==> u < 0.68) && (reason != "Elimination" ==> reason == "Exploded")
  {
    if ctWin then (if u < 0.70 then "Elimination" else "Defused")
    else (if u < 0.68 then "Elimination" else "Exploded")
  }

  /** One entry of the round-end reason distribution file. */
  datatype RoundEndReason = RoundEndReason(winnerSide: string, reason: string, percentage: real)

  datatype RoundEndDistribution = RoundEndDistribution(ctReasons: seq<RoundEndReason>, tReasons: seq<RoundEndReason>)

  function Percentages(reasons: seq<RoundEndReason>): (ps: seq<real>)
    ensures |ps| == |reasons|
    ensures forall i :: 0 <= i < |reasons| ==> ps[i] == reasons[i].percentage
  {
    if reasons == [] then [] else Percentages(reasons[..|reasons| - 1]) + [reasons[|reasons| - 1].percentage]
  }

  /**
   * `DetermineRoundEndReason`, with the loaded distribution and the uniform
   * draw u in [0, 1) as parameters: the simple fallback without a
   * distribution, "Elimination" for an empty side, else the first reason
   * whose cumulative percentage reaches 100·u, or the first reason when
   * none does.
   */
  method DetermineRoundEndReason(dist: Option<RoundEndDistribution>, ctWin: bool, u: real) returns (reason: string)
    ensures dist.None? ==> reason == SimpleReason(ctWin, u)
    ensures dist.Some? ==>
      var reasons := if ctWin then dist.value.ctReasons else dist.value.tReasons;
      (reasons == [] ==> reason == "Elimination")
      && (reasons != [] ==>
            match FirstReaching(Percentages(reasons), u * 100.0)
            case Some(i) => reason == reasons[i].reason
            case None => reason == reasons[0].reason)
  {
    if dist.None? {
      return SimpleReason(ctWin, u);
    }
    var reasons := dist.value.tReasons;
    if ctWin {
      reasons := dist.value.ctReasons;
    }
    if |reasons| == 0 {
      return "Elimination";
    }
    var randValue := u * 100.0;
    var idx := SelectCumulative(Percentages(reasons), randValue);
    if idx.Some? {
      return reasons[idx.value].reason;
    }
    return reasons[0].reason;
  }

  /** A Go map that is iterated, as its entries in iteration order. */
  type Assoc<V> = seq<(string, V)>

  function Keys<V>(a: Assoc<V>): (ks: seq<string>)
    ensures |ks| == |a| && forall i :: 0 <= i < |a| ==> ks[i] == a[i].0
  {
    if a == [] then [] else Keys(a[..|a| - 1]) + [a[|a| - 1].0]
  }

  /** Map lookup: the value stored under k, if any. */
  function Lookup<V>(a: Assoc<V>, k: string): (r: Option<V>)
    ensures r.Some? <==> k in Keys(a)
  {
    if a == [] then None
    else if a[0].0 == k then Some(a[0].1)
    else
      assert Keys(a) == [a[0].0] + Keys(a[1..]);
      Lookup(a[1..], k)
  }

  datatype ReasonEntry = ReasonEntry(probability: real, reasonName: string)
  datatype SurvivorEntry = SurvivorEntry(survivors: string, probability: real)

  /**
   * The parts of the ABM models file the samplers read; None for a section
   * absent from the file. Round-end reasons: side, then percent key, then
   * the reasons; survivors: side, reason code, percent key, then the
   * distribution; saved equipment: side, reason code, survivor count, then
   * the mean.
   */
  datatype ABMModels = ABMModels(
    roundEndReasons: Option<Assoc<Assoc<seq<ReasonEntry>>>>,
    survivorDistributions: Option<Assoc<Assoc<Assoc<seq<SurvivorEntry>>>>>,
    equipmentSaved: Option<Assoc<Assoc<Assoc<real>>>>)

  /** A sampler's answer, or the marker of a call that never returns. */
  datatype Sampled<T> = Value(value: T) | Diverges

  function ReasonProbabilities(entries: seq<ReasonEntry>): (ps: seq<real>)
    ensures |ps| == |entries| && forall i :: 0 <= i < |entries| ==> ps[i] == entries[i].probability
  {
    if entries == [] then [] else ReasonProbabilities(entries[..|entries| - 1]) + [entries[|entries| - 1].probability]
  }

  function SurvivorProbabilities(entries: seq<SurvivorEntry>): (ps: seq<real>)
    ensures |ps| == |entries| && forall i :: 0 <= i < |entries| ==> ps[i] == entries[i].probability
  {
    if entries == [] then [] else SurvivorProbabilities(entries[..|entries| - 1]) + [entries[|entries| - 1].probability]
  }

  function SideName(ctWin: bool): string
  {
    if ctWin then "CT" else "T"
  }

  /**
   * `SampleRoundEndFromABM`, with the models, the fallback draw u and the
   * accumulation draw r as parameters. Without models it is the simple
   * fallback. A missing or empty side map makes the function call itself
   * with the same arguments, which never returns. Otherwise the bucket
   * nearest to csfProb is chosen and its reasons are accumulated against
   * r, falling back to the first reason, or "Elimination" for none.
   */
  method SampleRoundEndFromABM(models: Option<ABMModels>, ctWin: bool, csfProb: real, u: real, r: real)
    returns (result: Sampled<string>)
    ensures models.None? || models.value.roundEndReasons.None? ==> result == Value(SimpleReason(ctWin, u))
    ensures models.Some? && models.value.roundEndReasons.Some? ==>
      var sideMap := Lookup<Assoc<seq<ReasonEntry>>>(models.value.roundEndReasons.value, SideName(ctWin));
      (sideMap.None? || sideMap.value == [] <==> result == Diverges)
      && (sideMap.Some? && sideMap.value != [] ==>
            var bucket := Lookup<seq<ReasonEntry>>(sideMap.value, CsfPercentKey(Keys(sideMap.value), csfProb));
            bucket.Some?
            && match FirstReaching(ReasonProbabilities(bucket.value), r)
               case Some(i) => result == Value(bucket.value[i].reasonName)
               case None => result == Value(if bucket.value == [] then "Elimination" else bucket.value[0].reasonName))
  {
    if models.None? || models.value.roundEndReasons.None? {
      return Value(SimpleReason(ctWin, u));
    }
    var side := SideName(ctWin);
    var sideMap := Lookup<Assoc<seq<ReasonEntry>>>(models.value.roundEndReasons.value, side);
    if sideMap.None? || |sideMap.value| == 0 {
      return Diverges;
    }
    var key := CsfPercentKeyForProb(Keys(sideMap.value), csfProb);
    var bucket := Lookup<seq<ReasonEntry>>(sideMap.value, key);
    var entries: seq<ReasonEntry> := bucket.value;
    var idx := SelectCumulative(ReasonProbabilities(entries), r);
    if idx.Some? {
      return Value(entries[idx.value].reasonName);
    }
    if |entries| > 0 {
      return Value(entries[0].reasonName);
    }
    return Value("Elimination");
  }

  /** The survivor fallback: 3 after an elimination ("8"), none after codes "7" and "1", else 2. */
  function SurvivorFallback(reasonCode: string): (n: int)
    ensures 0 <= n <= 3
    ensures n == 3 <==> reasonCode == "8"
    ensures n == 0 <==> reasonCode == "7" || reasonCode == "1"
  {
    if reasonCode == "8" then 3
    else if reasonCode == "7" then 0
    else if reasonCode == "1" then 0
    else 2
  }

  /**
   * `SampleSurvivorsFromABM`: the fallback without models; 0 for a missing
   * side or reason; otherwise the nearest bucket (an empty one when the
   * nearest key is the "50" of an empty map) is accumulated against r.
   */
  method SampleSurvivorsFromABM(models: Option<ABMModels>, side: string, reasonCode: string, csfProb: real, r: real)
    returns (survivors: int)
    ensures models.None? || models.value.survivorDistributions.None? ==> survivors == SurvivorFallback(reasonCode)
    ensures models.Some? && models.value.survivorDistributions.Some? ==>
      var sideMap := Lookup(models.value.survivorDistributions.value, side);
      var reasonMap := if sideMap.Some? then Lookup(sideMap.value, reasonCode) else None;
      (reasonMap.None? ==> survivors == 0)
      && (reasonMap.Some? ==>
            var b := Lookup(reasonMap.value, CsfPercentKey(Keys(reasonMap.value), csfProb));
            var entries := if b.Some? then b.value else [];
            match FirstReaching(SurvivorProbabilities(entries), r)
            case Some(i) => survivors == AtoiSafeSpec(entries[i].survivors)
            case None => survivors == (if entries == [] then 0 else AtoiSafeSpec(entries[0].survivors)))
  {
    if models.None? || models.value.survivorDistributions.None? {
      return SurvivorFallback(reasonCode);
    }
    var sideMap := Lookup(models.value.survivorDistributions.value, side);
    if sideMap.None? {
      return 0;
    }
    var reasonMap := Lookup(sideMap.value, reasonCode);
    if reasonMap.None? {
      return 0;
    }
    var key := CsfPercentKeyForProb(Keys(reasonMap.value), csfProb);
    var bucket := Lookup(reasonMap.value, key);
    var entries := if bucket.Some? then bucket.value else [];
    var idx := SelectCumulative(SurvivorProbabilities(entries), r);
    if idx.Some? {
      survivors := AtoiSafe(entries[idx.value].survivors);
      return;
    }
    if |entries| > 0 {
      survivors := AtoiSafe(entries[0].survivors);
      return;
    }
    return 0;
  }

  /** The saved-equipment fallback: nothing without survivors, else 100 per survivor. */
  function EquipmentFallback(survivors: int): (eq: real)
    ensures survivors == 0 ==> eq == 0.0
    ensures survivors != 0 ==> eq == survivors as real * 100.0
  {
    if survivors == 0 then 0.0 else survivors as real * 100.0
  }

  /** More survivors never save less under the fallback. */
  lemma EquipmentFallbackMonotone(a: int, b: int)
    requires 0 <= a <= b
    ensures 0.0 <= EquipmentFallback(a) <= EquipmentFallback(b)
  {
  }

  /**
   * `SampleEquipmentSavedFromABM`: the fallback without models; 0 for a
   * missing side or reason; the mean under the `%d` key of the survivor
   * count, else the first bucket's mean, else 0.
   */
  function SampleEquipmentSavedFromABM(models: Option<ABMModels>, side: string, reasonCode: string, survivors: int): (eq: real)
    ensures models.None? || models.value.equipmentSaved.None? ==> eq == EquipmentFallback(survivors)
  {
    if models.None? || models.value.equipmentSaved.None? then EquipmentFallback(survivors)
    else
      var sideMap := Lookup<Assoc<Assoc<real>>>(models.value.equipmentSaved.value, side);
      if sideMap.None? then 0.0
      else
        var reasonMap := Lookup<Assoc<real>>(sideMap.value, reasonCode);
        if reasonMap.None? then 0.0
        else
          var bucket := Lookup(reasonMap.value, IntToString(survivors));
          if bucket.Some? then bucket.value
          else if reasonMap.value == [] then 0.0
          else reasonMap.value[0].1
  }

  /** With a bucket stored under the survivor count's text, that bucket's mean is used. */
  lemma EquipmentSavedUsesSurvivorKey(models: ABMModels, side: string, reasonCode: string, survivors: int,
                                      sideMap: Assoc<Assoc<real>>, reasonMap: Assoc<real>, mean: real)
    requires models.equipmentSaved.Some?
    requires Lookup(models.equipmentSaved.value, side) == Some(sideMap)
    requires Lookup(sideMap, reasonCode) == Some(reasonMap)
    requires Lookup(reasonMap, IntToString(survivors)) == Some(mean)
    ensures SampleEquipmentSavedFromABM(Some(models), side, reasonCode, survivors) == mean
  {
  }
}
