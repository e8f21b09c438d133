// The strategy registry: the names a simulation accepts, their lookup, and
// the sorted list of available names; and the narrower check of the custom
// command, which accepts six strategy names.

module StrategyRegistry {
  import opened Wrappers

  /** The strategies the registry maps names to. */
  datatype StrategyId =
    | AllIn | AllInV2 | AntiAllin | AntiAllinV2 | AntiAllinV3
    | MinMax | MinMaxV2 | MinMaxV3 | ExpectedValue
    | AdaptiveV1 | AdaptiveV2 | SmartV1 | Half
    | MlDqn | MlSgd | MlTree | MlForest
    | Casual | Random | Scrooge

  /** `StrategyRegistry`. */
  function Registry(): map<string, StrategyId>
  {
    map[
      "all_in" := AllIn, "all_in_v2" := AllInV2,
      "anti_allin" := AntiAllin, "anti_allin_v2" := AntiAllinV2, "anti_allin_v3" := AntiAllinV3,
      "min_max" := MinMax, "min_max_v2" := MinMaxV2, "min_max_v3" := MinMaxV3, "expected_value" := ExpectedValue,
      "adaptive_eco_v1" := AdaptiveV1, "adaptive_eco_v2" := AdaptiveV2, "smart_v1" := SmartV1, "half" := Half,
      "ml_dqn" := MlDqn, "ml_sgd" := MlSgd, "ml_tree" := MlTree, "ml_forest" := MlForest,
      "casual" := Casual, "random" := Random, "scrooge" := Scrooge
    ]
  }

  /** The registry's names in declaration order. */
  const RegistryNames: seq<string> := [
    "all_in", "all_in_v2", "anti_allin", "anti_allin_v2", "anti_allin_v3",
    "min_max", "min_max_v2", "min_max_v3", "expected_value",
    "adaptive_eco_v1", "adaptive_eco_v2", "smart_v1", "half",
    "ml_dqn", "ml_sgd", "ml_tree", "ml_forest",
    "casual", "random", "scrooge"]

  // ------------------------------------------------------------ string order

  /** Go's string comparison: lexicographic by character code, a prefix first. */
  predicate StrLe(a: string, b: string)
  {
    if a == [] then true
    else if b == [] then false
    else if a[0] != b[0] then a[0] < b[0]
    else StrLe(a[1..], b[1..])
  }

  lemma {:induction false} StrLeTotal(a: string, b: string)
    ensures StrLe(a, b) || StrLe(b, a)
  {
    if a != [] && b != [] && a[0] == b[0] {
      StrLeTotal(a[1..], b[1..]);
    }
  }

  lemma {:induction false} StrLeAntisymmetric(a: string, b: string)
    requires StrLe(a, b) && StrLe(b, a)
    ensures a == b
  {
    if a != [] && b != [] {
      StrLeAntisymmetric(a[1..], b[1..]);
      assert a == [a[0]] + a[1..] && b == [b[0]] + b[1..];
    }
  }

  predicate Sorted(s: seq<string>)
  {
    forall i :: 0 < i < |s| ==> StrLe(s[i - 1], s[i])
  }

  /** Inserts a name into a sorted list before the first name it does not follow. */
  function Insert(x: string, s: seq<string>): (r: seq<string>)
    ensures multiset(r) == multiset(s) + multiset{x}
    ensures |r| == |s| + 1
  {
    if s == [] then [x]
    else if StrLe(x, s[0]) then [x] + s
    else
      assert s == [s[0]] + s[1..];
      [s[0]] + Insert(x, s[1..])
  }

  /** A name that comes no later than a sorted list's head may go in front. */
  lemma SortedCons(y: string, t: seq<string>)
    requires Sorted(t) && (t == [] || StrLe(y, t[0]))
    ensures Sorted([y] + t)
  {
    var s := [y] + t;
    forall i | 0 < i < |s|
      ensures StrLe(s[i - 1], s[i])
    {
      if i > 1 {
        assert s[i - 1] == t[i - 2] && s[i] == t[i - 1];
      }
    }
  }

  lemma SortedTail(s: seq<string>)
    requires Sorted(s) && s != []
    ensures Sorted(s[1..])
  {
    var t := s[1..];
    forall i | 0 < i < |t| ensures StrLe(t[i - 1], t[i]) {
      assert t[i - 1] == s[i] && t[i] == s[i + 1];
    }
  }

  lemma {:induction false} InsertSorted(x: string, s: seq<string>)
    requires Sorted(s)
    ensures Sorted(Insert(x, s))
    ensures Insert(x, s)[0] == x || (s != [] && Insert(x, s)[0] == s[0])
  {
    if s == [] {
    } else if StrLe(x, s[0]) {
      SortedCons(x, s);
    } else {
      StrLeTotal(x, s[0]);
      var t := s[1..];
      SortedTail(s);
      InsertSorted(x, t);
      SortedCons(s[0], Insert(x, t));
    }
  }

  /** `sort.Strings`, by insertion. */
  function SortStrings(s: seq<string>): seq<string>
  {
    if s == [] then [] else Insert(s[|s| - 1], SortStrings(s[..|s| - 1]))
  }

  lemma {:induction false} SortStringsCorrect(s: seq<string>)
    ensures Sorted(SortStrings(s))
    ensures multiset(SortStrings(s)) == multiset(s)
  {
    if s != [] {
      SortStringsCorrect(s[..|s| - 1]);
      InsertSorted(s[|s| - 1], SortStrings(s[..|s| - 1]));
      assert s == s[..|s| - 1] + [s[|s| - 1]];
    }
  }

  /** Two sorted lists holding the same names are the same list. */
  lemma {:induction false} SortedUnique(a: seq<string>, b: seq<string>)
    requires Sorted(a) && Sorted(b) && multiset(a) == multiset(b)
    ensures a == b
    decreases |a|
  {
    if a != [] {
      SameHead(a, b);
      MultisetTail(a);
      MultisetTail(b);
      SortedTail(a);
      SortedTail(b);
      SortedUnique(a[1..], b[1..]);
      assert a == [a[0]] + a[1..] && b == [b[0]] + b[1..];
    }
  }

  /** Two sorted lists holding the same names start with the same name. */
  lemma SameHead(a: seq<string>, b: seq<string>)
    requires Sorted(a) && Sorted(b) && multiset(a) == multiset(b) && a != []
    ensures b != [] && a[0] == b[0]
  {
    assert a[0] in multiset(a);
    assert b != [] by { assert |multiset(a)| == |multiset(b)|; }
    assert b[0] in multiset(b);
    SortedHeadLeast(a, b[0]);
    SortedHeadLeast(b, a[0]);
    StrLeAntisymmetric(a[0], b[0]);
  }

  lemma MultisetTail(s: seq<string>)
    requires s != []
    ensures multiset(s[1..]) == multiset(s) - multiset{s[0]}
  {
    assert s == [s[0]] + s[1..];
  }

  /** The head of a sorted list comes no later than any of its names. */
  lemma {:induction false} SortedHeadLeast(s: seq<string>, x: string)
    requires Sorted(s) && x in multiset(s)
    ensures StrLe(s[0], x)
    decreases |s|
  {
    if s[0] == x {
      StrLeReflexive(x);
    } else {
      MultisetTail(s);
      SortedTail(s);
      SortedHeadLeast(s[1..], x);
      StrLeTransitive(s[0], s[1], x);
    }
  }

  lemma {:induction false} StrLeReflexive(a: string)
    ensures StrLe(a, a)
  {
    if a != [] {
      StrLeReflexive(a[1..]);
    }
  }

  lemma {:induction false} StrLeTransitive(a: string, b: string, c: string)
    requires StrLe(a, b) && StrLe(b, c)
    ensures StrLe(a, c)
  {
    if a != [] && b != [] && c != [] && a[0] == b[0] && b[0] == c[0] {
      StrLeTransitive(a[1..], b[1..], c[1..]);
    }
  }

  // -------------------------------------------------------------- the lookups

  /** The names joined with a separator, as `strings.Join` does. */
  function Join(names: seq<string>, sep: string): string
  {
    if names == [] then ""
    else if |names| == 1 then names[0]
    else names[0] + sep + Join(names[1..], sep)
  }

  /** The sorted list of registry names the error message shows. */
  function AvailableNames(): seq<string>
  {
    SortStrings(RegistryNames)
  }

  /**
   * `ValidateStrategy`: no error (`None`) for a registered name; otherwise
   * an error naming it and listing every registered name in sorted order.
   */
  function ValidateStrategy(name: string): (err: Option<string>)
    ensures err.None? <==> name in Registry()
    ensures err.Some? ==> err.value == "unknown strategy '" + name + "'. Available strategies:\n  " + Join(AvailableNames(), ", ")
  {
    if name in Registry() then None
    else Some("unknown strategy '" + name + "'. Available strategies:\n  " + Join(AvailableNames(), ", "))
  }

  /** `GetStrategy`: the registered strategy, or an error naming the unknown name. */
  function GetStrategy(name: string): (r: Result<StrategyId, string>)
    ensures r.Ok? <==> name in Registry()
    ensures r.Ok? ==> r.value == Registry()[name]
    ensures r.Err? ==> r.error == "unknown strategy: " + name
  {
    if name in Registry() then Ok(Registry()[name]) else Err("unknown strategy: " + name)
  }

  /** A name validates exactly when it can be looked up. */
  lemma ValidateAgreesWithGet(name: string)
    ensures ValidateStrategy(name).None? <==> GetStrategy(name).Ok?
  {
  }

  /** The registry's declared names are exactly its keys. */
  lemma RegistryNamesAreKeys()
    ensures forall k :: k in Registry() <==> k in RegistryNames
  {
  }

  /** Any list holding the declared names holds exactly the registry's keys. */
  lemma SameNamesAreKeys(names: seq<string>)
    requires multiset(names) == multiset(RegistryNames)
    ensures forall k :: k in names <==> k in Registry()
  {
    RegistryNamesAreKeys();
    forall k ensures k in names <==> k in RegistryNames {
      assert k in names <==> k in multiset(names);
      assert k in RegistryNames <==> k in multiset(RegistryNames);
    }
  }

  /** Sorting does not depend on the order the names were collected in. */
  lemma SortIgnoresOrder(o1: seq<string>, o2: seq<string>)
    requires multiset(o1) == multiset(o2)
    ensures SortStrings(o1) == SortStrings(o2)
  {
    SortStringsCorrect(o1);
    SortStringsCorrect(o2);
    SortedUnique(SortStrings(o1), SortStrings(o2));
  }

  /**
   * `GetAvailableStrategies`: collects the names in the map's iteration
   * order `order` and sorts them.
   */
  method GetAvailableStrategies(order: seq<string>) returns (names: seq<string>)
    ensures Sorted(names)
    ensures multiset(names) == multiset(order)
    ensures |names| == |order|
    ensures names == SortStrings(order)
  {
    var collected: seq<string> := [];
    var i := 0;
    while i < |order|
      invariant 0 <= i <= |order|
      invariant collected == order[..i]
    {
      assert order[..i + 1] == order[..i] + [order[i]];
      collected := collected + [order[i]];
      i := i + 1;
    }
    assert order[..i] == order;
    names := SortStrings(collected);
    SortStringsCorrect(collected);
    assert |names| == |multiset(names)| == |multiset(order)| == |order|;
  }

  /**
   * Whatever order the registry map is iterated in, the available list is
   * the same sorted list of exactly the registry's keys.
   */
  lemma AvailableFromAnyOrder(order: seq<string>)
    requires multiset(order) == multiset(RegistryNames)
    ensures SortStrings(order) == AvailableNames()
    ensures Sorted(AvailableNames())
    ensures forall k :: k in AvailableNames() <==> k in Registry()
  {
    SortIgnoresOrder(order, RegistryNames);
    SortStringsCorrect(RegistryNames);
    SameNamesAreKeys(AvailableNames());
  }
}

module CustomStrategies {
  import opened Wrappers

  /** The strategy names the custom command accepts. */
  const Accepted: set<string> := {"all_in", "default_half", "adaptive_eco_v1", "yolo", "scrooge", "adaptive_eco_v2"}

  /** The list its error messages print, as written: `adaptive_eco_v2` is missing. */
  const ListedAsWritten: seq<string> := ["all_in", "default_half", "adaptive_eco_v1", "yolo", "scrooge"]

  /** The list its error messages evidently mean to print: every accepted name. */
  const Listed: seq<string> := ["all_in", "default_half", "adaptive_eco_v1", "yolo", "scrooge", "adaptive_eco_v2"]

  function JoinNames(names: seq<string>): string
  {
    if names == [] then ""
    else if |names| == 1 then names[0]
    else names[0] + ", " + JoinNames(names[1..])
  }

  /** The error for one team's unknown strategy, listing `names`. */
  function UnknownFor(team: string, strategy: string, names: seq<string>): string
  {
    "unknown strategy for team " + team + ": '" + strategy + "'. Available strategies: " + JoinNames(names)
  }

  /** `ValidateStrategies` with the message list a parameter: team 1 is checked first. */
  function ValidateWith(team1Strategy: string, team2Strategy: string, names: seq<string>): (err: Option<string>)
    ensures err.None? <==> team1Strategy in Accepted && team2Strategy in Accepted
    ensures team1Strategy !in Accepted ==> err == Some(UnknownFor("1", team1Strategy, names))
    ensures team1Strategy in Accepted && team2Strategy !in Accepted ==> err == Some(UnknownFor("2", team2Strategy, names))
  {
    if team1Strategy !in Accepted then Some(UnknownFor("1", team1Strategy, names))
    else if team2Strategy !in Accepted then Some(UnknownFor("2", team2Strategy, names))
    else None
  }

  /** `ValidateStrategies` as written. */
  function ValidateStrategiesAsWritten(team1Strategy: string, team2Strategy: string): (err: Option<string>)
    ensures err.None? <==> team1Strategy in Accepted && team2Strategy in Accepted
  {
    ValidateWith(team1Strategy, team2Strategy, ListedAsWritten)
  }

  /** As written, a name the command accepts is missing from the list its errors print. */
  lemma AcceptedButNotListed()
    ensures "adaptive_eco_v2" in Accepted
    ensures "adaptive_eco_v2" !in ListedAsWritten
    ensures ValidateStrategiesAsWritten("adaptive_eco_v2", "adaptive_eco_v2").None?
  {
  }

  /** `ValidateStrategies` with the error list naming every accepted strategy. */
  function ValidateStrategies(team1Strategy: string, team2Strategy: string): (err: Option<string>)
    ensures err.None? <==> team1Strategy in Accepted && team2Strategy in Accepted
    ensures team1Strategy !in Accepted ==> err == Some(UnknownFor("1", team1Strategy, Listed))
    ensures team1Strategy in Accepted && team2Strategy !in Accepted ==> err == Some(UnknownFor("2", team2Strategy, Listed))
  {
    ValidateWith(team1Strategy, team2Strategy, Listed)
  }

  /** The corrected list names exactly the accepted strategies. */
  lemma ListedIsAccepted()
    ensures forall s :: s in Listed <==> s in Accepted
    ensures |Listed| == |Accepted|
  {
    assert Accepted == set s | s in Listed;
  }
}
