// The decision-tree parts of the machine-learning buy strategies: the
// XGBoost node-array walk and tree sum, its feature vector, the recursive
// walk of the single-tree and forest models, and the clamped decisions.
// The sigmoid, model loading and feature normalisation are inputs.

module MlModels {
  import opened Wrappers
  import opened Reals
  import Strategies

  // ----------------------------------------------------------------- XGBoost

  /** One XGBoost tree in node-array form; node 0 is the root and -1 marks a missing child. */
  datatype XgbTree = XgbTree(
    baseWeights: seq<real>,
    leftChildren: seq<int>,
    rightChildren: seq<int>,
    splitConditions: seq<real>,
    splitIndices: seq<int>)

  /**
   * A tree the walk can run on: all arrays as long as the node count, at
   * least the root, and every child either missing or a later node, which
   * rules out cycles.
   */
  predicate ValidXgbTree(t: XgbTree)
  {
    var n := |t.baseWeights|;
    && n > 0
    && |t.leftChildren| == n && |t.rightChildren| == n
    && |t.splitConditions| == n && |t.splitIndices| == n
    && (forall i :: 0 <= i < n ==> t.leftChildren[i] == -1 || i < t.leftChildren[i] < n)
    && (forall i :: 0 <= i < n ==> t.rightChildren[i] == -1 || i < t.rightChildren[i] < n)
  }

  /**
   * One step of `predictTree`: -1 when the walk stops at `node` (a leaf, a
   * split index outside the features, or a missing child on the chosen
   * side), otherwise the left child when the feature is below the split
   * condition and the right child when it is not.
   */
  function NextNode(t: XgbTree, features: seq<real>, node: int): (next: int)
    requires ValidXgbTree(t) && 0 <= node < |t.baseWeights|
    ensures next == -1 || node < next < |t.baseWeights|
    ensures next != -1 ==> 0 <= t.splitIndices[node] < |features|
    ensures next != -1 && features[t.splitIndices[node]] < t.splitConditions[node] ==> next == t.leftChildren[node]
    ensures next != -1 && features[t.splitIndices[node]] >= t.splitConditions[node] ==> next == t.rightChildren[node]
  {
    if t.leftChildren[node] == -1 && t.rightChildren[node] == -1 then -1
    else if t.splitIndices[node] < 0 || t.splitIndices[node] >= |features| then -1
    else if features[t.splitIndices[node]] < t.splitConditions[node] then t.leftChildren[node]
    else t.rightChildren[node]
  }

  /** The node where the walk from `node` stops. */
  function Reached(t: XgbTree, features: seq<real>, node: int): (r: int)
    requires ValidXgbTree(t) && 0 <= node < |t.baseWeights|
    ensures node <= r < |t.baseWeights|
    decreases |t.baseWeights| - node
  {
    var next := NextNode(t, features, node);
    if next == -1 then node else Reached(t, features, next)
  }

  /** The walk only stops where no further step is taken. */
  lemma {:induction false} ReachedStops(t: XgbTree, features: seq<real>, node: int)
    requires ValidXgbTree(t) && 0 <= node < |t.baseWeights|
    ensures NextNode(t, features, Reached(t, features, node)) == -1
    decreases |t.baseWeights| - node
  {
    var next := NextNode(t, features, node);
    if next != -1 {
      ReachedStops(t, features, next);
    }
  }

  /** `predictTree`: walks from the root and returns the base weight of the node it stops at. */
  method PredictXgbTree(t: XgbTree, features: seq<real>) returns (w: real)
    requires ValidXgbTree(t)
    ensures w == t.baseWeights[Reached(t, features, 0)]
  {
    var node := 0;
    while true
      invariant 0 <= node < |t.baseWeights|
      invariant Reached(t, features, node) == Reached(t, features, 0)
      decreases |t.baseWeights| - node
    {
      if t.leftChildren[node] == -1 && t.rightChildren[node] == -1 {
        return t.baseWeights[node];
      }
      var splitIndex := t.splitIndices[node];
      if splitIndex < 0 || splitIndex >= |features| {
        return t.baseWeights[node];
      }
      var next;
      if features[splitIndex] < t.splitConditions[node] {
        next := t.leftChildren[node];
      } else {
        next := t.rightChildren[node];
      }
      if next == -1 {
        return t.baseWeights[node];
      }
      node := next;
    }
  }

  const XgbBaseScore: real := 0.5062822746

  predicate AllValid(trees: seq<XgbTree>)
  {
    forall i :: 0 <= i < |trees| ==> ValidXgbTree(trees[i])
  }

  /** The sum of the leaf values of the first `k` trees. */
  function LeafSum(trees: seq<XgbTree>, features: seq<real>, k: int): real
    requires AllValid(trees) && 0 <= k <= |trees|
  {
    if k == 0 then 0.0
    else LeafSum(trees, features, k - 1) + trees[k - 1].baseWeights[Reached(trees[k - 1], features, 0)]
  }

  /** `predict` before the sigmoid: the base score plus the leaf value of every tree. */
  method XgbMargin(trees: seq<XgbTree>, features: seq<real>) returns (margin: real)
    requires AllValid(trees)
    ensures margin == XgbBaseScore + LeafSum(trees, features, |trees|)
  {
    margin := XgbBaseScore;
    var i := 0;
    while i < |trees|
      invariant 0 <= i <= |trees|
      invariant margin == XgbBaseScore + LeafSum(trees, features, i)
    {
      var w := PredictXgbTree(trees[i], features);
      margin := margin + w;
      i := i + 1;
    }
  }

  /** Every base weight of every tree lies in [lo, hi]. */
  predicate WeightsWithin(trees: seq<XgbTree>, lo: real, hi: real)
  {
    forall i, j :: 0 <= i < |trees| && 0 <= j < |trees[i].baseWeights| ==> lo <= trees[i].baseWeights[j] <= hi
  }

  /** With every weight in [lo, hi], the leaf sum of k trees lies in [k·lo, k·hi]. */
  lemma {:induction false} LeafSumBounds(trees: seq<XgbTree>, features: seq<real>, k: int, lo: real, hi: real)
    requires AllValid(trees) && 0 <= k <= |trees| && WeightsWithin(trees, lo, hi)
    ensures k as real * lo <= LeafSum(trees, features, k) <= k as real * hi
  {
    if k > 0 {
      LeafSumBounds(trees, features, k - 1, lo, hi);
      var t := trees[k - 1];
      TreeWithin(trees, k - 1, lo, hi);
      LeafWithin(t, features, lo, hi);
      var prev, w := LeafSum(trees, features, k - 1), t.baseWeights[Reached(t, features, 0)];
      assert LeafSum(trees, features, k) == prev + w;
      AddBounds(k, prev, w, lo, hi);
    }
  }

  lemma AddBounds(k: int, prev: real, w: real, lo: real, hi: real)
    requires (k - 1) as real * lo <= prev <= (k - 1) as real * hi && lo <= w <= hi
    ensures k as real * lo <= prev + w <= k as real * hi
  {
    ScaleStep(k, lo);
    ScaleStep(k, hi);
  }

  lemma TreeWithin(trees: seq<XgbTree>, i: int, lo: real, hi: real)
    requires AllValid(trees) && WeightsWithin(trees, lo, hi) && 0 <= i < |trees|
    ensures ValidXgbTree(trees[i])
    ensures forall j :: 0 <= j < |trees[i].baseWeights| ==> lo <= trees[i].baseWeights[j] <= hi
  {
  }

  lemma LeafWithin(t: XgbTree, features: seq<real>, lo: real, hi: real)
    requires ValidXgbTree(t) && |t.baseWeights| > 0
    requires forall j :: 0 <= j < |t.baseWeights| ==> lo <= t.baseWeights[j] <= hi
    ensures lo <= t.baseWeights[Reached(t, features, 0)] <= hi
  {
  }

  lemma ScaleStep(k: int, x: real)
    ensures k as real * x == (k - 1) as real * x + x
  {
  }

  /**
   * `prepareInput`: the CT score, T score, their difference, the CT and T
   * equipment and the CT and T money, with the team's own values in the CT
   * slots when it plays CT and in the T slots otherwise.
   */
  function XgbFeatures(ctx: Strategies.StrategyContext): (f: seq<real>)
    ensures |f| == 7
    ensures f[2] == f[0] - f[1]
    ensures ctx.side ==> f[0] == ctx.ownScore as real && f[5] == ctx.funds && f[3] == ctx.equipment
    ensures !ctx.side ==> f[1] == ctx.ownScore as real && f[6] == ctx.funds && f[4] == ctx.equipment
  {
    var ctScore := if ctx.side then ctx.ownScore else ctx.opponentScore;
    var tScore := if ctx.side then ctx.opponentScore else ctx.ownScore;
    var ctFunds := if ctx.side then ctx.funds else ctx.fundsOpponent;
    var tFunds := if ctx.side then ctx.fundsOpponent else ctx.funds;
    var ctEquipment := if ctx.side then ctx.equipment else ctx.startEquipmentOpponent;
    var tEquipment := if ctx.side then ctx.startEquipmentOpponent else ctx.equipment;
    [ctScore as real, tScore as real, (ctScore - tScore) as real, ctEquipment, tEquipment, ctFunds, tFunds]
  }

  /** The two teams of one round, each seen from its own side, produce the same feature vector. */
  lemma XgbFeaturesAgreeAcrossTeams(ctx: Strategies.StrategyContext, other: Strategies.StrategyContext)
    requires other.side == !ctx.side
    requires other.ownScore == ctx.opponentScore && other.opponentScore == ctx.ownScore
    requires other.funds == ctx.fundsOpponent && other.fundsOpponent == ctx.funds
    requires other.equipment == ctx.startEquipmentOpponent && other.startEquipmentOpponent == ctx.equipment
    ensures XgbFeatures(ctx) == XgbFeatures(other)
  {
  }

  /** The spending share from a model prediction: the prediction clamped to [0, 1]. */
  function ClampedShare(prediction: real): (k: real)
    ensures 0.0 <= k <= 1.0
    ensures 0.0 <= prediction <= 1.0 ==> k == prediction
  {
    Clamp(prediction, 0.0, 1.0)
  }

  /**
   * `InvestDecisionMaking_ml_xgboost` with the sigmoid of the margin as
   * `probability`. A model that failed to load is ignored by the code and
   * its prediction dereferences nil: `None`.
   */
  function XgbInvest(loaded: bool, funds: real, probability: real): (r: Option<real>)
    ensures r.None? <==> !loaded
    ensures r.Some? && funds >= 0.0 ==> 0.0 <= r.value <= funds
    ensures r.Some? && 0.0 <= probability <= 1.0 ==> r.value == funds * probability
  {
    if !loaded then None
    else
      var share := ClampedShare(probability);
      ScaleWithin(funds, share);
      Some(funds * share)
  }

  // ---------------------------------------------------------- ml_tree/forest

  /** A decision-tree node of the single-tree and forest models; `Nil` is a missing child. */
  datatype TreeNode =
    | Nil
    | Node(isLeaf: bool, feature: string, threshold: real, value: real, left: TreeNode, right: TreeNode)

  /** A feature the map does not hold reads as 0. */
  function FeatureValue(features: map<string, real>, name: string): (v: real)
    ensures name !in features ==> v == 0.0
    ensures name in features ==> v == features[name]
  {
    if name in features then features[name] else 0.0
  }

  /** The values of the leaves of a tree. */
  function LeafValues(node: TreeNode): set<real>
  {
    match node
    case Nil => {}
    case Node(isLeaf, _, _, value, left, right) =>
      if isLeaf then {value} else LeafValues(left) + LeafValues(right)
  }

  /**
   * `predict` of the single-tree model and `predictTree` of the forest: the
   * value at a leaf, otherwise the left subtree when the feature is below
   * the threshold and the right one when it is not. Reaching a missing
   * child dereferences nil: `None`.
   */
  function PredictNode(features: map<string, real>, node: TreeNode): (r: Option<real>)
    ensures node.Node? && node.isLeaf ==> r == Some(node.value)
    ensures node.Nil? ==> r.None?
  {
    match node
    case Nil => None
    case Node(isLeaf, feature, threshold, value, left, right) =>
      if isLeaf then Some(value)
      else if FeatureValue(features, feature) < threshold then PredictNode(features, left)
      else PredictNode(features, right)
  }

  /** Every prediction is the value of one of the tree's leaves. */
  lemma {:induction false} PredictionIsLeafValue(features: map<string, real>, node: TreeNode)
    requires PredictNode(features, node).Some?
    ensures PredictNode(features, node).value in LeafValues(node)
  {
    match node
    case Node(isLeaf, feature, threshold, value, left, right) =>
      if !isLeaf {
        if FeatureValue(features, feature) < threshold {
          PredictionIsLeafValue(features, left);
        } else {
          PredictionIsLeafValue(features, right);
        }
      }
  }

  /** Adding a feature explicitly set to 0 never changes a prediction. */
  lemma {:induction false} MissingFeatureIsZero(features: map<string, real>, name: string, node: TreeNode)
    requires name !in features
    ensures PredictNode(features[name := 0.0], node) == PredictNode(features, node)
  {
    match node
    case Nil =>
    case Node(isLeaf, feature, threshold, value, left, right) =>
      assert FeatureValue(features[name := 0.0], feature) == FeatureValue(features, feature);
      MissingFeatureIsZero(features, name, left);
      MissingFeatureIsZero(features, name, right);
  }

  /** The funds times a prediction clamped to [0, 1]: between 0 and non-negative funds. */
  function SpendShare(funds: real, prediction: real): (r: real)
    ensures r == funds * Clamp(prediction, 0.0, 1.0)
    ensures funds >= 0.0 ==> 0.0 <= r <= funds
  {
    var share := ClampedShare(prediction);
    ScaleWithin(funds, share);
    funds * share
  }

  /**
   * `InvestDecisionMaking_ml_tree`: when the model did not load, the
   * fallback strategy's amount (`fallback`); otherwise the funds times the
   * clamped prediction, `None` when the walk hits a missing child.
   */
  function TreeInvest(model: Option<TreeNode>, features: map<string, real>, funds: real, fallback: real): (r: Option<real>)
    ensures model.None? ==> r == Some(fallback)
    ensures model.Some? ==> (r.None? <==> PredictNode(features, model.value).None?)
    ensures model.Some? && r.Some? && funds >= 0.0 ==> 0.0 <= r.value <= funds
    ensures model.Some? && PredictNode(features, model.value).Some? ==>
              r == Some(funds * Clamp(PredictNode(features, model.value).value, 0.0, 1.0))
  {
    match model
    case None => Some(fallback)
    case Some(root) =>
      match PredictNode(features, root)
      case None => None
      case Some(p) =>
        var amount := SpendShare(funds, p);
        assert amount == funds * Clamp(p, 0.0, 1.0);
        Some(amount)
  }

  /**
   * The forest's running total over its first `k` trees, `None` as soon as
   * one of them dereferences a missing child.
   */
  function ForestSum(trees: seq<TreeNode>, features: map<string, real>, k: int): Option<real>
    requires 0 <= k <= |trees|
  {
    if k == 0 then Some(0.0)
    else match ForestSum(trees, features, k - 1)
      case None => None
      case Some(s) =>
        match PredictNode(features, trees[k - 1])
        case None => None
        case Some(p) => Some(s + p)
  }

  /** The forest's `predict`: the mean of the tree predictions; `None` without trees, where Go divides 0 by 0. */
  function ForestMean(trees: seq<TreeNode>, features: map<string, real>): Option<real>
  {
    if |trees| == 0 then None
    else match ForestSum(trees, features, |trees|)
      case None => None
      case Some(s) => Some(s / |trees| as real)
  }

  /** The forest's `predict` as its loop computes it. */
  method ForestPredict(trees: seq<TreeNode>, features: map<string, real>) returns (r: Option<real>)
    ensures r == ForestMean(trees, features)
  {
    var sum := 0.0;
    var i := 0;
    while i < |trees|
      invariant 0 <= i <= |trees|
      invariant ForestSum(trees, features, i) == Some(sum)
    {
      var p := PredictNode(features, trees[i]);
      if p.None? {
        NoneStaysNone(trees, features, i + 1);
        return None;
      }
      sum := sum + p.value;
      i := i + 1;
    }
    if |trees| == 0 {
      return None;
    }
    r := Some(sum / |trees| as real);
  }

  /** Once a tree fails, every longer running total fails. */
  lemma {:induction false} NoneStaysNone(trees: seq<TreeNode>, features: map<string, real>, k: int)
    requires 0 < k <= |trees| && PredictNode(features, trees[k - 1]).None?
    ensures forall j :: k <= j <= |trees| ==> ForestSum(trees, features, j).None?
  {
    forall j | k <= j <= |trees|
      ensures ForestSum(trees, features, j).None?
    {
      NoneFrom(trees, features, k, j);
    }
  }

  lemma {:induction false} NoneFrom(trees: seq<TreeNode>, features: map<string, real>, k: int, j: int)
    requires 0 < k <= j <= |trees| && PredictNode(features, trees[k - 1]).None?
    ensures ForestSum(trees, features, j).None?
    decreases j
  {
    if j > k {
      NoneFrom(trees, features, k, j - 1);
    }
  }

  /** When every tree predicts v, the running total of k trees is k·v. */
  lemma {:induction false} UniformForestSum(trees: seq<TreeNode>, features: map<string, real>, v: real, k: int)
    requires 0 <= k <= |trees|
    requires forall i :: 0 <= i < |trees| ==> PredictNode(features, trees[i]) == Some(v)
    ensures ForestSum(trees, features, k).Some? && ForestSum(trees, features, k).value == k as real * v
  {
    if k > 0 {
      UniformForestSum(trees, features, v, k - 1);
      assert PredictNode(features, trees[k - 1]) == Some(v);
      assert (k - 1) as real * v + v == k as real * v;
    }
  }

  /** When every tree predicts v, the forest predicts v. */
  lemma UniformForestMean(trees: seq<TreeNode>, features: map<string, real>, v: real)
    requires |trees| > 0
    requires forall i :: 0 <= i < |trees| ==> PredictNode(features, trees[i]) == Some(v)
    ensures ForestMean(trees, features) == Some(v)
  {
    UniformForestSum(trees, features, v, |trees|);
    assert |trees| as real * v / |trees| as real == v;
  }

  /**
   * `InvestDecisionMaking_ml_forest`: the fallback strategy's amount when the
   * model did not load, otherwise the funds times the clamped mean.
   */
  function ForestInvest(model: Option<seq<TreeNode>>, features: map<string, real>, funds: real, fallback: real): (r: Option<real>)
    ensures model.None? ==> r == Some(fallback)
    ensures model.Some? ==> (r.None? <==> ForestMean(model.value, features).None?)
    ensures model.Some? && r.Some? && funds >= 0.0 ==> 0.0 <= r.value <= funds
    ensures model.Some? && ForestMean(model.value, features).Some? ==>
              r == Some(funds * Clamp(ForestMean(model.value, features).value, 0.0, 1.0))
  {
    match model
    case None => Some(fallback)
    case Some(trees) =>
      match ForestMean(trees, features)
      case None => None
      case Some(p) =>
        var amount := SpendShare(funds, p);
        assert amount == funds * Clamp(p, 0.0, 1.0);
        Some(amount)
  }
}
