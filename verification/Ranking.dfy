/**
 Ranking the training plans of a recommendation: scores from risk, cost, time, cluster size, intent
 and warm supply, a stable sort, and the split into ranked plans and single-GPU fallbacks.
 A plan is named by its position in the list of plans.
 */
module Ranking {
  import opened Rounding

  datatype Objective = SUCCESS_RATE | LOWEST_COST | FASTEST | SMALLEST_CLUSTER
  datatype FitRisk = SAFE | MODERATE | TIGHT | NO_FIT

  datatype Plan = Plan(
    fitRisk: FitRisk,
    costUsdLow: real, costUsdHigh: real,
    timeHoursLow: real, timeHoursHigh: real,
    gpuCount: nat,
    warmCount: nat,
    promptIntentMatch: bool)

  datatype Weights = Weights(risk: real, cost: real, time: real, cluster: real, distributedMismatch: real)

  function Round2(n: real): real {
    RoundHalfUp(n * 100.0) as real / 100.0
  }

  function FitRiskFromMargin(fitMarginGb: real): FitRisk {
    if fitMarginGb < 0.0 then NO_FIT
    else if fitMarginGb <= 0.5 then TIGHT
    else if fitMarginGb <= 5.0 then MODERATE
    else SAFE
  }

  function ObjectiveWeights(o: Objective): Weights {
    match o
    case LOWEST_COST => Weights(1.6, 4.5, 1.2, 0.8, 0.4)
    case FASTEST => Weights(1.6, 1.2, 4.5, 0.8, 0.4)
    case SMALLEST_CLUSTER => Weights(1.6, 1.0, 1.0, 5.0, 0.4)
    case SUCCESS_RATE => Weights(4.5, 1.5, 1.4, 0.8, 3.5)
  }

  function AllowedRisks(o: Objective): set<FitRisk> {
    if o == SUCCESS_RATE then {SAFE} else {SAFE, MODERATE}
  }

  function RiskComponent(r: FitRisk): real {
    match r
    case NO_FIT => 10.0
    case TIGHT => 8.5
    case MODERATE => 4.0
    case SAFE => 0.5
  }

  function CostMid(p: Plan): real {
    (p.costUsdLow + p.costUsdHigh) / 2.0
  }

  function TimeMid(p: Plan): real {
    (p.timeHoursLow + p.timeHoursHigh) / 2.0
  }

  function MinOf(xs: seq<real>): real
    requires xs != []
  {
    if |xs| == 1 || xs[0] <= MinOf(xs[1..]) then xs[0] else MinOf(xs[1..])
  }

  function MaxOf(xs: seq<real>): real
    requires xs != []
  {
    if |xs| == 1 || xs[0] >= MaxOf(xs[1..]) then xs[0] else MaxOf(xs[1..])
  }

  function Normalized(x: real, lo: real, hi: real): real {
    if hi == lo then 0.0 else ((x - lo) / (hi - lo)) * 10.0
  }

  /** The spread of the plans of one request. */
  datatype Spread = Spread(costs: seq<real>, times: seq<real>, clusters: seq<real>)

  function SpreadOf(plans: seq<Plan>): Spread {
    Spread(seq(|plans|, i requires 0 <= i < |plans| => CostMid(plans[i])),
           seq(|plans|, i requires 0 <= i < |plans| => TimeMid(plans[i])),
           seq(|plans|, i requires 0 <= i < |plans| => plans[i].gpuCount as real))
  }

  function Among(x: real, xs: seq<real>): real
    requires xs != []
  {
    Normalized(x, MinOf(xs), MaxOf(xs))
  }

  function WeightedTotal(w: Weights, p: Plan, cost: real, time: real, cluster: real, distributed: bool): real {
    RiskComponent(p.fitRisk) * w.risk + cost * w.cost + time * w.time + cluster * w.cluster
    + (if distributed && !p.promptIntentMatch then 10.0 else 0.0) * w.distributedMismatch
    - if p.warmCount > 0 then 0.3 else 0.0
  }

  function TotalWeight(w: Weights, distributed: bool): real {
    w.risk + w.cost + w.time + w.cluster + if distributed then w.distributedMismatch else 0.0
  }

  function Clamped(x: real): real {
    if x < 0.0 then 0.0 else if x > 10.0 then 10.0 else x
  }

  /** `Math.max(1, totalWeight)`. */
  function AtLeastOne(x: real): (r: real)
    ensures r >= 1.0
  {
    if x < 1.0 then 1.0 else x
  }

  function Score(o: Objective, distributed: bool, p: Plan, cost: real, time: real, cluster: real): real {
    var w := ObjectiveWeights(o);
    Round2(Clamped(WeightedTotal(w, p, cost, time, cluster, distributed) / AtLeastOne(TotalWeight(w, distributed))))
  }

  datatype Request = Request(objective: Objective, distributed: bool, showRisky: bool)

  function ScoreOf(r: Request, plans: seq<Plan>, i: nat): real
    requires i < |plans|
  {
    var s := SpreadOf(plans);
    Score(r.objective, r.distributed, plans[i],
          Among(CostMid(plans[i]), s.costs), Among(TimeMid(plans[i]), s.times),
            Among(plans[i].gpuCount as real, s.clusters))
  }

  function Scores(r: Request, plans: seq<Plan>): seq<real> {
    seq(|plans|, i requires 0 <= i < |plans| => ScoreOf(r, plans, i))
  }

  // ---------------------------------------------------------------------------------------------
  // Sort, filter and rank
  // ---------------------------------------------------------------------------------------------

  function Insert(scores: seq<real>, order: seq<nat>, x: nat): seq<nat>
    requires x < |scores| && forall i | 0 <= i < |order| :: order[i] < |scores|
  {
    if order == [] then [x]
    else
      var last := order[|order| - 1];
      if scores[last] <= scores[x] then order + [x] else Insert(scores, order[..|order| - 1], x) + [last]
  }

  /** `sort` by score, which is stable: the positions of the first `n` plans in order. */
  function Sorted(scores: seq<real>, n: nat): (order: seq<nat>)
    requires n <= |scores|
    ensures forall i | 0 <= i < |order| :: order[i] < n
  {
    if n == 0 then []
    else
      InsertMembers(scores, Sorted(scores, n - 1), n - 1);
      Insert(scores, Sorted(scores, n - 1), n - 1)
  }

  function Kept(order: seq<nat>, keep: nat -> bool): seq<nat> {
    if order == [] then []
    else Kept(order[..|order| - 1], keep) + if keep(order[|order| - 1]) then [order[|order| - 1]] else []
  }

  predicate Allowed(r: Request, plans: seq<Plan>, i: nat) {
    i < |plans| && (r.showRisky || plans[i].fitRisk in AllowedRisks(r.objective))
  }

  predicate Matches(r: Request, plans: seq<Plan>, i: nat) {
    i < |plans| && (plans[i].promptIntentMatch || !r.distributed)
  }

  function Order(r: Request, plans: seq<Plan>): seq<nat> {
    Sorted(Scores(r, plans), |plans|)
  }

  function OfAllowedRisk(r: Request, plans: seq<Plan>): seq<nat> {
    Kept(Order(r, plans), (i: nat) => Allowed(r, plans, i))
  }

  /** The plans the answer is made of: those of allowed risk, or all if there are none. */
  function Pool(r: Request, plans: seq<Plan>): seq<nat> {
    if |OfAllowedRisk(r, plans)| > 0 then OfAllowedRisk(r, plans) else Order(r, plans)
  }

  datatype Ranked = Ranked(plan: nat, rank: nat)

  function RankingPool(r: Request, plans: seq<Plan>): seq<nat> {
    Kept(Pool(r, plans), (i: nat) => Matches(r, plans, i))
  }

  function Recommended(r: Request, plans: seq<Plan>): seq<Ranked> {
    var pool := RankingPool(r, plans);
    seq(|pool|, i requires 0 <= i < |pool| => Ranked(pool[i], i + 1))
  }

  function Fallbacks(r: Request, plans: seq<Plan>): seq<nat> {
    Kept(Pool(r, plans), (i: nat) => r.distributed && !Matches(r, plans, i))
  }

  // ---------------------------------------------------------------------------------------------
  // Scores
  // ---------------------------------------------------------------------------------------------

  lemma {:induction false} MinMaxBound(xs: seq<real>, i: nat)
    requires i < |xs|
    ensures MinOf(xs) <= xs[i] <= MaxOf(xs)
  {
    if i > 0 {
      MinMaxBound(xs[1..], i - 1);
    } else if |xs| > 1 {
      MinMaxBound(xs[1..], 0);
    }
  }

  lemma DivideMonotone(x: real, y: real, d: real)
    requires x <= y && d > 0.0
    ensures x / d <= y / d
  {
    assert (y - x) / d >= 0.0;
    assert y / d - x / d == (y - x) / d;
  }

  lemma NormalizedMonotone(x: real, y: real, lo: real, hi: real)
    requires lo <= hi && x <= y
    ensures Normalized(x, lo, hi) <= Normalized(y, lo, hi)
  {
    if lo < hi { DivideMonotone(x - lo, y - lo, hi - lo); }
  }

  lemma AmongMonotone(xs: seq<real>, i: nat, j: nat)
    requires i < |xs| && j < |xs| && xs[i] <= xs[j]
    ensures Among(xs[i], xs) <= Among(xs[j], xs)
  {
    MinMaxBound(xs, i);
    NormalizedMonotone(xs[i], xs[j], MinOf(xs), MaxOf(xs));
  }

  lemma Round2Monotone(x: real, y: real)
    requires x <= y
    ensures Round2(x) <= Round2(y)
  {
    RoundHalfUpMonotone(x * 100.0, y * 100.0);
  }

  /** No worse on any criterion. */
  predicate NoWorse(p: Plan, q: Plan) {
    && RiskComponent(p.fitRisk) <= RiskComponent(q.fitRisk)
    && CostMid(p) <= CostMid(q) && TimeMid(p) <= TimeMid(q) && p.gpuCount <= q.gpuCount
    && (q.promptIntentMatch ==> p.promptIntentMatch) && (q.warmCount > 0 ==> p.warmCount > 0)
  }

  lemma WeightedTotalMonotone(o: Objective, distributed: bool, p: Plan, q: Plan, c: real, t: real, g: real, c': real,
                              t': real, g': real)
    requires NoWorse(p, q) && c <= c' && t <= t' && g <= g'
    ensures WeightedTotal(ObjectiveWeights(o), p, c, t, g, distributed)
         <= WeightedTotal(ObjectiveWeights(o), q, c', t', g', distributed)
  {
  }

  lemma LowerTotalScoresLower(x: real, y: real, d: real)
    requires x <= y && d > 0.0
    ensures Round2(Clamped(x / d)) <= Round2(Clamped(y / d))
  {
    DivideMonotone(x, y, d);
    Round2Monotone(Clamped(x / d), Clamped(y / d));
  }

  lemma ScoreMonotone(o: Objective, distributed: bool, p: Plan, q: Plan, c: real, t: real, g: real, c': real,
                      t': real, g': real)
    requires NoWorse(p, q) && c <= c' && t <= t' && g <= g'
    ensures Score(o, distributed, p, c, t, g) <= Score(o, distributed, q, c', t', g')
  {
    var w := ObjectiveWeights(o);
    var d := AtLeastOne(TotalWeight(w, distributed));
    var x, y := WeightedTotal(w, p, c, t, g, distributed), WeightedTotal(w, q, c', t', g', distributed);
    WeightedTotalMonotone(o, distributed, p, q, c, t, g, c', t', g');
    LowerTotalScoresLower(x, y, d);
  }

  /** A plan that is no worse than another scores no higher. */
  lemma DominanceLowersScore(r: Request, plans: seq<Plan>, i: nat, j: nat)
    requires i < |plans| && j < |plans| && NoWorse(plans[i], plans[j])
    ensures ScoreOf(r, plans, i) <= ScoreOf(r, plans, j)
  {
    var s := SpreadOf(plans);
    AmongMonotone(s.costs, i, j);
    AmongMonotone(s.times, i, j);
    AmongMonotone(s.clusters, i, j);
    ScoreMonotone(r.objective, r.distributed, plans[i], plans[j],
                  Among(s.costs[i], s.costs), Among(s.times[i], s.times), Among(s.clusters[i], s.clusters),
                  Among(s.costs[j], s.costs), Among(s.times[j], s.times), Among(s.clusters[j], s.clusters));
  }

  /** Scores lie between 0 and 10. */
  lemma ScoreInRange(o: Objective, distributed: bool, p: Plan, cost: real, time: real, cluster: real)
    ensures 0.0 <= Score(o, distributed, p, cost, time, cluster) <= 10.0
  {
    var w := ObjectiveWeights(o);
    var mean := WeightedTotal(w, p, cost, time, cluster, distributed) / AtLeastOne(TotalWeight(w, distributed));
    var total := Clamped(mean);
    Round2Monotone(0.0, total);
    Round2Monotone(total, 10.0);
    assert Round2(0.0) == 0.0 && Round2(10.0) == 10.0;
  }

  // What an objective prefers.

  /** The four criteria of a plan, each from 0, the best of the request, to 10. */
  datatype Criteria = Criteria(risk: real, cost: real, time: real, cluster: real)

  function CriteriaOf(plans: seq<Plan>, i: nat): Criteria
    requires i < |plans|
  {
    var s := SpreadOf(plans);
    Criteria(RiskComponent(plans[i].fitRisk), Among(CostMid(plans[i]), s.costs), Among(TimeMid(plans[i]), s.times),
             Among(plans[i].gpuCount as real, s.clusters))
  }

  /** The criterion an objective is named after. */
  function Leading(o: Objective, c: Criteria): real {
    match o
    case SUCCESS_RATE => c.risk
    case LOWEST_COST => c.cost
    case FASTEST => c.time
    case SMALLEST_CLUSTER => c.cluster
  }

  function WeightedSum(w: Weights, c: Criteria): real {
    c.risk * w.risk + c.cost * w.cost + c.time * w.time + c.cluster * w.cluster
  }

  lemma LeadingOutweighs(o: Objective, a: Criteria, b: Criteria, d: real)
    requires d >= 0.0 && Leading(o, a) + d <= Leading(o, b)
    requires a.risk <= b.risk + d && a.cost <= b.cost + d && a.time <= b.time + d && a.cluster <= b.cluster + d
    ensures WeightedSum(ObjectiveWeights(o), a) <= WeightedSum(ObjectiveWeights(o), b)
  {
    match o
    case SUCCESS_RATE =>
    case LOWEST_COST =>
    case FASTEST =>
    case SMALLEST_CLUSTER =>
  }

  lemma TotalBySum(o: Objective, distributed: bool, p: Plan, c: Criteria)
    requires c.risk == RiskComponent(p.fitRisk)
    ensures WeightedTotal(ObjectiveWeights(o), p, c.cost, c.time, c.cluster, distributed)
         == WeightedSum(ObjectiveWeights(o), c)
            + (if distributed && !p.promptIntentMatch then 10.0 * ObjectiveWeights(o).distributedMismatch else 0.0)
            - if p.warmCount > 0 then 0.3 else 0.0
  {
  }

  /** The criterion an objective is named after outweighs all the others together: a plan that is better by
      `d` on it scores no higher even if it is worse by as much on each of the other three. */
  lemma ObjectiveLeads(r: Request, plans: seq<Plan>, i: nat, j: nat, d: real)
    requires i < |plans| && j < |plans| && d >= 0.0
    requires Leading(r.objective, CriteriaOf(plans, i)) + d <= Leading(r.objective, CriteriaOf(plans, j))
    requires var a, b := CriteriaOf(plans, i), CriteriaOf(plans, j);
             a.risk <= b.risk + d && a.cost <= b.cost + d && a.time <= b.time + d && a.cluster <= b.cluster + d
    requires (plans[j].promptIntentMatch ==> plans[i].promptIntentMatch)
             && (plans[j].warmCount > 0 ==> plans[i].warmCount > 0)
    ensures ScoreOf(r, plans, i) <= ScoreOf(r, plans, j)
  {
    var a, b := CriteriaOf(plans, i), CriteriaOf(plans, j);
    var w := ObjectiveWeights(r.objective);
    var x := WeightedTotal(w, plans[i], a.cost, a.time, a.cluster, r.distributed);
    var y := WeightedTotal(w, plans[j], b.cost, b.time, b.cluster, r.distributed);
    LeadingOutweighs(r.objective, a, b, d);
    TotalBySum(r.objective, r.distributed, plans[i], a);
    TotalBySum(r.objective, r.distributed, plans[j], b);
    LowerTotalScoresLower(x, y, AtLeastOne(TotalWeight(w, r.distributed)));
  }

  /** The exact rates at which an objective trades criteria, in tenths of a point: what one plan's total
      exceeds another's by. */
  lemma TradeOffs(o: Objective, distributed: bool, p: Plan, q: Plan, c: real, t: real, g: real, c': real, t': real,
                  g': real)
    ensures var risk := RiskComponent(p.fitRisk) - RiskComponent(q.fitRisk);
            var warm := (if p.warmCount > 0 then 3.0 else 0.0) - (if q.warmCount > 0 then 3.0 else 0.0);
            var miss := if !distributed || p.promptIntentMatch == q.promptIntentMatch then 0.0
                        else if q.promptIntentMatch then 10.0 else -10.0;
            10.0 * (WeightedTotal(ObjectiveWeights(o), p, c, t, g, distributed)
                    - WeightedTotal(ObjectiveWeights(o), q, c', t', g', distributed)) + warm ==
            match o
            case SUCCESS_RATE => 45.0 * risk + 15.0 * (c - c') + 14.0 * (t - t') + 8.0 * (g - g') + 35.0 * miss
            case LOWEST_COST => 16.0 * risk + 45.0 * (c - c') + 12.0 * (t - t') + 8.0 * (g - g') + 4.0 * miss
            case FASTEST => 16.0 * risk + 12.0 * (c - c') + 45.0 * (t - t') + 8.0 * (g - g') + 4.0 * miss
            case SMALLEST_CLUSTER => 16.0 * risk + 10.0 * (c - c') + 10.0 * (t - t') + 50.0 * (g - g') + 4.0 * miss
  {
  }

  /** The score is a mean: a plan that is worst on everything scores exactly 10. */
  lemma WorstScoresTen(o: Objective, distributed: bool, p: Plan)
    requires p.fitRisk == NO_FIT && p.warmCount == 0 && !p.promptIntentMatch
    ensures Score(o, distributed, p, 10.0, 10.0, 10.0) == 10.0
  {
    var w := ObjectiveWeights(o);
    assert WeightedTotal(w, p, 10.0, 10.0, 10.0, distributed) == 10.0 * TotalWeight(w, distributed);
    assert Round2(10.0) == 10.0;
  }

  /** The risk a plan counts with, by the gigabytes of memory it has to spare. */
  lemma RiskOfMargin(fitMarginGb: real)
    ensures RiskComponent(FitRiskFromMargin(fitMarginGb))
         == if fitMarginGb > 5.0 then 0.5 else if fitMarginGb > 0.5 then 4.0 else if fitMarginGb >= 0.0 then 8.5
           else 10.0
  {
  }

  /** More memory to spare is never a higher risk. */
  lemma MarginLowersRisk(a: real, b: real)
    requires a <= b
    ensures RiskComponent(FitRiskFromMargin(b)) <= RiskComponent(FitRiskFromMargin(a))
  {
  }

  // ---------------------------------------------------------------------------------------------
  // Order
  // ---------------------------------------------------------------------------------------------

  predicate Before(scores: seq<real>, a: nat, b: nat) {
    a < |scores| && b < |scores| && (scores[a] < scores[b] || (scores[a] == scores[b] && a < b))
  }

  predicate InOrder(scores: seq<real>, order: seq<nat>) {
    forall i, j | 0 <= i < j < |order| :: Before(scores, order[i], order[j])
  }

  lemma {:induction false} InsertMembers(scores: seq<real>, order: seq<nat>, x: nat)
    requires x < |scores| && forall i | 0 <= i < |order| :: order[i] < |scores|
    ensures multiset(Insert(scores, order, x)) == multiset(order) + multiset{x}
    ensures forall i | 0 <= i < |Insert(scores, order, x)| ::
            Insert(scores, order, x)[i] == x || Insert(scores, order, x)[i] in order
  {
    if order != [] {
      var init := order[..|order| - 1];
      assert order == init + [order[|order| - 1]];
      if scores[order[|order| - 1]] > scores[x] { InsertMembers(scores, init, x); }
    }
  }

  lemma {:induction false} InsertOrdered(scores: seq<real>, order: seq<nat>, x: nat)
    requires x < |scores| && InOrder(scores, order) && forall i | 0 <= i < |order| :: order[i] < x
    ensures InOrder(scores, Insert(scores, order, x))
  {
    if order != [] {
      var init := order[..|order| - 1];
      var last := order[|order| - 1];
      if scores[last] <= scores[x] {
        forall i | 0 <= i < |order| ensures Before(scores, order[i], x) {
          if i < |order| - 1 { assert Before(scores, order[i], last); }
        }
      } else {
        InsertOrdered(scores, init, x);
        InsertMembers(scores, init, x);
        var placed := Insert(scores, init, x);
        forall i | 0 <= i < |placed| ensures Before(scores, placed[i], last) {
          if placed[i] != x {
            var k :| 0 <= k < |init| && init[k] == placed[i];
            assert Before(scores, order[k], last);
          }
        }
      }
    }
  }

  function UpTo(n: nat): multiset<nat> {
    if n == 0 then multiset{} else UpTo(n - 1) + multiset{n - 1}
  }

  /** The sort puts every plan once, by score, and plans of equal score in their original order. */
  lemma {:induction false} SortedIsStableSort(scores: seq<real>, n: nat)
    requires n <= |scores|
    ensures InOrder(scores, Sorted(scores, n)) && multiset(Sorted(scores, n)) == UpTo(n)
  {
    if n > 0 {
      var before := Sorted(scores, n - 1);
      SortedIsStableSort(scores, n - 1);
      InsertOrdered(scores, before, n - 1);
      InsertMembers(scores, before, n - 1);
      assert Sorted(scores, n) == Insert(scores, before, n - 1);
    }
  }

  lemma {:induction false} UpToHolds(n: nat, i: nat)
    ensures UpTo(n)[i] == if i < n then 1 else 0
  {
    if n > 0 { UpToHolds(n - 1, i); }
  }

  lemma {:induction false} KeptMembers(order: seq<nat>, keep: nat -> bool)
    ensures forall x :: x in Kept(order, keep) <==> x in order && keep(x)
  {
    if order != [] {
      KeptMembers(order[..|order| - 1], keep);
      assert order == order[..|order| - 1] + [order[|order| - 1]];
    }
  }

  lemma {:induction false} KeptInOrder(scores: seq<real>, order: seq<nat>, keep: nat -> bool)
    requires InOrder(scores, order)
    ensures InOrder(scores, Kept(order, keep))
  {
    if order != [] {
      var init, last := order[..|order| - 1], order[|order| - 1];
      KeptInOrder(scores, init, keep);
      KeptMembers(init, keep);
      forall i | 0 <= i < |Kept(init, keep)| ensures Before(scores, Kept(init, keep)[i], last) {
        assert Kept(init, keep)[i] in init;
        var k :| 0 <= k < |init| && init[k] == Kept(init, keep)[i];
        assert Before(scores, order[k], last);
      }
    }
  }

  lemma {:induction false} KeptSplits(order: seq<nat>, keep: nat -> bool, rest: nat -> bool)
    requires forall x | x in order :: rest(x) == !keep(x)
    ensures multiset(Kept(order, keep)) + multiset(Kept(order, rest)) == multiset(order)
  {
    if order != [] {
      var init, last := order[..|order| - 1], order[|order| - 1];
      assert order == init + [last];
      KeptSplits(init, keep, rest);
    }
  }

  // ---------------------------------------------------------------------------------------------
  // Main results
  // ---------------------------------------------------------------------------------------------

  lemma OrderHasAll(r: Request, plans: seq<Plan>)
    ensures InOrder(Scores(r, plans), Order(r, plans))
    ensures forall i: nat :: i in Order(r, plans) <==> i < |plans|
  {
    SortedIsStableSort(Scores(r, plans), |plans|);
    forall i: nat ensures i in Order(r, plans) <==> i < |plans| {
      UpToHolds(|plans|, i);
      assert i in Order(r, plans) <==> multiset(Order(r, plans))[i] > 0;
    }
  }

  lemma PoolIsOrdered(r: Request, plans: seq<Plan>)
    ensures InOrder(Scores(r, plans), Pool(r, plans)) && InOrder(Scores(r, plans), RankingPool(r, plans))
  {
    OrderHasAll(r, plans);
    KeptInOrder(Scores(r, plans), Order(r, plans), (i: nat) => Allowed(r, plans, i));
    KeptInOrder(Scores(r, plans), Pool(r, plans), (i: nat) => Matches(r, plans, i));
  }

  /** A risk the answer may show: any if risky plans are asked for, SAFE always, and MODERATE unless the
      objective is the success rate. */
  predicate MayShow(r: Request, p: Plan) {
    r.showRisky || p.fitRisk == SAFE || (p.fitRisk == MODERATE && r.objective != SUCCESS_RATE)
  }

  lemma AllowedKept(r: Request, plans: seq<Plan>)
    ensures forall i: nat :: i in OfAllowedRisk(r, plans) <==> i < |plans| && MayShow(r, plans[i])
  {
    OrderHasAll(r, plans);
    KeptMembers(Order(r, plans), (i: nat) => Allowed(r, plans, i));
  }

  /** The answer is made of exactly the plans whose risk may be shown, or of all if there are none. */
  lemma PoolIff(r: Request, plans: seq<Plan>, i: nat)
    ensures i in Pool(r, plans)
       <==> i < |plans| && (MayShow(r, plans[i]) || forall k | 0 <= k < |plans| :: !MayShow(r, plans[k]))
  {
    AllowedKept(r, plans);
    OrderHasAll(r, plans);
    var allowed := OfAllowedRisk(r, plans);
    if |allowed| > 0 {
      assert allowed[0] in allowed;
    } else {
      forall k: nat | k < |plans| ensures !MayShow(r, plans[k]) { assert k !in allowed; }
    }
  }

  /** Of these a plan is ranked exactly if it also suits the intent of a request for distributed training,
      and a fallback otherwise. */
  lemma RankedIff(r: Request, plans: seq<Plan>, i: nat)
    requires i in Pool(r, plans)
    ensures i < |plans|
    ensures i in RankingPool(r, plans) <==> (r.distributed ==> plans[i].promptIntentMatch)
    ensures i in Fallbacks(r, plans) <==> r.distributed && !plans[i].promptIntentMatch
  {
    PoolIff(r, plans, i);
    KeptMembers(Pool(r, plans), (k: nat) => Matches(r, plans, k));
    KeptMembers(Pool(r, plans), (k: nat) => r.distributed && !Matches(r, plans, k));
  }

  /** The filters never drop a plan and keep a worse one. */
  lemma FiltersKeepTheBetter(r: Request, plans: seq<Plan>, i: nat, j: nat)
    requires i < |plans| && j < |plans| && NoWorse(plans[i], plans[j]) && j in RankingPool(r, plans)
    ensures i in RankingPool(r, plans)
  {
    OrderHasAll(r, plans);
    KeptMembers(Order(r, plans), (k: nat) => Allowed(r, plans, k));
    KeptMembers(Pool(r, plans), (k: nat) => Matches(r, plans, k));
    assert Allowed(r, plans, j) ==> Allowed(r, plans, i);
  }

  /** If plan `j` is ranked, so is every plan `i` that is no worse, and before it; only at equal scores
      is it their original order that counts. */
  lemma RankingRespectsDominance(r: Request, plans: seq<Plan>, i: nat, j: nat, rj: nat)
    requires i < |plans| && j < |plans| && i != j && NoWorse(plans[i], plans[j])
    requires rj < |Recommended(r, plans)| && Recommended(r, plans)[rj].plan == j
    ensures exists ri: nat :: ri < |Recommended(r, plans)| && Recommended(r, plans)[ri].plan == i
              && (Recommended(r, plans)[ri].rank < Recommended(r, plans)[rj].rank
                  || (ScoreOf(r, plans, i) == ScoreOf(r, plans, j) && j < i))
  {
    PoolIsOrdered(r, plans);
    DominanceLowersScore(r, plans, i, j);
    var pool := RankingPool(r, plans);
    assert pool[rj] == j && j in pool;
    FiltersKeepTheBetter(r, plans, i, j);
    var ri: nat :| ri < |pool| && pool[ri] == i;
    assert Recommended(r, plans)[ri].plan == i;
    if rj < ri {
      assert Before(Scores(r, plans), j, i);
    }
  }

  /** Ranks are 1 to n in order, and ranked plans and fallbacks together are the pool, each plan once. */
  lemma RanksAndFallbacksPartitionThePool(r: Request, plans: seq<Plan>)
    ensures var ranked := Recommended(r, plans);
            && (forall k | 0 <= k < |ranked| :: ranked[k].rank == k + 1)
            && (forall k | 0 <= k < |ranked| :: ranked[k].plan == RankingPool(r, plans)[k])
            && multiset(RankingPool(r, plans)) + multiset(Fallbacks(r, plans)) == multiset(Pool(r, plans))
            && (forall i: nat :: multiset(Pool(r, plans))[i] <= 1)
            && (plans != [] ==> Pool(r, plans) != [])
  {
    OrderHasAll(r, plans);
    PoolIsOrdered(r, plans);
    KeptMembers(Order(r, plans), (i: nat) => Allowed(r, plans, i));
    KeptSplits(Pool(r, plans), (i: nat) => Matches(r, plans, i), (i: nat) => r.distributed && !Matches(r, plans, i));
    forall i: nat ensures multiset(Pool(r, plans))[i] <= 1 {
      OrderedOnce(Scores(r, plans), Pool(r, plans), i);
    }
    if plans != [] { assert 0 in Order(r, plans); }
  }

  lemma {:induction false} OrderedOnce(scores: seq<real>, order: seq<nat>, x: nat)
    requires InOrder(scores, order)
    ensures multiset(order)[x] <= 1
  {
    if order != [] {
      var init, last := order[..|order| - 1], order[|order| - 1];
      assert order == init + [last];
      OrderedOnce(scores, init, x);
      forall k | 0 <= k < |init| ensures init[k] != last {
        assert Before(scores, order[k], last);
      }
    }
  }

  // ---------------------------------------------------------------------------------------------
  // The plans of a request
  // ---------------------------------------------------------------------------------------------

  /** A limit of 0 is no limit. */
  predicate Eligible(p: Plan, maxGpus: nat, maxTotalBudgetUsd: real) {
    && p.fitRisk != NO_FIT
    && (maxGpus == 0 || p.gpuCount <= maxGpus)
    && (maxTotalBudgetUsd == 0.0 || p.costUsdLow <= maxTotalBudgetUsd)
  }

  function EligibleOf(plans: seq<Plan>, maxGpus: nat, budget: real): seq<Plan> {
    if plans == [] then []
    else EligibleOf(plans[..|plans| - 1], maxGpus, budget)
         + if Eligible(plans[|plans| - 1], maxGpus, budget) then [plans[|plans| - 1]] else []
  }

  function Flattened(candidates: seq<seq<Plan>>): seq<Plan> {
    if candidates == [] then [] else Flattened(candidates[..|candidates| - 1]) + candidates[|candidates| - 1]
  }

  lemma {:induction false} EligibleAppend(a: seq<Plan>, b: seq<Plan>, maxGpus: nat, budget: real)
    ensures EligibleOf(a + b, maxGpus, budget) == EligibleOf(a, maxGpus, budget) + EligibleOf(b, maxGpus, budget)
  {
    if b == [] {
      assert a + b == a;
    } else {
      assert (a + b)[..|a + b| - 1] == a + b[..|b| - 1];
      EligibleAppend(a, b[..|b| - 1], maxGpus, budget);
    }
  }

  /** A plan is kept exactly if it fits, has no more GPUs than the limit, and at its lower cost stays within
      the budget. */
  lemma {:induction false} EligibleIff(plans: seq<Plan>, maxGpus: nat, budget: real, p: Plan)
    ensures p in EligibleOf(plans, maxGpus, budget)
       <==> p in plans && p.fitRisk != NO_FIT && (maxGpus == 0 || p.gpuCount <= maxGpus)
            && (budget == 0.0 || p.costUsdLow <= budget)
  {
    if plans != [] {
      EligibleIff(plans[..|plans| - 1], maxGpus, budget, p);
      assert plans == plans[..|plans| - 1] + [plans[|plans| - 1]];
    }
  }

  /** The route's loops over GPU types and their cluster sizes: they drop the plans that do not fit or
      exceed a limit, and keep all others in order. */
  method CollectPlans(candidates: seq<seq<Plan>>, maxGpus: nat, budget: real) returns (recs: seq<Plan>)
    ensures recs == EligibleOf(Flattened(candidates), maxGpus, budget)
    ensures forall i | 0 <= i < |recs| :: recs[i].fitRisk != NO_FIT
  {
    recs := [];
    for s := 0 to |candidates|
      invariant recs == EligibleOf(Flattened(candidates[..s]), maxGpus, budget)
      invariant forall i | 0 <= i < |recs| :: recs[i].fitRisk != NO_FIT
    {
      var plans := candidates[s];
      ghost var before := recs;
      for i := 0 to |plans|
        invariant recs == before + EligibleOf(plans[..i], maxGpus, budget)
        invariant forall k | 0 <= k < |recs| :: recs[k].fitRisk != NO_FIT
      {
        assert plans[..i + 1][..i] == plans[..i];
        if Eligible(plans[i], maxGpus, budget) {
          recs := recs + [plans[i]];
        }
      }
      assert plans[..|plans|] == plans && candidates[..s + 1][..s] == candidates[..s];
      EligibleAppend(Flattened(candidates[..s]), plans, maxGpus, budget);
    }
    assert candidates[..|candidates|] == candidates;
  }
}
