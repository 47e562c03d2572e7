/** How many calls a balance covers (x402/src/catalog.ts). */
module Catalog {
  import opened Common

  const MAX_SAFE_INTEGER := 9_007_199_254_740_991

  // ---- the weighted average -----------------------------------------------------------------------

  /** A weight counts as its floor, and not at all if it is negative or missing. */
  function Weight(weights: seq<real>, i: nat): (w: nat)
    ensures i < |weights| && weights[i] >= 1.0 ==> w as real <= weights[i] < w as real + 1.0
    ensures i >= |weights| || weights[i] < 1.0 ==> w == 0
  {
    if i < |weights| && weights[i].Floor > 0 then weights[i].Floor else 0
  }

  function WeightSum(n: nat, weights: seq<real>): nat {
    if n == 0 then 0 else WeightSum(n - 1, weights) + Weight(weights, n - 1)
  }

  function WeightedSum(costs: seq<nat>, n: nat, weights: seq<real>): nat
    requires n <= |costs|
  {
    if n == 0 then 0 else WeightedSum(costs, n - 1, weights) + costs[n - 1] * Weight(weights, n - 1)
  }

  /** Rounded up; the first cost if no weight counts. */
  function AverageCost(costs: seq<nat>, weights: seq<real>): nat {
    var weightSum := WeightSum(|costs|, weights);
    if costs == [] then 0
    else if weightSum == 0 then costs[0]
    else (WeightedSum(costs, |costs|, weights) + weightSum - 1) / weightSum
  }

  method WeightedAverageCost(costs: seq<nat>, weights: seq<real>) returns (avg: nat)
    ensures avg == AverageCost(costs, weights)
  {
    if costs == [] {
      return 0;
    }
    var weightSum, weightedSum := 0, 0;
    for i := 0 to |costs|
      invariant weightSum == WeightSum(i, weights) && weightedSum == WeightedSum(costs, i, weights)
    {
      var weight := Weight(weights, i);
      if weight != 0 {
        weightSum := weightSum + weight;
        weightedSum := weightedSum + costs[i] * weight;
      } else {
        assert costs[i] * weight == 0;
      }
    }
    if weightSum == 0 {
      return costs[0];
    }
    avg := (weightedSum + weightSum - 1) / weightSum;
  }

  // ---- arithmetic ----------------------------------------------------------------------------------

  lemma DivMod(n: nat, d: nat)
    requires d > 0
    ensures n == (n / d) * d + n % d && 0 <= n % d < d
  {
  }

  lemma Distributes(k: nat, a: nat, b: nat)
    ensures k * (a + b) == k * a + k * b
  {
  }

  lemma TimesCancels(a: int, b: int, d: nat)
    requires d > 0 && a * d < b * d
    ensures a < b
  {
  }

  lemma AverageRoundsUp(costs: seq<nat>, weights: seq<real>)
    requires costs != [] && WeightSum(|costs|, weights) > 0
    ensures var avg, w, c := AverageCost(costs, weights), WeightSum(|costs|, weights),
      WeightedSum(costs, |costs|, weights);
            c <= avg * w && (avg - 1) * w < c
  {
  }

  lemma {:induction false} WeightedSumBounds(costs: seq<nat>, n: nat, weights: seq<real>, lo: nat, hi: nat)
    requires n <= |costs| && forall i :: 0 <= i < n ==> lo <= costs[i] <= hi
    ensures lo * WeightSum(n, weights) <= WeightedSum(costs, n, weights) <= hi * WeightSum(n, weights)
  {
    if n > 0 {
      var w, before := Weight(weights, n - 1), WeightSum(n - 1, weights);
      WeightedSumBounds(costs, n - 1, weights, lo, hi);
      TimesMonotone(lo, costs[n - 1], w);
      TimesMonotone(costs[n - 1], hi, w);
      Distributes(lo, before, w);
      Distributes(hi, before, w);
    }
  }

  /** The average lies between the least and the greatest cost, zero weights and zero costs included. */
  lemma AverageBetween(costs: seq<nat>, weights: seq<real>, lo: nat, hi: nat)
    requires costs != [] && forall i :: 0 <= i < |costs| ==> lo <= costs[i] <= hi
    ensures lo <= AverageCost(costs, weights) <= hi
  {
    var avg, w := AverageCost(costs, weights), WeightSum(|costs|, weights);
    if w > 0 {
      AverageRoundsUp(costs, weights);
      WeightedSumBounds(costs, |costs|, weights, lo, hi);
      TimesCancels(avg - 1, hi, w);
      if avg < lo {
        assert (lo - 1) * w == lo * w - w;
        TimesMonotone(avg, lo - 1, w);
      }
    }
  }

  // ---- coverage --------------------------------------------------------------------------------------

  function SafeFloorDiv(left: nat, right: nat): nat {
    if right == 0 then 0
    else if left / right > MAX_SAFE_INTEGER then MAX_SAFE_INTEGER else left / right
  }

  /** The largest number of `right`s that fit into `left`, or the largest safe integer if that is less. */
  lemma FloorDivIsLargest(left: nat, right: nat)
    requires right > 0
    ensures var q := SafeFloorDiv(left, right);
            && q * right <= left && q <= MAX_SAFE_INTEGER
            && (q < MAX_SAFE_INTEGER ==> left < (q + 1) * right)
  {
  }

  lemma QuotientIsLargest(left: nat, d: nat, q: nat)
    requires d > 0 && q * d <= left
    ensures q <= left / d
  {
    DivMod(left, d);
    assert (left / d + 1) * d == (left / d) * d + d;
    TimesCancels(q, left / d + 1, d);
  }

  /** A greater divisor gives no more. */
  lemma FloorDivAntitone(left: nat, small: nat, large: nat)
    requires 0 < small <= large
    ensures SafeFloorDiv(left, large) <= SafeFloorDiv(left, small)
  {
    var q := left / large;
    DivMod(left, large);
    TimesMonotone(small, large, q);
    QuotientIsLargest(left, small, q);
  }

  datatype Tool = Tool(toolId: string, cost: nat, typicalUnits: Option<real>)

  datatype UsageLog = UsageLog(toolId: string, units: Option<real>, at: int)

  datatype Estimate = Estimate(typicalCalls: nat, cheapestCalls: nat, premiumCalls: nat, recentMix: bool)

  const SEVEN_DAYS_MS := 604_800_000

  function LogUnits(log: UsageLog): nat {
    var units := if log.units.Some? then log.units.value.Floor else 1;
    if units < 1 then 1 else units
  }

  /** Units of one tool in the logs of the last seven days. */
  function RecentUnits(toolId: string, logs: seq<UsageLog>, from: int): nat {
    if logs == [] then 0
    else
      var log := logs[|logs| - 1];
      RecentUnits(toolId, logs[..|logs| - 1], from)
      + if log.at >= from && log.toolId == toolId then LogUnits(log) else 0
  }

  function Costs(tools: seq<Tool>): (costs: seq<nat>)
    ensures |costs| == |tools| && forall i :: 0 <= i < |tools| ==> costs[i] == tools[i].cost
  {
    if tools == [] then [] else Costs(tools[..|tools| - 1]) + [tools[|tools| - 1].cost]
  }

  function RecentMix(tools: seq<Tool>, logs: seq<UsageLog>, from: int): seq<real> {
    if tools == [] then []
    else RecentMix(tools[..|tools| - 1], logs, from) + [RecentUnits(tools[|tools| - 1].toolId, logs, from) as real]
  }

  function DefaultMix(tools: seq<Tool>): seq<real> {
    if tools == [] then []
    else
      var units := tools[|tools| - 1].typicalUnits;
      DefaultMix(tools[..|tools| - 1]) + [if units.Some? then units.value else 1.0]
  }

  predicate HasRecentMix(tools: seq<Tool>, logs: seq<UsageLog>, from: int) {
    exists i :: 0 <= i < |tools| && RecentUnits(tools[i].toolId, logs, from) > 0
  }

  function Mix(tools: seq<Tool>, logs: seq<UsageLog>, now: int): seq<real> {
    var from := now - SEVEN_DAYS_MS;
    if HasRecentMix(tools, logs, from) then RecentMix(tools, logs, from) else DefaultMix(tools)
  }

  function Least(costs: seq<nat>): (m: nat)
    requires costs != []
    ensures m in costs && forall i :: 0 <= i < |costs| ==> m <= costs[i]
  {
    if |costs| == 1 then costs[0]
    else
      var m := Least(costs[..|costs| - 1]);
      if costs[|costs| - 1] < m then costs[|costs| - 1] else m
  }

  function Greatest(costs: seq<nat>): (m: nat)
    requires costs != []
    ensures m in costs && forall i :: 0 <= i < |costs| ==> costs[i] <= m
  {
    if |costs| == 1 then costs[0]
    else
      var m := Greatest(costs[..|costs| - 1]);
      if costs[|costs| - 1] > m then costs[|costs| - 1] else m
  }

  /** A free tool is counted as costing one unit. */
  function AtLeastOne(cost: nat): nat {
    if cost == 0 then 1 else cost
  }

  /** `cost` of a tool is its modelled baseline cost. */
  function EstimateBalanceCoverage(tools: seq<Tool>, balance: int, logs: seq<UsageLog>, now: int): Estimate {
    if tools == [] || balance <= 0 then Estimate(0, 0, 0, false)
    else
      var costs := Costs(tools);
      Estimate(SafeFloorDiv(balance, AtLeastOne(AverageCost(costs, Mix(tools, logs, now)))),
               SafeFloorDiv(balance, AtLeastOne(Least(costs))),
               SafeFloorDiv(balance, AtLeastOne(Greatest(costs))),
               HasRecentMix(tools, logs, now - SEVEN_DAYS_MS))
  }

  /** For every catalog, balance and usage log: premium calls, typical calls, cheapest calls are in this order. */
  lemma CoverageIsOrdered(tools: seq<Tool>, balance: int, logs: seq<UsageLog>, now: int)
    ensures var e := EstimateBalanceCoverage(tools, balance, logs, now);
            e.premiumCalls <= e.typicalCalls <= e.cheapestCalls <= MAX_SAFE_INTEGER
  {
    if tools != [] && balance > 0 {
      var costs := Costs(tools);
      var lo, hi := Least(costs), Greatest(costs);
      AverageBetween(costs, Mix(tools, logs, now), lo, hi);
      var avg := AverageCost(costs, Mix(tools, logs, now));
      FloorDivAntitone(balance, AtLeastOne(lo), AtLeastOne(avg));
      FloorDivAntitone(balance, AtLeastOne(avg), AtLeastOne(hi));
    }
  }

  lemma CrossMultiply(calls: nat, avg: nat, balance: nat, w: nat, c: nat)
    requires calls * avg <= balance && c <= avg * w
    ensures calls * c <= balance * w
  {
  }

  ghost predicate Conservative(costs: seq<nat>, weights: seq<real>, balance: nat, calls: nat) {
    && calls * WeightedSum(costs, |costs|, weights) <= balance * WeightSum(|costs|, weights)
    && (calls < MAX_SAFE_INTEGER ==> balance < (calls + 1) * AtLeastOne(AverageCost(costs, weights)))
  }

  /**
   * The typical estimate is conservative: at the mix it is based on, that many calls cost no
   * more than the balance. It is also the largest such number at the rounded average cost.
   */
  lemma CoverageIsConservative(tools: seq<Tool>, balance: int, logs: seq<UsageLog>, now: int)
    requires tools != [] && balance > 0
    ensures Conservative(Costs(tools), Mix(tools, logs, now), balance,
                         EstimateBalanceCoverage(tools, balance, logs, now).typicalCalls)
  {
    TypicalIsConservative(Costs(tools), Mix(tools, logs, now), balance);
  }

  lemma TypicalIsConservative(costs: seq<nat>, weights: seq<real>, balance: nat)
    requires costs != []
    ensures Conservative(costs, weights, balance, SafeFloorDiv(balance, AtLeastOne(AverageCost(costs, weights))))
  {
    var avg, w, c := AverageCost(costs, weights), WeightSum(|costs|, weights), WeightedSum(costs, |costs|, weights);
    FloorDivIsLargest(balance, AtLeastOne(avg));
    if w == 0 {
      NoWeightNoSum(costs, |costs|, weights);
    } else {
      AverageRoundsUp(costs, weights);
      TimesMonotone(avg, AtLeastOne(avg), w);
      CrossMultiply(SafeFloorDiv(balance, AtLeastOne(avg)), AtLeastOne(avg), balance, w, c);
    }
  }

  lemma {:induction false} NoWeightNoSum(costs: seq<nat>, n: nat, weights: seq<real>)
    requires n <= |costs| && WeightSum(n, weights) == 0
    ensures WeightedSum(costs, n, weights) == 0
  {
    if n > 0 {
      NoWeightNoSum(costs, n - 1, weights);
    }
  }

  // ---- the three estimates, and the mix they are based on ----------------------------------------------

  /** `calls` is the largest number of calls at `cost` that `balance` covers, up to the largest safe integer. */
  ghost predicate LargestFit(balance: int, cost: nat, calls: nat) {
    && calls * cost <= balance && calls <= MAX_SAFE_INTEGER
    && (calls < MAX_SAFE_INTEGER ==> balance < (calls + 1) * cost)
  }

  /** `m` is the least cost of a tool. */
  ghost predicate IsLeast(tools: seq<Tool>, m: nat) {
    (exists i :: 0 <= i < |tools| && tools[i].cost == m) && forall i :: 0 <= i < |tools| ==> m <= tools[i].cost
  }

  ghost predicate IsGreatest(tools: seq<Tool>, m: nat) {
    (exists i :: 0 <= i < |tools| && tools[i].cost == m) && forall i :: 0 <= i < |tools| ==> tools[i].cost <= m
  }

  /**
   * Without tools or balance nothing is covered. Otherwise the estimates are the largest numbers
   * of calls that fit at the least cost, at the greatest cost, and at the average cost, where a
   * free call counts as costing one unit.
   */
  lemma CoverageExactly(tools: seq<Tool>, balance: int, logs: seq<UsageLog>, now: int, least: nat, greatest: nat)
    requires tools != [] ==> IsLeast(tools, least) && IsGreatest(tools, greatest)
    ensures var e := EstimateBalanceCoverage(tools, balance, logs, now);
            if tools == [] || balance <= 0 then e.cheapestCalls == e.typicalCalls == e.premiumCalls == 0
            else
              && LargestFit(balance, if least == 0 then 1 else least, e.cheapestCalls)
              && LargestFit(balance, if greatest == 0 then 1 else greatest, e.premiumCalls)
              && var average := AverageCost(Costs(tools), Mix(tools, logs, now));
                 LargestFit(balance, if average == 0 then 1 else average, e.typicalCalls)
  {
    if tools != [] && balance > 0 {
      var costs := Costs(tools);
      LeastIsTheLeast(tools, least);
      GreatestIsTheGreatest(tools, greatest);
      FloorDivIsLargest(balance, AtLeastOne(least));
      FloorDivIsLargest(balance, AtLeastOne(greatest));
      FloorDivIsLargest(balance, AtLeastOne(AverageCost(costs, Mix(tools, logs, now))));
    }
  }

  lemma LeastIsTheLeast(tools: seq<Tool>, m: nat)
    requires tools != [] && IsLeast(tools, m)
    ensures Least(Costs(tools)) == m
  {
    var costs := Costs(tools);
    var i :| 0 <= i < |tools| && tools[i].cost == m;
    assert costs[i] == m;
    var j :| 0 <= j < |costs| && costs[j] == Least(costs);
    assert tools[j].cost == Least(costs);
  }

  lemma GreatestIsTheGreatest(tools: seq<Tool>, m: nat)
    requires tools != [] && IsGreatest(tools, m)
    ensures Greatest(Costs(tools)) == m
  {
    var costs := Costs(tools);
    var i :| 0 <= i < |tools| && tools[i].cost == m;
    assert costs[i] == m;
    var j :| 0 <= j < |costs| && costs[j] == Greatest(costs);
    assert tools[j].cost == Greatest(costs);
  }

  /** The average is the weighted sum over the weights, rounded up, and the first cost if no weight counts. */
  lemma AverageExactly(costs: seq<nat>, weights: seq<real>, avg: nat)
    requires costs != []
    ensures var w, c := WeightSum(|costs|, weights), WeightedSum(costs, |costs|, weights);
            avg == AverageCost(costs, weights) <==> if w == 0 then avg == costs[0] else (avg - 1) * w < c <= avg * w
  {
    var a: int := AverageCost(costs, weights);
    var w := WeightSum(|costs|, weights);
    if w > 0 {
      AverageRoundsUp(costs, weights);
      if (avg - 1) * w < WeightedSum(costs, |costs|, weights) <= avg * w {
        TimesCancels(avg - 1, a, w);
        TimesCancels(a - 1, avg, w);
      }
    }
  }

  /** What one log adds to the weight of a tool: its whole units, at least one, if it is recent. */
  function LogWeight(toolId: string, log: UsageLog, now: int): nat {
    if log.toolId != toolId || log.at < now - 7 * 24 * 60 * 60 * 1000 then 0
    else if log.units.Some? && log.units.value >= 1.0 then log.units.value.Floor
    else 1
  }

  /** The weight of a tool grows with every log by what that log adds. */
  lemma RecentUnitsAdds(toolId: string, logs: seq<UsageLog>, log: UsageLog, now: int)
    ensures RecentUnits(toolId, [], now - SEVEN_DAYS_MS) == 0
    ensures RecentUnits(toolId, logs + [log], now - SEVEN_DAYS_MS) ==
            RecentUnits(toolId, logs, now - SEVEN_DAYS_MS) + LogWeight(toolId, log, now)
  {
    assert (logs + [log])[..|logs|] == logs;
  }

  lemma {:induction false} UnitsMeanLogs(toolId: string, logs: seq<UsageLog>, from: int)
    ensures RecentUnits(toolId, logs, from) > 0 <==>
            exists j :: 0 <= j < |logs| && logs[j].toolId == toolId && logs[j].at >= from
  {
    if logs != [] {
      var n := |logs| - 1;
      UnitsMeanLogs(toolId, logs[..n], from);
      assert forall j :: 0 <= j < n ==> logs[..n][j] == logs[j];
    }
  }

  ghost predicate UsedLately(tools: seq<Tool>, logs: seq<UsageLog>, now: int) {
    exists i, j :: 0 <= i < |tools| && 0 <= j < |logs| && tools[i].toolId == logs[j].toolId &&
      logs[j].at >= now - 7 * 24 * 60 * 60 * 1000
  }

  /**
   * The mix is the recent one if and only if a tool of the catalog was used in the last seven
   * days; the weights are then the recent units, and else the typical ones, one if not given.
   */
  lemma MixExactly(tools: seq<Tool>, logs: seq<UsageLog>, now: int)
    ensures var recent := UsedLately(tools, logs, now);
            && (HasRecentMix(tools, logs, now - SEVEN_DAYS_MS) <==> recent)
            && (forall balance :: EstimateBalanceCoverage(tools, balance, logs, now).recentMix <==>
                  balance > 0 && recent)
            && |Mix(tools, logs, now)| == |tools|
            && forall i :: 0 <= i < |tools| ==>
                 Mix(tools, logs, now)[i] ==
                   if recent then RecentUnits(tools[i].toolId, logs, now - SEVEN_DAYS_MS) as real
                   else if tools[i].typicalUnits.Some? then tools[i].typicalUnits.value else 1.0
  {
    var from := now - SEVEN_DAYS_MS;
    forall i | 0 <= i < |tools|
      ensures RecentUnits(tools[i].toolId, logs, from) > 0 <==>
              exists j :: 0 <= j < |logs| && logs[j].toolId == tools[i].toolId && logs[j].at >= from
    {
      UnitsMeanLogs(tools[i].toolId, logs, from);
    }
    MixesAt(tools, logs, from);
  }

  lemma {:induction false} MixesAt(tools: seq<Tool>, logs: seq<UsageLog>, from: int)
    ensures |RecentMix(tools, logs, from)| == |tools| && |DefaultMix(tools)| == |tools|
    ensures forall i :: 0 <= i < |tools| ==>
      && RecentMix(tools, logs, from)[i] == RecentUnits(tools[i].toolId, logs, from) as real
      && DefaultMix(tools)[i] == if tools[i].typicalUnits.Some? then tools[i].typicalUnits.value else 1.0
  {
    if tools != [] {
      MixesAt(tools[..|tools| - 1], logs, from);
    }
  }
}
