// Backtest trading costs (mt5-ai-bot/src/backtest/costs.py): a commission
// per lot and spread and slippage expressed in points, turned into money
// by a value per point.

module Costs {
  import opened Common

  datatype TradingCosts = TradingCosts(commissionPerLot: real, spreadPoints: int, slippagePoints: int)
  {
    /** spread_cost: the spread in points priced at pointValue per point. */
    function SpreadCost(pointValue: real): (c: real)
      ensures spreadPoints == 0 || pointValue == 0.0 ==> c == 0.0
      ensures spreadPoints >= 0 && pointValue >= 0.0 ==> c >= 0.0
      ensures spreadPoints >= 0 && pointValue <= 0.0 ==> c <= 0.0
    {
      PointsCost(spreadPoints, pointValue)
    }

    /** slippage_cost: the slippage in points priced at pointValue per point. */
    function SlippageCost(pointValue: real): (c: real)
      ensures slippagePoints == 0 || pointValue == 0.0 ==> c == 0.0
      ensures slippagePoints >= 0 && pointValue >= 0.0 ==> c >= 0.0
      ensures slippagePoints >= 0 && pointValue <= 0.0 ==> c <= 0.0
    {
      PointsCost(slippagePoints, pointValue)
    }
  }

  /** A number of points priced at pointValue each. */
  function PointsCost(points: int, pointValue: real): real
  {
    (points as real) * pointValue
  }

  /** Both costs are linear in the value per point. */
  lemma CostsLinear(costs: TradingCosts, a: real, b: real, k: real)
    ensures costs.SpreadCost(a + b) == costs.SpreadCost(a) + costs.SpreadCost(b)
    ensures costs.SlippageCost(a + b) == costs.SlippageCost(a) + costs.SlippageCost(b)
    ensures costs.SpreadCost(k * a) == k * costs.SpreadCost(a)
    ensures costs.SlippageCost(k * a) == k * costs.SlippageCost(a)
  {
    var s := costs.spreadPoints as real;
    var l := costs.slippagePoints as real;
    assert s * (k * a) == k * (s * a);
    assert l * (k * a) == k * (l * a);
  }

  /** More points never cost less at a non-negative value per point. */
  lemma CostMonotoneInPoints(p: int, q: int, pointValue: real)
    requires p <= q && pointValue >= 0.0
    ensures TradingCosts(0.0, p, p).SpreadCost(pointValue) <= TradingCosts(0.0, q, q).SpreadCost(pointValue)
  {
    assert (q as real) * pointValue - (p as real) * pointValue == ((q - p) as real) * pointValue;
    assert ((q - p) as real) * pointValue >= 0.0;
  }
}
