/** Risk/reward ratio of a set of targets against a set of stop losses
    (calculate_risk_reward). */
module RiskReward {
  import opened Stats

  /** (mean target - price) / (price - mean stop). No targets, no stops or a
      mean stop at or above the price give 0. */
  function Ratio(current: real, targets: seq<real>, stopLosses: seq<real>): (r: real)
    ensures targets == [] || stopLosses == [] ==> r == 0.0
    ensures targets != [] && stopLosses != [] && current <= Mean(stopLosses) ==> r == 0.0
    ensures targets != [] && stopLosses != [] && current > Mean(stopLosses) ==>
      r * (current - Mean(stopLosses)) == Mean(targets) - current
    ensures r > 0.0 <==> targets != [] && stopLosses != [] && Mean(stopLosses) < current < Mean(targets)
    ensures r < 0.0 <==> targets != [] && stopLosses != [] && Mean(stopLosses) < current && Mean(targets) < current
  {
    if targets == [] || stopLosses == [] then 0.0
    else
      var reward := Mean(targets) - current;
      var risk := current - Mean(stopLosses);
      if risk <= 0.0 then 0.0
      else
        QuotientCompare(reward, risk, 0.0);
        reward / risk
  }
}
