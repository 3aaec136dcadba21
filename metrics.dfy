/** The fixed list of metric names the command accepts (index.js line 17) and the
    membership test the action runs before anything else (index.js lines 40-43). */
module Metrics {

  /** The nine metric names, in the order the source lists them. */
  const Supported: seq<string> :=
    ["mrr", "all", "arr", "customer-churn-rate", "mrr-churn-rate", "ltv", "customers", "asp", "arpa"]

  /** `Array.prototype.indexOf`: the position of the first occurrence of `x`, or -1. */
  function IndexOf(xs: seq<string>, x: string): (i: int)
    ensures -1 <= i < |xs|
    ensures i == -1 <==> x !in xs
    ensures 0 <= i ==> xs[i] == x && forall j :: 0 <= j < i ==> xs[j] != x
  {
    if xs == [] then -1
    else if xs[0] == x then 0
    else
      var j := IndexOf(xs[1..], x);
      if j < 0 then -1 else j + 1
  }

  /** The guard `metrics.indexOf(metric) < 0` negated: the metric is one of the nine names. */
  function IsSupported(metric: string): (b: bool)
    ensures b <==> metric in {"mrr", "all", "arr", "customer-churn-rate", "mrr-churn-rate",
                              "ltv", "customers", "asp", "arpa"}
  {
    IndexOf(Supported, metric) >= 0
  }
}
