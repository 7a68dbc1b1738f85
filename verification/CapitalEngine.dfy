/** core/capital_engine.py: scaling, reducing and killing pods, and splitting a total budget. */
module CapitalEngine {
  import opened Reals
  import opened Wrappers
  import opened Pods

  datatype Decision = ScaleUp | Reduce | KillNow | Keep

  datatype Config = Config(
    scaleThreshold: real, killThreshold: real, minScaleFactor: real, maxScaleFactor: real,
    reduceFactor: real, dailyCap: real, maxConcurrentPods: int)

  const DEFAULTS := Config(2.0, 1.0, 0.2, 0.5, 0.5, 500.0, 10)

  // One pod ---------------------------------------------------------------------------------

  function Evaluate(c: Config, v: View): Decision {
    if v.metrics.roas > c.scaleThreshold then ScaleUp
    else if v.metrics.roas < c.killThreshold then (if v.budget <= 5.0 then KillNow else Reduce)
    else Keep
  }

  /** _scale_factor_for_roas, which divides by the threshold. */
  function ScaleFactor(c: Config, roas: real): real
    requires c.scaleThreshold != 0.0
  {
    c.minScaleFactor + Mul(Progress(c, roas), c.maxScaleFactor - c.minScaleFactor)
  }

  function Progress(c: Config, roas: real): (t: real)
    requires c.scaleThreshold != 0.0
    ensures 0.0 <= t <= 1.0
  {
    Min(Max((roas - c.scaleThreshold) / (c.scaleThreshold * 2.0 - c.scaleThreshold), 0.0), 1.0)
  }

  /** The pod after apply; Err is Python's ZeroDivisionError. */
  function Applied(c: Config, v: View): Result<View, string> {
    match Evaluate(c, v)
    case ScaleUp =>
      if c.scaleThreshold == 0.0 then Err("division by zero")
      else Ok(v.(budget := Min(Mul(v.budget, 1.0 + ScaleFactor(c, v.metrics.roas)), c.dailyCap), status := Scaling))
    case Reduce =>
      var reduced := Max(Mul(v.budget, c.reduceFactor), 0.0);
      Ok(if reduced < 1.0 then v.(budget := 0.0, status := Killed) else v.(budget := reduced))
    case KillNow => Ok(v.(budget := 0.0, status := Killed))
    case Keep => Ok(v)
  }

  function Spent(ledger: map<Id, real>, id: Id): real {
    if id in ledger then ledger[id] else 0.0
  }

  class CapitalEngineV2 {
    const config: Config
    var ledger: map<Id, real>

    constructor (config: Config)
      ensures this.config == config && ledger == map[]
    {
      this.config, ledger := config, map[];
    }

    method RecordSpend(id: Id, amount: real) returns (total: real)
      modifies this`ledger
      ensures ledger == old(ledger)[id := Spent(old(ledger), id) + amount] && total == Spent(ledger, id)
    {
      ledger := ledger[id := Spent(ledger, id) + amount];
      total := ledger[id];
    }

    method ResetSpend(id: Id)
      modifies this`ledger
      ensures ledger == old(ledger) - {id}
    {
      ledger := ledger - {id};
    }

    method Apply(pod: Pod) returns (r: Result<Decision, string>)
      modifies this`ledger, pod`budget, pod`status
      ensures var v := old(pod.AsView());
        match Applied(config, v)
        case Ok(after) =>
          && r == Ok(Evaluate(config, v)) && pod.AsView() == after
          && ledger == old(ledger)[pod.id := Spent(old(ledger), pod.id) + v.metrics.spend]
        case Err(e) => r == Err(e) && pod.AsView() == v && ledger == old(ledger)
    {
      var decision := Evaluate(config, pod.AsView());
      var roas := pod.metrics.roas;
      if decision == ScaleUp {
        if config.scaleThreshold == 0.0 {
          return Err("division by zero");
        }
        var newBudget := Mul(pod.budget, 1.0 + ScaleFactor(config, roas));
        pod.budget := Min(newBudget, config.dailyCap);
        pod.status := Scaling;
      } else if decision == Reduce {
        pod.budget := Max(Mul(pod.budget, config.reduceFactor), 0.0);
        if pod.budget < 1.0 {
          pod.budget, pod.status := 0.0, Killed;
        }
      } else if decision == KillNow {
        pod.budget, pod.status := 0.0, Killed;
      }
      var total := RecordSpend(pod.id, pod.metrics.spend);
      r := Ok(decision);
    }

    /** Kills exactly the pods whose tracked spend has reached the cap. */
    method EnforceDailyCap(pod: Pod) returns (exceeded: bool)
      modifies pod`status
      ensures exceeded <==> Spent(ledger, pod.id) >= config.dailyCap
      ensures pod.AsView() == if exceeded then old(pod.AsView()).(status := Killed) else old(pod.AsView())
    {
      exceeded := Spent(ledger, pod.id) >= config.dailyCap;
      if exceeded {
        pod.status := Killed;
      }
    }
  }

  // Runs of one pod -------------------------------------------------------------------------

  /** The pod after one apply per reported ROAS. */
  function AppliedAll(c: Config, v: View, roas: seq<real>): View
    requires c.scaleThreshold != 0.0
  {
    if roas == [] then v
    else
      var w := AppliedAll(c, v, roas[..|roas| - 1]);
      Applied(c, w.(metrics := w.metrics.(roas := roas[|roas| - 1]))).value
  }

  /** Shrinking is by a fraction, and growth never turns a budget negative. */
  predicate Sane(c: Config) {
    c.scaleThreshold != 0.0 && 0.0 <= c.reduceFactor <= 1.0 && c.dailyCap >= 0.0
    && c.minScaleFactor >= -1.0 && c.maxScaleFactor >= -1.0
  }

  lemma FactorAtLeast(c: Config, roas: real)
    requires Sane(c)
    ensures ScaleFactor(c, roas) >= -1.0
  {
    var t, d := Progress(c, roas), c.maxScaleFactor - c.minScaleFactor;
    MulMonotone(t, Min(d, 0.0), d);
    if d >= 0.0 {
      MulSign(t, d);
    } else {
      assert Mul(t, d) - d == Mul(1.0 - t, -d);
      MulSign(1.0 - t, -d);
    }
  }

  /** The factor interpolates linearly: the minimum at the threshold, the maximum from twice the
      threshold on, and in between in proportion to the distance. */
  lemma FactorInterpolates(c: Config, roas: real)
    requires c.scaleThreshold > 0.0
    ensures roas <= c.scaleThreshold ==> ScaleFactor(c, roas) == c.minScaleFactor
    ensures roas >= 2.0 * c.scaleThreshold ==> ScaleFactor(c, roas) == c.maxScaleFactor
    ensures c.scaleThreshold <= roas <= 2.0 * c.scaleThreshold ==>
      Mul(c.scaleThreshold, ScaleFactor(c, roas) - c.minScaleFactor) ==
      Mul(roas - c.scaleThreshold, c.maxScaleFactor - c.minScaleFactor)
  {
    var t, q, d := c.scaleThreshold, (roas - c.scaleThreshold) / c.scaleThreshold, c.maxScaleFactor - c.minScaleFactor;
    QuotientSign(roas - t, t);
    assert Mul(1.0, d) == d && Mul(0.0, d) == 0.0;
    assert Mul(t, q) == roas - t;
    Regroup(t, q, d);
  }

  lemma QuotientSign(x: real, y: real)
    requires y > 0.0
    ensures x >= 0.0 <==> x / y >= 0.0
    ensures x <= 0.0 <==> x / y <= 0.0
    ensures x >= y <==> x / y >= 1.0
  {
    var q := x / y;
    assert q * y == x;
    assert (q - 1.0) * y == x - y;
  }

  lemma Regroup(a: real, b: real, x: real)
    ensures Mul(a, Mul(b, x)) == Mul(Mul(a, b), x)
  {
  }

  lemma FactorGrows(c: Config, low: real, high: real)
    requires c.scaleThreshold > 0.0 && c.minScaleFactor <= c.maxScaleFactor && low <= high
    ensures c.minScaleFactor <= ScaleFactor(c, low) <= ScaleFactor(c, high) <= c.maxScaleFactor
  {
    var t, d := c.scaleThreshold, c.maxScaleFactor - c.minScaleFactor;
    assert (high - t) / t - (low - t) / t == (high - low) / t;
    QuotientSign(high - low, t);
    MulSign(Progress(c, low), d);
    MulMonotone(d, Progress(c, low), Progress(c, high));
    MulMonotone(d, Progress(c, high), 1.0);
    assert Mul(1.0, d) == d;
  }

  /** Performance pays: the better of two ROAS never leaves the same pod with the smaller budget,
      whichever branches they take. */
  lemma BetterRoasNeverCosts(c: Config, v: View, low: real, high: real)
    requires Sane(c) && c.scaleThreshold > 0.0 && c.killThreshold <= c.scaleThreshold
    requires 0.0 <= c.minScaleFactor <= c.maxScaleFactor && 0.0 <= v.budget <= c.dailyCap && low <= high
    ensures var w, u := v.(metrics := v.metrics.(roas := low)), v.(metrics := v.metrics.(roas := high));
      Applied(c, w).Ok? && Applied(c, u).Ok? && Applied(c, w).value.budget <= Applied(c, u).value.budget
  {
    FactorGrows(c, low, high);
    MulMonotone(v.budget, 1.0 + ScaleFactor(c, low), 1.0 + ScaleFactor(c, high));
    MulMonotone(v.budget, 1.0, 1.0 + ScaleFactor(c, high));
    MulMonotone(v.budget, c.reduceFactor, 1.0);
    assert Mul(v.budget, 1.0) == v.budget;
  }

  lemma BudgetStaysInRange(c: Config, v: View)
    requires Sane(c) && 0.0 <= v.budget <= c.dailyCap
    ensures Applied(c, v).Ok? && 0.0 <= Applied(c, v).value.budget <= c.dailyCap
  {
    match Evaluate(c, v)
    case ScaleUp =>
      FactorAtLeast(c, v.metrics.roas);
      MulSign(v.budget, 1.0 + ScaleFactor(c, v.metrics.roas));
    case Reduce =>
      MulMonotone(v.budget, c.reduceFactor, 1.0);
    case _ =>
  }

  /** Over any run: a budget within the cap stays within it, and a zero budget stays zero. */
  lemma {:induction false} RunStaysInRange(c: Config, v: View, roas: seq<real>)
    requires Sane(c) && 0.0 <= v.budget <= c.dailyCap
    ensures 0.0 <= AppliedAll(c, v, roas).budget <= c.dailyCap
    ensures v.budget == 0.0 ==> AppliedAll(c, v, roas).budget == 0.0
  {
    if roas != [] {
      var w := AppliedAll(c, v, roas[..|roas| - 1]);
      RunStaysInRange(c, v, roas[..|roas| - 1]);
      BudgetStaysInRange(c, w.(metrics := w.metrics.(roas := roas[|roas| - 1])));
    }
  }

  function Pow(x: real, k: nat): real {
    if k == 0 then 1.0 else Mul(x, Pow(x, k - 1))
  }

  /** A losing streak ends the pod: if k reductions bring the budget down to 5, then after k + 1
      calls with a ROAS below the kill threshold the pod is killed with budget zero. */
  lemma {:induction false} LosingStreakKills(c: Config, v: View, roas: seq<real>, k: nat)
    requires c.scaleThreshold != 0.0 && c.killThreshold <= c.scaleThreshold && c.reduceFactor >= 0.0
    requires |roas| == k + 1 && forall i :: 0 <= i < |roas| ==> roas[i] < c.killThreshold
    requires Mul(v.budget, Pow(c.reduceFactor, k)) <= 5.0
    ensures AppliedAll(c, v, roas).budget == 0.0 && AppliedAll(c, v, roas).status == Killed
  {
    StreakShrinks(c, v, roas[..k], k);
    var w := AppliedAll(c, v, roas[..k]);
    assert roas[..|roas| - 1] == roas[..k];
  }

  /** After j losing calls the budget is at most what j reductions leave, or at most 5. */
  lemma {:induction false} StreakShrinks(c: Config, v: View, roas: seq<real>, j: nat)
    requires c.scaleThreshold != 0.0 && c.killThreshold <= c.scaleThreshold && c.reduceFactor >= 0.0
    requires |roas| == j && forall i :: 0 <= i < |roas| ==> roas[i] < c.killThreshold
    ensures var b := AppliedAll(c, v, roas).budget; b <= 5.0 || b <= Mul(v.budget, Pow(c.reduceFactor, j))
  {
    if j == 0 {
      MulSucc(0, v.budget);
      assert Mul(v.budget, 1.0) == v.budget;
    } else {
      StreakShrinks(c, v, roas[..j - 1], j - 1);
      var w := AppliedAll(c, v, roas[..j - 1]);
      if w.budget > 5.0 {
        MulMonotone(c.reduceFactor, w.budget, Mul(v.budget, Pow(c.reduceFactor, j - 1)));
        Reassociate(v.budget, c.reduceFactor, Pow(c.reduceFactor, j - 1));
      }
    }
  }

  lemma Reassociate(a: real, x: real, y: real)
    ensures Mul(Mul(a, y), x) == Mul(a, Mul(x, y))
  {
  }

  function PowTwo(k: nat): (p: real)
    ensures p >= 1.0
  {
    if k == 0 then 1.0 else 2.0 * PowTwo(k - 1)
  }

  lemma {:induction false} HalvesAndDoubles(k: nat)
    ensures Mul(PowTwo(k), Pow(0.5, k)) == 1.0 && Pow(0.5, k) > 0.0
  {
    if k > 0 {
      HalvesAndDoubles(k - 1);
      var a, b := PowTwo(k - 1), Pow(0.5, k - 1);
      assert Mul(2.0 * a, Mul(0.5, b)) == Mul(a, b);
    }
  }

  /** In particular, when reducing halves, a budget of at most 5 * 2^k is gone after k + 1 calls. */
  lemma HalvingStreak(c: Config, v: View, roas: seq<real>, k: nat)
    requires c.scaleThreshold != 0.0 && c.killThreshold <= c.scaleThreshold && c.reduceFactor == 0.5
    requires |roas| == k + 1 && forall i :: 0 <= i < |roas| ==> roas[i] < c.killThreshold
    requires v.budget <= 5.0 * PowTwo(k)
    ensures AppliedAll(c, v, roas).budget == 0.0 && AppliedAll(c, v, roas).status == Killed
  {
    HalvesAndDoubles(k);
    MulMonotone(Pow(0.5, k), v.budget, 5.0 * PowTwo(k));
    assert Mul(5.0 * PowTwo(k), Pow(0.5, k)) == 5.0 * Mul(PowTwo(k), Pow(0.5, k));
    LosingStreakKills(c, v, roas, k);
  }

  // One call, band by band ----------------------------------------------------------------------

  /** What apply makes of a pod, from its ROAS, its budget and the configuration. */
  lemma AppliedByBand(c: Config, v: View)
    requires c.scaleThreshold > 0.0 && c.minScaleFactor <= c.maxScaleFactor
    ensures var roas, after := v.metrics.roas, Applied(c, v).value;
      && Applied(c, v).Ok? && after.metrics == v.metrics
      && (roas > c.scaleThreshold ==>
            && Evaluate(c, v) == ScaleUp && after.status == Scaling
            && exists factor: real {:trigger Mul(v.budget, 1.0 + factor)} ::
                 && c.minScaleFactor <= factor <= c.maxScaleFactor
                 && after.budget == Min(Mul(v.budget, 1.0 + factor), c.dailyCap))
      && (roas <= c.scaleThreshold && roas >= c.killThreshold ==> Evaluate(c, v) == Keep && after == v)
      && (roas <= c.scaleThreshold && roas < c.killThreshold && v.budget <= 5.0 ==>
            Evaluate(c, v) == KillNow && after == v.(budget := 0.0, status := Killed))
      && (roas <= c.scaleThreshold && roas < c.killThreshold && v.budget > 5.0 ==>
            Evaluate(c, v) == Reduce &&
            after == if v.budget * c.reduceFactor >= 1.0 then v.(budget := v.budget * c.reduceFactor)
                     else v.(budget := 0.0, status := Killed))
  {
    FactorGrows(c, v.metrics.roas, v.metrics.roas);
    assert Mul(v.budget, c.reduceFactor) == v.budget * c.reduceFactor;
  }

  /** The defaults: growth by 20 to 50 percent between twice and four times the spend. */
  lemma DefaultFactors()
    ensures ScaleFactor(DEFAULTS, 2.0) == 0.2 && ScaleFactor(DEFAULTS, 4.0) == 0.5
  {
    FactorInterpolates(DEFAULTS, 2.0);
    FactorInterpolates(DEFAULTS, 4.0);
  }

  lemma DefaultGrowth(v: View)
    requires v.metrics.roas == 4.0
    ensures Applied(DEFAULTS, v) == Ok(v.(budget := Min(Mul(v.budget, 1.5), 500.0), status := Scaling))
  {
    DefaultFactors();
  }

  /** And rest between the spend and twice it, halving below. */
  lemma DefaultRest(v: View)
    requires v.metrics.roas <= 2.0
    ensures v.metrics.roas >= 1.0 ==> Applied(DEFAULTS, v) == Ok(v)
    ensures v.metrics.roas < 1.0 && v.budget > 5.0 ==> Applied(DEFAULTS, v) == Ok(v.(budget := 0.5 * v.budget))
  {
  }

  // The ledger ----------------------------------------------------------------------------------

  datatype LedgerEvent = Recorded(id: Id, amount: real) | Reset(id: Id)

  /** The ledger after these calls of record_spend and reset_spend. */
  function LedgerAfter(h: seq<LedgerEvent>): map<Id, real> {
    if h == [] then map[]
    else
      var prior := LedgerAfter(h[..|h| - 1]);
      match h[|h| - 1]
      case Recorded(id, amount) => prior[id := Spent(prior, id) + amount]
      case Reset(id) => prior - {id}
  }

  /** What was recorded for a pod since it was last reset. */
  function SinceReset(h: seq<LedgerEvent>, id: Id): real {
    if h == [] then 0.0
    else
      match h[|h| - 1]
      case Recorded(other, amount) => SinceReset(h[..|h| - 1], id) + if other == id then amount else 0.0
      case Reset(other) => if other == id then 0.0 else SinceReset(h[..|h| - 1], id)
  }

  /** Conservation: a pod's tracked spend is what was recorded for it since its last reset, whatever
      happened to other pods in between. */
  lemma {:induction false} LedgerConserves(h: seq<LedgerEvent>, id: Id)
    ensures Spent(LedgerAfter(h), id) == SinceReset(h, id)
  {
    if h != [] {
      LedgerConserves(h[..|h| - 1], id);
    }
  }
}
