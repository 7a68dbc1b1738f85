/** core/budget_allocator.py: daily budgets for all campaigns under a total. */
module BudgetAllocator {
  import opened Reals
  import opened RiskRules

  type CampaignId = string

  datatype Plan = Plan(id: CampaignId, action: Action, currentBudget: real, newBudget: real, ruleBudget: real)

  datatype Limits = Limits(maxDailyBudget: real, maxTotalIncrease: real, minBudget: real, maxShare: real)

  /** One entry of campaign_stats with its current budget, if any. */
  datatype Stats = Stats(id: CampaignId, roas: real, campaign: Campaign)

  function CurrentBudget(budgets: map<CampaignId, real>, id: CampaignId, l: Limits): real {
    if id in budgets then budgets[id] else l.minBudget
  }

  /** A scaled budget under the share and daily-increase caps. */
  function Capped(l: Limits, proposal: real, current: real): real {
    Min(Min(proposal, Mul(l.maxDailyBudget, l.maxShare)), Mul(current, 1.0 + l.maxTotalIncrease))
  }

  function Total(plans: seq<Plan>): real {
    if plans == [] then 0.0 else Total(plans[..|plans| - 1]) + plans[|plans| - 1].newBudget
  }

  /** The budgets of held campaigns, counting negative ones as zero. */
  function Held(plans: seq<Plan>): real {
    if plans == [] then 0.0
    else
      var last := plans[|plans| - 1];
      Held(plans[..|plans| - 1]) + if last.action == Hold then Max(last.newBudget, 0.0) else 0.0
  }

  function Scaled(plans: seq<Plan>): nat {
    if plans == [] then 0 else Scaled(plans[..|plans| - 1]) + if plans[|plans| - 1].action == Scale then 1 else 0
  }

  /** The budget a decision turns into, given the total planned before it. */
  function Granted(d: RiskDecision, current: real, before: real, l: Limits): real {
    match d.action
    case Hold => current
    case Kill => 0.0
    case Scale =>
      var capped := Capped(l, d.newBudget, current);
      if before + capped > l.maxDailyBudget then Max(l.minBudget, l.maxDailyBudget - before) else capped
  }

  function PlanFor(s: Stats, before: real, r: Rules, l: Limits, budgets: map<CampaignId, real>): Plan {
    var current := CurrentBudget(budgets, s.id, l);
    var d := Decide(r, s.roas, current, s.campaign);
    Plan(s.id, d.action, current, Granted(d, current, before, l), d.newBudget)
  }

  /** The plans of the campaigns in order. */
  function Plans(stats: seq<Stats>, r: Rules, l: Limits, budgets: map<CampaignId, real>): (plans: seq<Plan>)
    ensures |plans| == |stats|
  {
    if stats == [] then []
    else
      var prior := Plans(stats[..|stats| - 1], r, l, budgets);
      prior + [PlanFor(stats[|stats| - 1], Total(prior), r, l, budgets)]
  }

  function KillAll(order: seq<CampaignId>, budgets: map<CampaignId, real>): seq<Plan>
    requires forall id :: id in order ==> id in budgets
  {
    seq(|order|, i requires 0 <= i < |order| => Plan(order[i], Kill, budgets[order[i]], 0.0, 0.0))
  }

  /** What the total can exceed the daily budget by is bounded by what was held and the floor. */
  predicate WithinBound(plans: seq<Plan>, l: Limits) {
    Total(plans) <= Max(l.maxDailyBudget, 0.0) + Held(plans) + Mul(Real(Scaled(plans)), Max(l.minBudget, 0.0))
  }

  /** allocate: under a drawdown every budgeted campaign is killed, in the order of the budget map;
      otherwise the campaigns are planned in the order of their statistics. */
  method Allocate(stats: seq<Stats>, order: seq<CampaignId>, budgets: map<CampaignId, real>,
                  peak: real, equity: real, r: Rules, l: Limits) returns (plans: seq<Plan>)
    requires forall id :: id in order ==> id in budgets
    ensures ShouldStopForDrawdown(r, equity, peak) ==>
      && |plans| == |order|
      && forall i :: 0 <= i < |order| ==> plans[i] == Plan(order[i], Kill, budgets[order[i]], 0.0, 0.0)
    ensures !ShouldStopForDrawdown(r, equity, peak) ==> plans == Plans(stats, r, l, budgets) && WithinBound(plans, l)
  {
    if ShouldStopForDrawdown(r, equity, peak) {
      plans := KillEverything(order, budgets);
    } else {
      plans := PlanAll(stats, budgets, r, l);
      TotalBounded(stats, r, l, budgets);
    }
  }

  method KillEverything(order: seq<CampaignId>, budgets: map<CampaignId, real>) returns (plans: seq<Plan>)
    requires forall id :: id in order ==> id in budgets
    ensures plans == KillAll(order, budgets)
  {
    plans := [];
    for i := 0 to |order|
      invariant plans == KillAll(order[..i], budgets)
    {
      plans := plans + [Plan(order[i], Kill, budgets[order[i]], 0.0, 0.0)];
    }
    assert order[..|order|] == order;
  }

  method PlanAll(stats: seq<Stats>, budgets: map<CampaignId, real>, r: Rules, l: Limits) returns (plans: seq<Plan>)
    ensures plans == Plans(stats, r, l, budgets)
  {
    plans := [];
    var proposedTotal := 0.0;
    for i := 0 to |stats|
      invariant plans == Plans(stats[..i], r, l, budgets) && proposedTotal == Total(plans)
    {
      var p := PlanOne(stats[i], proposedTotal, budgets, r, l);
      PlanAppended(stats, i, p, r, l, budgets);
      proposedTotal := proposedTotal + p.newBudget;
      plans := plans + [p];
    }
    assert stats[..|stats|] == stats;
  }

  lemma PlanAppended(stats: seq<Stats>, i: nat, p: Plan, r: Rules, l: Limits, budgets: map<CampaignId, real>)
    requires i < |stats| && p == PlanFor(stats[i], Total(Plans(stats[..i], r, l, budgets)), r, l, budgets)
    ensures Plans(stats[..i + 1], r, l, budgets) == Plans(stats[..i], r, l, budgets) + [p]
    ensures Total(Plans(stats[..i + 1], r, l, budgets)) == Total(Plans(stats[..i], r, l, budgets)) + p.newBudget
  {
    assert stats[..i + 1][..i] == stats[..i];
    var prior := Plans(stats[..i], r, l, budgets);
    assert (prior + [p])[..|prior|] == prior;
  }

  /** The body of the loop: the caps, the remaining total and the floor, in turn. */
  method PlanOne(s: Stats, proposedTotal: real, budgets: map<CampaignId, real>, r: Rules, l: Limits) returns (p: Plan)
    ensures p == PlanFor(s, proposedTotal, r, l, budgets)
  {
    var current := CurrentBudget(budgets, s.id, l);
    var d := Decide(r, s.roas, current, s.campaign);
    var newBudget := d.newBudget;
    if d.action == Scale {
      newBudget := Min(newBudget, Mul(l.maxDailyBudget, l.maxShare));
      newBudget := Min(newBudget, Mul(current, 1.0 + l.maxTotalIncrease));
      if proposedTotal + newBudget > l.maxDailyBudget {
        newBudget := Max(l.minBudget, l.maxDailyBudget - proposedTotal);
      }
    } else if d.action == Hold {
      newBudget := current;
    } else {
      newBudget := 0.0;
    }
    p := Plan(s.id, d.action, current, newBudget, d.newBudget);
  }

  /** One grant: a scaled campaign never gets more than the floor or all three caps, never takes
      the total past both the daily budget and the floor, and gets all its caps allow unless it
      uses up the daily budget. */
  lemma GrantBounded(d: RiskDecision, current: real, before: real, l: Limits)
    ensures d.action == Scale ==> Granted(d, current, before, l) <= Max(l.minBudget, Capped(l, d.newBudget, current))
    ensures d.action == Scale ==>
      before + Granted(d, current, before, l) <= Max(l.maxDailyBudget, before + Max(l.minBudget, 0.0))
    ensures d.action == Scale ==>
      || Granted(d, current, before, l) == Capped(l, d.newBudget, current)
      || before + Granted(d, current, before, l) >= l.maxDailyBudget
  {
  }

  /** Without any assumption on the inputs: the total overshoots the daily budget by at most what
      was held plus the floor once per scaled campaign. */
  lemma {:induction false} TotalBounded(stats: seq<Stats>, r: Rules, l: Limits, budgets: map<CampaignId, real>)
    ensures WithinBound(Plans(stats, r, l, budgets), l) && Held(Plans(stats, r, l, budgets)) >= 0.0
  {
    if stats != [] {
      var s := stats[|stats| - 1];
      var prior := Plans(stats[..|stats| - 1], r, l, budgets);
      TotalBounded(stats[..|stats| - 1], r, l, budgets);
      BoundExtends(prior, s, r, l, budgets);
    } else {
      MulSucc(0, Max(l.minBudget, 0.0));
    }
  }

  lemma BoundExtends(prior: seq<Plan>, s: Stats, r: Rules, l: Limits, budgets: map<CampaignId, real>)
    requires WithinBound(prior, l) && Held(prior) >= 0.0
    ensures var plans := prior + [PlanFor(s, Total(prior), r, l, budgets)]; WithinBound(plans, l) && Held(plans) >= 0.0
  {
    var p := PlanFor(s, Total(prior), r, l, budgets);
    PlanGranted(s, Total(prior), r, l, budgets);
    SumsExtend(prior, p);
    MulSucc(Scaled(prior), Max(l.minBudget, 0.0));
    MulSign(Real(Scaled(prior)), Max(l.minBudget, 0.0));
  }

  lemma SumsExtend(prior: seq<Plan>, p: Plan)
    ensures Total(prior + [p]) == Total(prior) + p.newBudget
    ensures Held(prior + [p]) == Held(prior) + if p.action == Hold then Max(p.newBudget, 0.0) else 0.0
    ensures Scaled(prior + [p]) == Scaled(prior) + if p.action == Scale then 1 else 0
  {
    assert (prior + [p])[..|prior|] == prior;
  }

  lemma PlanGranted(s: Stats, before: real, r: Rules, l: Limits, budgets: map<CampaignId, real>)
    ensures var p := PlanFor(s, before, r, l, budgets);
      && (p.action == Kill ==> p.newBudget == 0.0)
      && (p.action == Scale ==> before + p.newBudget <= Max(l.maxDailyBudget, before + Max(l.minBudget, 0.0)))
  {
    var current := CurrentBudget(budgets, s.id, l);
    GrantBounded(Decide(r, s.roas, current, s.campaign), current, before, l);
  }

  /** Every plan of a run, in its place: it was granted on top of the plans before it. */
  lemma {:induction false} PlanInPlace(stats: seq<Stats>, r: Rules, l: Limits, budgets: map<CampaignId, real>, i: nat)
    requires i < |stats|
    ensures var plans := Plans(stats, r, l, budgets);
      && plans[i] == PlanFor(stats[i], Total(plans[..i]), r, l, budgets)
      && Total(plans[..i + 1]) == Total(plans[..i]) + plans[i].newBudget
  {
    var last := |stats| - 1;
    var prior, plans := Plans(stats[..last], r, l, budgets), Plans(stats, r, l, budgets);
    assert plans[..last] == prior;
    if i < last {
      PlanInPlace(stats[..last], r, l, budgets, i);
      assert plans[..i] == prior[..i] && plans[..i + 1] == prior[..i + 1];
    } else {
      assert plans[..i + 1] == plans;
    }
  }

  /** What becomes of each campaign, from its statistics, its budget and the thresholds: killed exactly
      when clean data show a ROAS below the kill threshold, scaled exactly when they show one past the
      hold threshold, by 15, 35 or 60 percent before the caps, and otherwise left alone. When money runs
      short a scaled campaign gets the rest or the floor, whichever is more. */
  lemma PlanFromStatistics(stats: seq<Stats>, r: Rules, l: Limits, budgets: map<CampaignId, real>, i: nat)
    requires i < |stats|
    ensures var plans := Plans(stats, r, l, budgets);
      FollowsRules(plans[i], stats[i], r, l, budgets) && PaidFrom(plans[i], Total(plans[..i]), l)
  {
    PlanInPlace(stats, r, l, budgets, i);
    PlanFollowsRules(stats[i], Total(Plans(stats, r, l, budgets)[..i]), r, l, budgets);
  }

  /** The data say something: a tag, clean orders, enough spend and enough clicks. */
  predicate GoodData(c: Campaign, r: Rules) {
    c.hasUtmCampaign && c.ordersClean && c.spend >= r.minSpend && c.clicks >= r.minClicks
  }

  predicate FollowsRules(p: Plan, s: Stats, r: Rules, l: Limits, budgets: map<CampaignId, real>) {
    var rate := if s.roas < r.scaleRoas then 1.15 else if s.roas < r.aggressiveRoas then 1.35 else 1.6;
    && p.id == s.id && p.currentBudget == (if s.id in budgets then budgets[s.id] else l.minBudget)
    && (p.action == Kill <==> GoodData(s.campaign, r) && s.roas < r.killRoas)
    && (p.action == Scale <==> GoodData(s.campaign, r) && s.roas >= r.killRoas && s.roas >= r.holdRoas)
    && (p.action == Kill ==> p.newBudget == 0.0)
    && (p.action == Hold ==> p.newBudget == p.currentBudget)
    && (p.action == Scale ==> p.ruleBudget == p.currentBudget * rate)
  }

  predicate PaidFrom(p: Plan, before: real, l: Limits) {
    var capped := Capped(l, p.ruleBudget, p.currentBudget);
    p.action == Scale ==>
      && (before + capped <= l.maxDailyBudget ==> p.newBudget == capped)
      && (before + capped > l.maxDailyBudget ==> p.newBudget == Max(l.minBudget, l.maxDailyBudget - before))
  }

  lemma PlanFollowsRules(s: Stats, before: real, r: Rules, l: Limits, budgets: map<CampaignId, real>)
    ensures FollowsRules(PlanFor(s, before, r, l, budgets), s, r, l, budgets)
    ensures PaidFrom(PlanFor(s, before, r, l, budgets), before, l)
  {
  }

  /** The three caps, none forgotten and nothing below the least of them. */
  lemma CappedIsLeast(l: Limits, proposal: real, current: real)
    ensures var c := Capped(l, proposal, current);
      && c <= proposal && c <= l.maxShare * l.maxDailyBudget && c <= (1.0 + l.maxTotalIncrease) * current
      && (c == proposal || c == l.maxShare * l.maxDailyBudget || c == (1.0 + l.maxTotalIncrease) * current)
  {
    assert Mul(l.maxDailyBudget, l.maxShare) == l.maxShare * l.maxDailyBudget;
    assert Mul(current, 1.0 + l.maxTotalIncrease) == (1.0 + l.maxTotalIncrease) * current;
  }

  /** For instance, by the default thresholds, a clean campaign that earns half its spend. */
  lemma LosingCampaignKilled(l: Limits)
    ensures Plans([Stats("a", 0.5, Campaign(100.0, 100, true, true))], DEFAULTS, l, map["a" := 20.0]) ==
      [Plan("a", Kill, 20.0, 0.0, 0.0)]
  {
    var s, budgets := Stats("a", 0.5, Campaign(100.0, 100, true, true)), map["a" := 20.0];
    assert [s][..0] == [] && Plans([], DEFAULTS, l, budgets) == [];
    assert [] + [PlanFor(s, 0.0, DEFAULTS, l, budgets)] == [Plan("a", Kill, 20.0, 0.0, 0.0)];
  }

  /** What each action may grant in a run, and that money is withheld from a scaled campaign only
      when the running total has reached the daily budget. */
  lemma EachPlanBounded(stats: seq<Stats>, r: Rules, l: Limits, budgets: map<CampaignId, real>, i: nat)
    requires i < |stats|
    ensures var plans := Plans(stats, r, l, budgets);
      var p := plans[i];
      && p.id == stats[i].id && p.currentBudget == CurrentBudget(budgets, stats[i].id, l)
      && (p.action == Scale ==> p.newBudget <= Max(l.minBudget, Capped(l, p.ruleBudget, p.currentBudget)))
      && (p.action == Scale && p.newBudget != Capped(l, p.ruleBudget, p.currentBudget) ==>
           Total(plans[..i + 1]) >= l.maxDailyBudget)
      && (p.action == Hold ==> p.newBudget == p.currentBudget)
      && (p.action == Kill ==> p.newBudget == 0.0)
  {
    PlanInPlace(stats, r, l, budgets, i);
    var current := CurrentBudget(budgets, stats[i].id, l);
    var before := Total(Plans(stats, r, l, budgets)[..i]);
    GrantBounded(Decide(r, stats[i].roas, current, stats[i].campaign), current, before, l);
  }

  // The exact condition, from the inputs ------------------------------------------------------

  /** What a campaign asks for: its held budget, or all that its own caps allow. */
  function Demand(s: Stats, r: Rules, l: Limits, budgets: map<CampaignId, real>): real {
    var current := CurrentBudget(budgets, s.id, l);
    var d := Decide(r, s.roas, current, s.campaign);
    match d.action
    case Hold => current
    case Kill => 0.0
    case Scale => Capped(l, d.newBudget, current)
  }

  /** What it gets however little is left: its held budget, or its demand up to the floor. */
  function Must(s: Stats, r: Rules, l: Limits, budgets: map<CampaignId, real>): real {
    var current := CurrentBudget(budgets, s.id, l);
    var d := Decide(r, s.roas, current, s.campaign);
    match d.action
    case Hold => current
    case Kill => 0.0
    case Scale => Min(Capped(l, d.newBudget, current), l.minBudget)
  }

  function Demands(stats: seq<Stats>, r: Rules, l: Limits, budgets: map<CampaignId, real>): real {
    if stats == [] then 0.0
    else Demands(stats[..|stats| - 1], r, l, budgets) + Demand(stats[|stats| - 1], r, l, budgets)
  }

  /** Whoever must get something gets it within the daily budget on top of all earlier demands. */
  predicate MustsFit(stats: seq<Stats>, r: Rules, l: Limits, budgets: map<CampaignId, real>) {
    stats == [] ||
    (var prior, s := stats[..|stats| - 1], stats[|stats| - 1];
     && MustsFit(prior, r, l, budgets)
     && (Must(s, r, l, budgets) > 0.0 ==> Demands(prior, r, l, budgets) + Must(s, r, l, budgets) <= l.maxDailyBudget))
  }

  /** The total respects the daily budget if and only if every must fits on top of the demands
      before it, and then the total is the demands cut off at the daily budget. */
  lemma {:induction false} TotalWithinBudgetIff(stats: seq<Stats>, r: Rules, l: Limits, budgets: map<CampaignId, real>)
    requires l.maxDailyBudget >= 0.0 && l.minBudget >= 0.0
    requires forall s :: s in stats ==> Demand(s, r, l, budgets) >= 0.0
    ensures Total(Plans(stats, r, l, budgets)) <= l.maxDailyBudget <==> MustsFit(stats, r, l, budgets)
    ensures MustsFit(stats, r, l, budgets) ==>
      Total(Plans(stats, r, l, budgets)) == Min(Demands(stats, r, l, budgets), l.maxDailyBudget)
    ensures Demands(stats, r, l, budgets) >= 0.0
  {
    if stats != [] {
      var init, s := stats[..|stats| - 1], stats[|stats| - 1];
      var prior := Plans(init, r, l, budgets);
      TotalWithinBudgetIff(init, r, l, budgets);
      assert Plans(stats, r, l, budgets)[..|prior|] == prior;
      if Total(prior) <= l.maxDailyBudget {
        GrantFits(s, Demands(init, r, l, budgets), r, l, budgets);
      } else {
        GrantNonNegative(s, Total(prior), r, l, budgets);
      }
    }
  }

  /** One campaign after demands that were met as far as the daily budget goes. */
  lemma GrantFits(s: Stats, demands: real, r: Rules, l: Limits, budgets: map<CampaignId, real>)
    requires demands >= 0.0 && Demand(s, r, l, budgets) >= 0.0 && l.maxDailyBudget >= 0.0 && l.minBudget >= 0.0
    ensures var before := Min(demands, l.maxDailyBudget);
      var total := before + PlanFor(s, before, r, l, budgets).newBudget;
      var must := Must(s, r, l, budgets);
      && (total <= l.maxDailyBudget <==> (must > 0.0 ==> demands + must <= l.maxDailyBudget))
      && (total <= l.maxDailyBudget ==> total == Min(demands + Demand(s, r, l, budgets), l.maxDailyBudget))
  {
  }

  lemma GrantNonNegative(s: Stats, before: real, r: Rules, l: Limits, budgets: map<CampaignId, real>)
    requires Demand(s, r, l, budgets) >= 0.0 && l.minBudget >= 0.0
    ensures PlanFor(s, before, r, l, budgets).newBudget >= 0.0
  {
  }

  /** Demands are not negative when neither the campaign's budget nor the limits are. */
  lemma DemandNonNegative(s: Stats, r: Rules, l: Limits, budgets: map<CampaignId, real>)
    requires CurrentBudget(budgets, s.id, l) >= 0.0
    requires l.maxDailyBudget >= 0.0 && l.maxShare >= 0.0 && l.maxTotalIncrease >= -1.0
    ensures Demand(s, r, l, budgets) >= 0.0
  {
    MulSign(l.maxDailyBudget, l.maxShare);
    MulSign(CurrentBudget(budgets, s.id, l), 1.0 + l.maxTotalIncrease);
  }

  /** The daily budget alone is not a bound: one held campaign can already exceed it. */
  lemma TotalCanExceed()
    ensures var l := Limits(50.0, 0.3, 5.0, 0.35);
      Total(Plans([Stats("a", 2.0, Campaign(0.0, 0, false, true))], DEFAULTS, l, map["a" := 60.0])) > l.maxDailyBudget
  {
    var l, budgets := Limits(50.0, 0.3, 5.0, 0.35), map["a" := 60.0];
    var s := Stats("a", 2.0, Campaign(0.0, 0, false, true));
    assert [s][..0] == [];
    var plans := Plans([s], DEFAULTS, l, budgets);
    assert plans == [PlanFor(s, 0.0, DEFAULTS, l, budgets)] && plans[..0] == [];
  }
}
