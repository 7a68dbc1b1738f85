/** core/risk_rules.py: thresholds that turn a campaign's ROAS into a budget action. */
module RiskRules {

  datatype Action = Hold | Scale | Kill

  datatype Reason = DirtyData | RoasBelowKill | LearningBand | ModestWinner | StrongWinner | EliteWinner

  datatype RiskDecision = RiskDecision(action: Action, reason: Reason, newBudget: real)

  /** What the allocator passes on about a campaign. */
  datatype Campaign = Campaign(spend: real, clicks: int, ordersClean: bool, hasUtmCampaign: bool)

  datatype Rules = Rules(
    minSpend: real, minClicks: int,
    killRoas: real, holdRoas: real, scaleRoas: real, aggressiveRoas: real,
    maxDrawdown: real)

  const DEFAULTS := Rules(20.0, 50, 0.8, 1.2, 1.8, 2.5, 0.3)

  predicate ValidateData(r: Rules, c: Campaign) {
    c.hasUtmCampaign && c.ordersClean && c.spend >= r.minSpend && c.clicks >= r.minClicks
  }

  predicate ShouldStopForDrawdown(r: Rules, current: real, peak: real) {
    peak > 0.0 && (peak - current) / peak > r.maxDrawdown
  }

  function Decide(r: Rules, roas: real, budget: real, c: Campaign): RiskDecision {
    if !ValidateData(r, c) then RiskDecision(Hold, DirtyData, budget)
    else if roas < r.killRoas then RiskDecision(Kill, RoasBelowKill, 0.0)
    else if roas < r.holdRoas then RiskDecision(Hold, LearningBand, budget)
    else if roas < r.scaleRoas then RiskDecision(Scale, ModestWinner, budget * 1.15)
    else if roas < r.aggressiveRoas then RiskDecision(Scale, StrongWinner, budget * 1.35)
    else RiskDecision(Scale, EliteWinner, budget * 1.60)
  }

  /** The proposed multiple of the current budget never falls as the ROAS rises, once the data are
      good: a better campaign is never treated worse. */
  lemma DecideMonotone(r: Rules, low: real, high: real, budget: real, c: Campaign)
    requires low <= high && budget >= 0.0
    ensures Decide(r, low, budget, c).newBudget <= Decide(r, high, budget, c).newBudget
  {
  }

  /** Every decision, read off the statistics and the thresholds. */
  lemma DecideExactly(r: Rules, roas: real, budget: real, c: Campaign)
    ensures var d := Decide(r, roas, budget, c);
      var good := c.hasUtmCampaign && c.ordersClean && c.spend >= r.minSpend && c.clicks >= r.minClicks;
      && (d.action == Kill <==> good && roas < r.killRoas)
      && (d.action == Scale <==> good && roas >= r.killRoas && roas >= r.holdRoas)
      && (d.action == Kill ==> d.newBudget == 0.0 && d.reason == RoasBelowKill)
      && (d.action == Hold ==> d.newBudget == budget && d.reason == if good then LearningBand else DirtyData)
      && (d.action == Scale && roas < r.scaleRoas ==> d.newBudget == 1.15 * budget && d.reason == ModestWinner)
      && (d.action == Scale && r.scaleRoas <= roas < r.aggressiveRoas ==>
            d.newBudget == 1.35 * budget && d.reason == StrongWinner)
      && (d.action == Scale && roas >= r.scaleRoas && roas >= r.aggressiveRoas ==>
            d.newBudget == 1.6 * budget && d.reason == EliteWinner)
  {
  }

  /** The drawdown stop fires exactly below a fixed fraction of a positive peak. */
  lemma DrawdownThreshold(r: Rules, current: real, peak: real)
    ensures ShouldStopForDrawdown(r, current, peak) <==> peak > 0.0 && current < (1.0 - r.maxDrawdown) * peak
  {
    if peak > 0.0 {
      var q := (peak - current) / peak;
      assert q * peak == peak - current;
      if q > r.maxDrawdown {
        assert q * peak > r.maxDrawdown * peak;
      } else {
        assert q * peak <= r.maxDrawdown * peak;
      }
    }
  }

  /** With the default thresholds, on clean data: kill below 0.8, hold below 1.2, grow by 15 percent
      below 1.8, by 35 below 2.5 and by 60 from there; nothing under a spend of 20 or 50 clicks. */
  lemma DefaultDecisions(roas: real, budget: real, c: Campaign)
    requires c.hasUtmCampaign && c.ordersClean
    ensures c.spend < 20.0 || c.clicks < 50 ==>
      Decide(DEFAULTS, roas, budget, c) == RiskDecision(Hold, DirtyData, budget)
    ensures c.spend >= 20.0 && c.clicks >= 50 ==>
      var rate := if roas < 0.8 then 0.0 else if roas < 1.2 then 1.0 else if roas < 1.8 then 1.15
                  else if roas < 2.5 then 1.35 else 1.6;
      Decide(DEFAULTS, roas, budget, c).newBudget == budget * rate
    ensures ShouldStopForDrawdown(DEFAULTS, 70.0, 100.0) == false && ShouldStopForDrawdown(DEFAULTS, 69.0, 100.0)
  {
  }
}
