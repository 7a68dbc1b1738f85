/** Spend proration in the metrics ingestion of orchestrator/main.py. */
module SpendProration {
  import opened Reals

  type CampaignId = string

  const DAY: real := 86400.0
  const FIRST_WINDOW: real := 3600.0

  /** One observation of a campaign: the wall clock, and whether recording the metric succeeded. */
  datatype Observation = Observation(id: CampaignId, now: real, recorded: bool)

  /** min(max(now - last, 0), 86400) */
  function Elapsed(now: real, last: real): (e: real)
    ensures 0.0 <= e <= DAY
  {
    Min(Max(now - last, 0.0), DAY)
  }

  function LastSeen(seen: map<CampaignId, real>, o: Observation): real {
    if o.id in seen then seen[o.id] else o.now - FIRST_WINDOW
  }

  class SpendMeter {
    var lastMetricTs: map<CampaignId, real>
    ghost var history: seq<Observation>

    ghost predicate Valid()
      reads this
    {
      lastMetricTs == Seen(history)
    }

    constructor ()
      ensures Valid() && history == []
    {
      lastMetricTs, history := map[], [];
    }

    /** The estimate, which is spent only if recording succeeds; the timestamp moves only then. */
    method Observe(o: Observation, budget: real) returns (estimate: real)
      requires Valid()
      modifies this
      ensures Valid() && history == old(history) + [o]
      ensures estimate == Mul(budget, Elapsed(o.now, LastSeen(old(lastMetricTs), o)) / DAY)
      ensures budget >= 0.0 ==> 0.0 <= estimate <= budget
      ensures Spend(history, o.id, budget) == Spend(old(history), o.id, budget) + if o.recorded then estimate else 0.0
    {
      var last := LastSeen(lastMetricTs, o);
      var elapsed := Elapsed(o.now, last);
      estimate := Mul(budget, elapsed / DAY);
      DayFraction(budget, elapsed);
      SpendNext(history, o, budget);
      if o.recorded {
        lastMetricTs := lastMetricTs[o.id := o.now];
      }
      history := history + [o];
    }
  }

  lemma DayFraction(budget: real, elapsed: real)
    requires 0.0 <= elapsed <= DAY
    ensures budget >= 0.0 ==> 0.0 <= Mul(budget, elapsed / DAY) <= budget
  {
    if budget >= 0.0 {
      MulMonotone(budget, 0.0, elapsed / DAY);
      MulMonotone(budget, elapsed / DAY, 1.0);
    }
  }

  /** _campaign_last_metric_ts after these observations. */
  function Seen(h: seq<Observation>): map<CampaignId, real> {
    if h == [] then map[]
    else
      var o := h[|h| - 1];
      if o.recorded then Seen(h[..|h| - 1])[o.id := o.now] else Seen(h[..|h| - 1])
  }

  /** The seconds charged to a campaign: the elapsed times of its recorded observations. */
  function Charged(h: seq<Observation>, id: CampaignId): real {
    if h == [] then 0.0
    else
      var prior, o := h[..|h| - 1], h[|h| - 1];
      Charged(prior, id) + if o.id == id && o.recorded then Elapsed(o.now, LastSeen(Seen(prior), o)) else 0.0
  }

  /** The spend recorded for a campaign whose daily budget does not change. */
  function Spend(h: seq<Observation>, id: CampaignId, budget: real): real {
    if h == [] then 0.0
    else
      var prior, o := h[..|h| - 1], h[|h| - 1];
      Spend(prior, id, budget)
      + if o.id == id && o.recorded then Mul(budget, Elapsed(o.now, LastSeen(Seen(prior), o)) / DAY) else 0.0
  }

  /** The recorded clock readings of one campaign. */
  function Times(h: seq<Observation>, id: CampaignId): seq<real> {
    if h == [] then []
    else
      var o := h[|h| - 1];
      Times(h[..|h| - 1], id) + if o.id == id && o.recorded then [o.now] else []
  }

  /** How far the readings run backwards in all, and how far gaps exceed a day. */
  function Rewound(ts: seq<real>): real {
    if |ts| <= 1 then 0.0 else Rewound(ts[..|ts| - 1]) + Max(ts[|ts| - 2] - ts[|ts| - 1], 0.0)
  }

  function Overlong(ts: seq<real>): real {
    if |ts| <= 1 then 0.0 else Overlong(ts[..|ts| - 1]) + Max(ts[|ts| - 1] - ts[|ts| - 2] - 86400.0, 0.0)
  }

  lemma SpendNext(h: seq<Observation>, o: Observation, budget: real)
    ensures Spend(h + [o], o.id, budget) == Spend(h, o.id, budget)
      + if o.recorded then Mul(budget, Elapsed(o.now, LastSeen(Seen(h), o)) / DAY) else 0.0
    ensures Seen(h + [o]) == if o.recorded then Seen(h)[o.id := o.now] else Seen(h)
  {
    assert (h + [o])[..|h|] == h;
  }

  lemma {:induction false} SpendIsCharged(h: seq<Observation>, id: CampaignId, budget: real)
    ensures Spend(h, id, budget) == Mul(budget, Charged(h, id) / DAY)
  {
    if h != [] {
      SpendIsCharged(h[..|h| - 1], id, budget);
    }
  }

  lemma {:induction false} SeenIsLastTime(h: seq<Observation>, id: CampaignId)
    ensures id in Seen(h) <==> Times(h, id) != []
    ensures id in Seen(h) ==> Seen(h)[id] == Times(h, id)[|Times(h, id)| - 1]
  {
    if h != [] {
      SeenIsLastTime(h[..|h| - 1], id);
    }
  }

  /** Proration telescopes, exactly, for every history: what is charged is the window before the
      first recorded reading plus the span of the readings, plus what a backward clock repeats,
      minus what lies beyond a day. Failed recordings and other campaigns do not matter. */
  lemma {:induction false} ChargedExactly(h: seq<Observation>, id: CampaignId)
    ensures var ts := Times(h, id);
      Charged(h, id) == if ts == [] then 0.0
                        else 3600.0 + (ts[|ts| - 1] - ts[0]) + Rewound(ts) - Overlong(ts)
  {
    if h != [] {
      var prior, o := h[..|h| - 1], h[|h| - 1];
      ChargedExactly(prior, id);
      SeenIsLastTime(prior, id);
      var ts := Times(prior, id);
      if o.id == id && o.recorded {
        var us := ts + [o.now];
        assert Times(h, id) == us && us[..|ts|] == ts;
        if ts == [] {
          assert Elapsed(o.now, LastSeen(Seen(prior), o)) == FIRST_WINDOW;
        } else {
          var last := ts[|ts| - 1];
          assert us[|us| - 2] == last && us[0] == ts[0] && LastSeen(Seen(prior), o) == last;
        }
      } else {
        assert Times(h, id) == ts;
      }
    }
  }

  /** The readings never run backwards and are at most a day apart. */
  predicate Regular(ts: seq<real>) {
    forall i {:trigger ts[i]} :: 0 < i < |ts| ==> ts[i - 1] <= ts[i] <= ts[i - 1] + 86400.0
  }

  lemma {:induction false} RegularHasNoCorrections(ts: seq<real>)
    ensures Rewound(ts) >= 0.0 && Overlong(ts) >= 0.0
    ensures Regular(ts) <==> Rewound(ts) == 0.0 && Overlong(ts) == 0.0
  {
    if |ts| > 1 {
      var init := ts[..|ts| - 1];
      RegularHasNoCorrections(init);
      assert forall i :: 0 <= i < |init| ==> init[i] == ts[i];
    }
  }

  /** With a regular clock the total estimate depends only on the first and last reading, however
      the interval between them is subdivided. */
  lemma SpendTelescopes(h: seq<Observation>, id: CampaignId, budget: real)
    requires Times(h, id) != [] && Regular(Times(h, id))
    ensures var ts := Times(h, id); Spend(h, id, budget) == Mul(budget, (3600.0 + (ts[|ts| - 1] - ts[0])) / 86400.0)
  {
    SpendIsCharged(h, id, budget);
    ChargedExactly(h, id);
    RegularHasNoCorrections(Times(h, id));
  }

  /** With a clock that never runs backwards the estimate never exceeds the true span. */
  lemma ChargedAtMostSpan(h: seq<Observation>, id: CampaignId)
    requires Times(h, id) != [] && Rewound(Times(h, id)) == 0.0
    ensures var ts := Times(h, id); Charged(h, id) <= 3600.0 + (ts[|ts| - 1] - ts[0])
  {
    ChargedExactly(h, id);
    RegularHasNoCorrections(Times(h, id));
  }
}
