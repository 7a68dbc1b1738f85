/** agents/arbitration.py: several agents' decisions resolved into one. */
module Arbitration {
  import opened Wrappers

  /** A string, told apart only from those the code compares with: agents, axes and actions. */
  datatype Name = Empty | Risk | Scaling | Budget | Kill | Pause | Hold | NoAgent | Other(text: string)

  /** overrides is metadata.get("override", False). */
  datatype Decision = Decision(agent: Name, action: Name, confidence: real, overrides: bool)

  /** The list may hold anything; only AgentDecisions with a name are valid. */
  datatype Item = IsDecision(d: Decision) | Foreign

  datatype Tier = Veto | Consensus | Fallback

  datatype AxisOutcome = AxisOutcome(action: Name, confidence: real, winner: Name, superseded: bool)

  datatype Verdict = Verdict(tier: Tier, primary: Name, outcomes: map<Name, AxisOutcome>, unresolved: bool)

  const EPSILON: real := 0.000000001

  function AxisOf(agent: Name): Name {
    if agent == Risk || agent == Scaling then Budget else agent
  }

  predicate Halts(action: Name) {
    action == Kill || action == Pause
  }

  /** RiskAgent.is_override */
  predicate IsOverride(d: Decision) {
    Halts(d.action) && d.overrides
  }

  function Valid(items: seq<Item>): seq<Decision> {
    if items == [] then []
    else Valid(items[..|items| - 1]) +
         (if items[|items| - 1].IsDecision? && items[|items| - 1].d.agent != Empty then [items[|items| - 1].d] else [])
  }

  /** The decisions on one axis, in input order. */
  function Group(ds: seq<Decision>, axis: Name): seq<Decision> {
    if ds == [] then []
    else Group(ds[..|ds| - 1], axis) + (if AxisOf(ds[|ds| - 1].agent) == axis then [ds[|ds| - 1]] else [])
  }

  function Halters(ds: seq<Decision>): seq<Decision> {
    if ds == [] then []
    else Halters(ds[..|ds| - 1]) + (if Halts(ds[|ds| - 1].action) then [ds[|ds| - 1]] else [])
  }

  /** The index Python's max picks: the first of the highest confidence. */
  function MaxIndex(ds: seq<Decision>): (k: nat)
    requires ds != []
    ensures k < |ds|
    ensures forall j :: 0 <= j < |ds| ==> ds[j].confidence <= ds[k].confidence
    ensures forall j :: 0 <= j < k ==> ds[j].confidence < ds[k].confidence
  {
    if |ds| == 1 then 0
    else
      var k := MaxIndex(ds[..|ds| - 1]);
      if ds[|ds| - 1].confidence > ds[k].confidence then |ds| - 1 else k
  }

  function Remove(ds: seq<Decision>, k: nat): seq<Decision>
    requires k < |ds|
  {
    ds[..k] + ds[k + 1..]
  }

  /** sorted(ds, key=confidence, reverse=True), which is stable. */
  function Ranked(ds: seq<Decision>): (r: seq<Decision>)
    ensures |r| == |ds|
    decreases |ds|
  {
    if ds == [] then [] else [ds[MaxIndex(ds)]] + Ranked(Remove(ds, MaxIndex(ds)))
  }

  predicate Unanimous(ds: seq<Decision>) {
    forall i, j :: 0 <= i < |ds| && 0 <= j < |ds| ==> ds[i].action == ds[j].action
  }

  function Outcome(d: Decision): AxisOutcome {
    AxisOutcome(d.action, d.confidence, d.agent, false)
  }

  /** _resolve_axis: the outcome of one axis and whether it is ambiguous. */
  function ResolveAxis(group: seq<Decision>): (AxisOutcome, bool)
    requires group != []
  {
    if |group| == 1 then (Outcome(group[0]), false)
    else if Unanimous(group) then (Outcome(group[MaxIndex(group)]), false)
    else if Halters(group) != [] then (Outcome(Halters(group)[MaxIndex(Halters(group))]), false)
    else
      var ranked := Ranked(group);
      var top, runnerUp := ranked[0], ranked[1];
      if Abs(top.confidence - runnerUp.confidence) < EPSILON then
        (AxisOutcome(Hold, 0.0, NoAgent, false), true)
      else (Outcome(top), false)
  }

  function Abs(x: real): real {
    if x < 0.0 then -x else x
  }

  function FallbackVerdict(): Verdict {
    Verdict(Fallback, Hold, map[], true)
  }

  /** The axes in the order their first decision appears. */
  function Axes(ds: seq<Decision>): seq<Name> {
    if ds == [] then []
    else
      var prior, axis := Axes(ds[..|ds| - 1]), AxisOf(ds[|ds| - 1].agent);
      if axis in prior then prior else prior + [axis]
  }

  /** Whether the budget axis halts spend, given which axes there are. */
  predicate BudgetHalts(ds: seq<Decision>) {
    Group(ds, Budget) != [] && Halts(ResolveAxis(Group(ds, Budget)).0.action)
  }

  /** The risk decision tier 0 looks at: the first one. */
  function FirstRisk(ds: seq<Decision>): Option<Decision> {
    if ds == [] then None
    else
      var earlier := FirstRisk(ds[..|ds| - 1]);
      if earlier.Some? then earlier else if ds[|ds| - 1].agent == Risk then Some(ds[|ds| - 1]) else None
  }

  function Vetoes(ds: seq<Decision>): bool {
    FirstRisk(ds).Some? && IsOverride(FirstRisk(ds).value)
  }

  /** What the loops of _arbitrate compute, axis by axis. */
  function ConsensusOutcome(ds: seq<Decision>, axis: Name): AxisOutcome
    requires Group(ds, axis) != []
  {
    ResolveAxis(Group(ds, axis)).0.(superseded := axis != Budget && BudgetHalts(ds))
  }

  lemma {:induction false} AxesAreGroups(ds: seq<Decision>, axis: Name)
    ensures axis in Axes(ds) <==> Group(ds, axis) != []
  {
    if ds != [] {
      AxesAreGroups(ds[..|ds| - 1], axis);
    }
  }

  predicate Ambiguous(ds: seq<Decision>, axis: Name) {
    Group(ds, axis) != [] && ResolveAxis(Group(ds, axis)).1
  }

  /** The verdict on the valid decisions. */
  function Arbitrated(ds: seq<Decision>): Verdict {
    if ds == [] then FallbackVerdict()
    else if Vetoes(ds) then
      var d := FirstRisk(ds).value;
      Verdict(Veto, d.action, map[Budget := Outcome(d)], false)
    else
      Verdict(
        Consensus,
        if Group(ds, Budget) != [] then ResolveAxis(Group(ds, Budget)).0.action else Hold,
        ConsensusOutcomes(ds),
        exists axis | axis in Axes(ds) :: Ambiguous(ds, axis))
  }

  function ConsensusOutcomes(ds: seq<Decision>): (outcomes: map<Name, AxisOutcome>)
    ensures forall axis :: axis in outcomes <==> axis in Axes(ds)
  {
    map axis | axis in Axes(ds) :: (AxesAreGroups(ds, axis); ConsensusOutcome(ds, axis))
  }

  lemma OutcomeOnAxis(ds: seq<Decision>, axis: Name)
    ensures axis in ConsensusOutcomes(ds) <==> Group(ds, axis) != []
    ensures Group(ds, axis) != [] ==> ConsensusOutcomes(ds)[axis] == ConsensusOutcome(ds, axis)
  {
    AxesAreGroups(ds, axis);
  }

  /** arbitrate: total, whatever the list holds. */
  method Arbitrate(items: seq<Item>) returns (v: Verdict)
    ensures v == Arbitrated(Valid(items))
  {
    var ds := Valid(items);
    if ds == [] {
      return FallbackVerdict();
    }
    var risk := FirstRisk(ds);
    if risk.Some? && IsOverride(risk.value) {
      return Verdict(Veto, risk.value.action, map[Budget := Outcome(risk.value)], false);
    }
    v := ReachConsensus(ds);
  }

  method ReachConsensus(ds: seq<Decision>) returns (v: Verdict)
    requires ds != [] && !Vetoes(ds)
    ensures v == Arbitrated(ds)
  {
    var axes, byAxis := GroupByAxis(ds);
    var outcomes, unresolved := ResolveAll(ds, axes, byAxis);
    assert Resolved(ds, outcomes);
    var primary := if Budget in outcomes then outcomes[Budget].action else Hold;
    BudgetFirst(ds, outcomes);
    var final := outcomes;
    if Budget in outcomes && Halts(outcomes[Budget].action) {
      final := Supersede(axes, outcomes);
    }
    OutcomesAssembled(ds, outcomes, final);
    v := Verdict(Consensus, primary, final, unresolved);
  }

  ghost predicate Resolved(ds: seq<Decision>, outcomes: map<Name, AxisOutcome>) {
    && (forall axis :: axis in outcomes <==> axis in Axes(ds))
    && forall axis :: axis in outcomes ==> ResolvedOn(ds, axis, outcomes[axis])
  }

  predicate ResolvedOn(ds: seq<Decision>, axis: Name, o: AxisOutcome) {
    Group(ds, axis) != [] && o == ResolveAxis(Group(ds, axis)).0
  }

  lemma BudgetFirst(ds: seq<Decision>, outcomes: map<Name, AxisOutcome>)
    requires Resolved(ds, outcomes)
    ensures Budget in outcomes && Halts(outcomes[Budget].action) <==> BudgetHalts(ds)
    ensures (if Budget in outcomes then outcomes[Budget].action else Hold)
         == (if Group(ds, Budget) != [] then ResolveAxis(Group(ds, Budget)).0.action else Hold)
  {
    AxesAreGroups(ds, Budget);
    assert Budget in outcomes ==> ResolvedOn(ds, Budget, outcomes[Budget]);
  }

  lemma OutcomesAssembled(ds: seq<Decision>, outcomes: map<Name, AxisOutcome>, final: map<Name, AxisOutcome>)
    requires Resolved(ds, outcomes) && final.Keys == outcomes.Keys
    requires forall axis :: axis in outcomes ==>
      final[axis] == if BudgetHalts(ds) && axis != Budget then outcomes[axis].(superseded := true) else outcomes[axis]
    ensures final == ConsensusOutcomes(ds)
  {
    var whole := ConsensusOutcomes(ds);
    assert final.Keys == whole.Keys;
    forall axis | axis in final ensures final[axis] == whole[axis] {
      OutcomeAssembled(ds, axis, outcomes[axis]);
    }
  }

  lemma OutcomeAssembled(ds: seq<Decision>, axis: Name, o: AxisOutcome)
    requires ResolvedOn(ds, axis, o)
    ensures axis in ConsensusOutcomes(ds)
    ensures ConsensusOutcomes(ds)[axis] == if BudgetHalts(ds) && axis != Budget then o.(superseded := true) else o
  {
    OutcomeOnAxis(ds, axis);
    NotYetSuperseded(Group(ds, axis));
  }

  lemma NotYetSuperseded(g: seq<Decision>)
    requires g != []
    ensures !ResolveAxis(g).0.superseded
  {
  }

  /** by_axis with its keys in insertion order. */
  method GroupByAxis(ds: seq<Decision>) returns (axes: seq<Name>, byAxis: map<Name, seq<Decision>>)
    ensures axes == Axes(ds)
    ensures forall axis :: axis in byAxis <==> axis in axes
    ensures forall axis :: axis in axes ==> byAxis[axis] == Group(ds, axis) != []
  {
    axes, byAxis := [], map[];
    for i := 0 to |ds|
      invariant axes == Axes(ds[..i])
      invariant forall axis :: axis in byAxis <==> axis in axes
      invariant forall axis :: (axis in axes ==> byAxis[axis] == Group(ds[..i], axis) != [])
                               && (axis !in axes ==> Group(ds[..i], axis) == [])
    {
      assert ds[..i + 1][..i] == ds[..i];
      var axis := AxisOf(ds[i].agent);
      if axis !in byAxis {
        axes, byAxis := axes + [axis], byAxis[axis := []];
      }
      byAxis := byAxis[axis := byAxis[axis] + [ds[i]]];
    }
    assert ds[..|ds|] == ds;
  }

  method ResolveAll(ghost ds: seq<Decision>, axes: seq<Name>, byAxis: map<Name, seq<Decision>>)
    returns (outcomes: map<Name, AxisOutcome>, unresolved: bool)
    requires forall axis :: axis in axes ==> axis in byAxis && byAxis[axis] == Group(ds, axis) != []
    ensures forall axis :: axis in outcomes <==> axis in axes
    ensures forall axis :: axis in axes ==> ResolvedOn(ds, axis, outcomes[axis])
    ensures unresolved <==> exists axis | axis in axes :: Ambiguous(ds, axis)
  {
    outcomes, unresolved := map[], false;
    ghost var unclear := set axis | axis in axes && Ambiguous(ds, axis);
    for i := 0 to |axes|
      invariant ResolvedUpTo(ds, axes, i, outcomes)
      invariant unresolved <==> MeetsUpTo(unclear, axes, i)
    {
      var (outcome, ambiguous) := ResolveAxis(byAxis[axes[i]]);
      ResolvedNext(ds, axes, i, outcomes, outcome);
      outcomes := outcomes[axes[i] := outcome];
      assert ambiguous <==> axes[i] in unclear;
      unresolved := unresolved || ambiguous;
    }
    AllResolved(ds, axes, outcomes);
    MeetsSomewhere(unclear, axes, |axes|);
  }

  /** The first i axes have their outcomes. */
  ghost predicate ResolvedUpTo(ds: seq<Decision>, axes: seq<Name>, i: nat, outcomes: map<Name, AxisOutcome>) {
    && i <= |axes|
    && (forall axis :: axis in outcomes ==> axis in axes)
    && forall j :: 0 <= j < i ==> axes[j] in outcomes && ResolvedOn(ds, axes[j], outcomes[axes[j]])
  }

  /** One of the first i axes is among these names. */
  predicate MeetsUpTo(names: set<Name>, axes: seq<Name>, i: nat)
    requires i <= |axes|
  {
    i > 0 && (MeetsUpTo(names, axes, i - 1) || axes[i - 1] in names)
  }

  lemma {:induction false} MeetsSomewhere(names: set<Name>, axes: seq<Name>, i: nat)
    requires i <= |axes|
    ensures MeetsUpTo(names, axes, i) <==> exists j :: 0 <= j < i && axes[j] in names
  {
    if i > 0 {
      MeetsSomewhere(names, axes, i - 1);
    }
  }

  lemma ResolvedNext(ds: seq<Decision>, axes: seq<Name>, i: nat, outcomes: map<Name, AxisOutcome>, o: AxisOutcome)
    requires i < |axes| && ResolvedUpTo(ds, axes, i, outcomes) && ResolvedOn(ds, axes[i], o)
    ensures ResolvedUpTo(ds, axes, i + 1, outcomes[axes[i] := o])
  {
  }

  lemma AllResolved(ds: seq<Decision>, axes: seq<Name>, outcomes: map<Name, AxisOutcome>)
    requires ResolvedUpTo(ds, axes, |axes|, outcomes)
    ensures forall axis :: axis in outcomes <==> axis in axes
    ensures forall axis :: axis in axes ==> ResolvedOn(ds, axis, outcomes[axis])
  {
  }

  /** Marks every axis but the budget's. */
  method Supersede(axes: seq<Name>, outcomes: map<Name, AxisOutcome>) returns (marked: map<Name, AxisOutcome>)
    requires forall axis :: axis in outcomes <==> axis in axes
    ensures marked.Keys == outcomes.Keys
    ensures forall axis :: axis in axes ==>
      marked[axis] == if axis == Budget then outcomes[axis] else outcomes[axis].(superseded := true)
  {
    marked := outcomes;
    for i := 0 to |axes|
      invariant marked.Keys == outcomes.Keys
      invariant forall axis :: axis in axes ==>
        marked[axis] ==
          if axis in axes[..i] && axis != Budget then outcomes[axis].(superseded := true) else outcomes[axis]
    {
      assert axes[..i + 1] == axes[..i] + [axes[i]];
      if axes[i] != Budget {
        marked := marked[axes[i] := marked[axes[i]].(superseded := true)];
      }
    }
    assert axes[..|axes|] == axes;
  }

  // Halting dominates -----------------------------------------------------------------------

  lemma {:induction false} HaltersHalt(ds: seq<Decision>, d: Decision)
    ensures d in Halters(ds) <==> d in ds && Halts(d.action)
  {
    if ds != [] {
      HaltersHalt(ds[..|ds| - 1], d);
      assert ds == ds[..|ds| - 1] + [ds[|ds| - 1]];
    }
  }

  lemma {:induction false} GroupMembers(ds: seq<Decision>, axis: Name, d: Decision)
    ensures d in Group(ds, axis) <==> d in ds && AxisOf(d.agent) == axis
  {
    if ds != [] {
      GroupMembers(ds[..|ds| - 1], axis, d);
      assert ds == ds[..|ds| - 1] + [ds[|ds| - 1]];
    }
  }

  lemma HalterDecidesAxis(g: seq<Decision>, d: Decision)
    requires d in g && Halts(d.action)
    ensures Halts(ResolveAxis(g).0.action)
  {
    AxisDecidedBy(g);
    var i: nat :| FirstToPrevail(g, i) && ResolveAxis(g).0.action == g[i].action;
  }

  /** d is entitled to decide its axis: no halting opinion against it, none of its kind more
      confident. */
  predicate Prevails(g: seq<Decision>, d: Decision) {
    && d in g
    && (forall f :: f in g ==> (Halts(f.action) ==> Halts(d.action)))
    && (forall f :: f in g && Halts(f.action) == Halts(d.action) ==> f.confidence <= d.confidence)
  }

  /** Nobody halts, not all agree, and a second decision is as confident as the first, to EPSILON. */
  predicate Contested(g: seq<Decision>) {
    && !Unanimous(g) && (forall f :: f in g ==> !Halts(f.action))
    && exists i, j :: 0 <= i < |g| && 0 <= j < |g| && CloseTop(g, i, j)
  }

  predicate CloseTop(g: seq<Decision>, i: nat, j: nat)
    requires i < |g| && j < |g|
  {
    && i != j && g[i].confidence - g[j].confidence < EPSILON
    && forall x :: 0 <= x < |g| ==> g[x].confidence <= g[i].confidence
  }

  /** g[i] prevails and nobody listed before it does. */
  predicate FirstToPrevail(g: seq<Decision>, i: nat) {
    i < |g| && Prevails(g, g[i]) && forall j :: 0 <= j < i ==> !Prevails(g, g[j])
  }

  /** How an axis is decided, without reference to the branches: by the first decision that prevails,
      unless the axis is contested, and then it holds with confidence zero. */
  lemma AxisDecidedBy(g: seq<Decision>)
    requires g != []
    ensures ResolveAxis(g).1 <==> Contested(g)
    ensures Contested(g) ==> ResolveAxis(g).0 == AxisOutcome(Hold, 0.0, NoAgent, false)
    ensures !Contested(g) ==> exists i: nat ::
      FirstToPrevail(g, i) && ResolveAxis(g).0 == AxisOutcome(g[i].action, g[i].confidence, g[i].agent, false)
  {
    if |g| == 1 || Unanimous(g) {
      UnanimousPrevails(g);
    } else if Halters(g) != [] {
      var i := HalterPrevails(g);
    } else {
      NobodyHalts(g);
      var k, r := TopTwo(g);
      CloseTopIff(g, k, r);
      TopPrevails(g, k);
    }
  }

  lemma UnanimousPrevails(g: seq<Decision>)
    requires g != [] && Unanimous(g)
    ensures FirstToPrevail(g, MaxIndex(g))
  {
    var k := MaxIndex(g);
    forall j | 0 <= j < k ensures !Prevails(g, g[j]) {
      assert g[k] in g && g[j].action == g[k].action;
    }
  }

  /** g[i] is the halter that max picks. */
  predicate TopHalterAt(g: seq<Decision>, i: nat) {
    && i < |g| && Halters(g) != [] && g[i] == Halters(g)[MaxIndex(Halters(g))]
    && forall j :: 0 <= j < i && Halts(g[j].action) ==> g[j].confidence < g[i].confidence
  }

  lemma {:induction false} FirstTopHalter(g: seq<Decision>) returns (i: nat)
    requires Halters(g) != []
    ensures TopHalterAt(g, i)
  {
    var init, last := g[..|g| - 1], g[|g| - 1];
    assert g == init + [last];
    if Halters(init) == [] {
      i := |init|;
      LastHalterTops(init, last);
    } else {
      i := FirstTopHalter(init);
      if Halts(last.action) && last.confidence > init[i].confidence {
        i := |init|;
        LastHalterTops(init, last);
      } else {
        TopHalterStays(init, last, i);
      }
    }
  }

  lemma LastHalterTops(init: seq<Decision>, last: Decision)
    requires Halters(init + [last]) != []
    requires var h := Halters(init);
      h == [] || (Halts(last.action) && last.confidence > h[MaxIndex(h)].confidence)
    ensures TopHalterAt(init + [last], |init|)
  {
    HaltersNext(init, last);
    var h := Halters(init);
    if h != [] {
      MaxAppended(h, last);
    }
    forall j | 0 <= j < |init| && Halts(init[j].action) ensures init[j].confidence < last.confidence {
      HaltersHalt(init, init[j]);
      assert init[j] in h;
    }
  }

  lemma TopHalterStays(init: seq<Decision>, last: Decision, i: nat)
    requires TopHalterAt(init, i) && (Halts(last.action) ==> last.confidence <= init[i].confidence)
    ensures TopHalterAt(init + [last], i)
  {
    HaltersNext(init, last);
    var h := Halters(init);
    assert h + [] == h;
    MaxAppended(h, last);
  }

  lemma MaxAppended(h: seq<Decision>, last: Decision)
    requires h != []
    ensures MaxIndex(h + [last]) == if last.confidence > h[MaxIndex(h)].confidence then |h| else MaxIndex(h)
  {
    assert (h + [last])[..|h|] == h;
  }

  lemma HalterPrevails(g: seq<Decision>) returns (i: nat)
    requires Halters(g) != []
    ensures FirstToPrevail(g, i) && g[i] == Halters(g)[MaxIndex(Halters(g))] && !Contested(g)
  {
    i := FirstTopHalter(g);
    forall f ensures f in Halters(g) <==> f in g && Halts(f.action) {
      HaltersHalt(g, f);
    }
    assert g[i] in g && g[i] in Halters(g);
    forall j | 0 <= j < i ensures !Prevails(g, g[j]) {
      assert Halts(g[j].action) == Halts(g[i].action) ==> g[j].confidence < g[i].confidence;
    }
  }

  lemma NobodyHalts(g: seq<Decision>)
    requires Halters(g) == []
    ensures forall f :: f in g ==> !Halts(f.action)
  {
    forall f | f in g ensures !Halts(f.action) {
      HaltersHalt(g, f);
    }
  }

  lemma TopPrevails(g: seq<Decision>, k: nat)
    requires k < |g| && k == MaxIndex(g) && (forall f :: f in g ==> !Halts(f.action))
    ensures FirstToPrevail(g, k)
  {
    forall j | 0 <= j < k ensures !Prevails(g, g[j]) {
      assert g[k] in g && g[j] in g;
    }
  }

  lemma CloseTopIff(g: seq<Decision>, k: nat, r: nat)
    requires k < |g| && r < |g| && BestTwo(g, k, r)
    ensures Abs(g[k].confidence - g[r].confidence) < EPSILON
       <==> exists i, j :: 0 <= i < |g| && 0 <= j < |g| && CloseTop(g, i, j)
  {
    if Abs(g[k].confidence - g[r].confidence) < EPSILON {
      assert CloseTop(g, k, r);
    }
    if i, j :| 0 <= i < |g| && 0 <= j < |g| && CloseTop(g, i, j) {
      assert (j != k ==> g[j].confidence <= g[r].confidence) && (i != k ==> g[i].confidence <= g[r].confidence);
    }
  }

  /** g[k] is the most confident decision and g[r] the most confident of the others. */
  predicate BestTwo(g: seq<Decision>, k: nat, r: nat)
    requires k < |g| && r < |g|
  {
    && k != r && g[r].confidence <= g[k].confidence
    && forall x :: 0 <= x < |g| && x != k ==> g[x].confidence <= g[r].confidence
  }

  /** Where the two decisions in front of the ranking come from. */
  lemma TopTwo(g: seq<Decision>) returns (k: nat, r: nat)
    requires |g| > 1
    ensures k == MaxIndex(g) && r < |g| && BestTwo(g, k, r)
    ensures Ranked(g)[0] == g[k] && Ranked(g)[1] == g[r]
  {
    k := MaxIndex(g);
    RunnerUp(g);
    r := BestOfRest(g, k, MaxIndex(Remove(g, k)));
  }

  lemma BestOfRest(g: seq<Decision>, k: nat, m: nat) returns (r: nat)
    requires k < |g| && m < |Remove(g, k)|
    requires forall x :: 0 <= x < |g| ==> g[x].confidence <= g[k].confidence
    requires forall j :: 0 <= j < |Remove(g, k)| ==> Remove(g, k)[j].confidence <= Remove(g, k)[m].confidence
    ensures r < |g| && g[r] == Remove(g, k)[m] && BestTwo(g, k, r)
  {
    var rest := Remove(g, k);
    r := if m < k then m else m + 1;
    forall x | 0 <= x < |g| && x != k ensures g[x].confidence <= rest[m].confidence {
      assert g[x] == rest[if x < k then x else x - 1];
    }
  }

  /** No halting opinion is lost: one on an axis halts that axis, and a halted budget axis halts
      the campaign and supersedes every other axis. */
  lemma HaltingDominates(ds: seq<Decision>, d: Decision, other: Name)
    requires d in ds && !Vetoes(ds) && Halts(d.action)
    ensures var v := Arbitrated(ds); var axis := AxisOf(d.agent);
      && axis in v.outcomes && Halts(v.outcomes[axis].action)
      && (axis == Budget ==> Halts(v.primary))
      && (axis == Budget && other != axis && other in v.outcomes ==> v.outcomes[other].superseded)
  {
    var axis := AxisOf(d.agent);
    GroupMembers(ds, axis, d);
    OutcomeOnAxis(ds, axis);
    OutcomeOnAxis(ds, other);
    HalterDecidesAxis(Group(ds, axis), d);
  }

  /** An axis that cannot be resolved holds, and the verdict says so. */
  lemma AmbiguityHolds(ds: seq<Decision>, axis: Name)
    requires !Vetoes(ds) && Ambiguous(ds, axis)
    ensures var v := Arbitrated(ds); axis in v.outcomes && v.outcomes[axis].action == Hold && v.unresolved
  {
    OutcomeOnAxis(ds, axis);
    AmbiguousOutcome(Group(ds, axis));
  }

  lemma AmbiguousOutcome(g: seq<Decision>)
    requires g != [] && ResolveAxis(g).1
    ensures ResolveAxis(g).0.action == Hold
  {
  }

  // Order independence ----------------------------------------------------------------------

  /** What arbitration promises not to take from the order of its input. Winners, confidences and
      reasons are not part of it. */
  ghost predicate SameRuling(v: Verdict, w: Verdict) {
    && v.tier == w.tier && v.primary == w.primary && v.unresolved == w.unresolved
    && v.outcomes.Keys == w.outcomes.Keys
    && forall axis :: axis in v.outcomes ==>
         && v.outcomes[axis].action == w.outcomes[axis].action
         && v.outcomes[axis].superseded == w.outcomes[axis].superseded
  }

  /** Two halting decisions on one axis, equally confident and unsurpassed, want different actions. */
  ghost predicate Clash(ds: seq<Decision>, d: Decision, e: Decision) {
    && d in ds && e in ds && AxisOf(d.agent) == AxisOf(e.agent)
    && Halts(d.action) && Halts(e.action) && d.action != e.action && d.confidence == e.confidence
    && forall f :: f in ds && AxisOf(f.agent) == AxisOf(d.agent) && Halts(f.action) ==> f.confidence <= d.confidence
  }

  /** The risk agent's decisions, if any overrides, all override with one action; otherwise no
      two halting decisions clash. */
  ghost predicate OrderProof(ds: seq<Decision>) {
    if exists d :: d in ds && d.agent == Risk && IsOverride(d) then
      forall d, e :: d in ds && e in ds && d.agent == e.agent == Risk ==> IsOverride(e) && d.action == e.action
    else
      forall d, e :: !Clash(ds, d, e)
  }

  lemma {:induction false} FirstRiskIsRisk(ds: seq<Decision>)
    ensures FirstRisk(ds).Some? ==> FirstRisk(ds).value in ds && FirstRisk(ds).value.agent == Risk
    ensures FirstRisk(ds) == None ==> forall d :: d in ds ==> d.agent != Risk
  {
    if ds != [] {
      FirstRiskIsRisk(ds[..|ds| - 1]);
      assert ds == ds[..|ds| - 1] + [ds[|ds| - 1]];
    }
  }

  lemma {:induction false} GroupMultiset(ds: seq<Decision>, axis: Name, d: Decision)
    ensures multiset(Group(ds, axis))[d] == if AxisOf(d.agent) == axis then multiset(ds)[d] else 0
  {
    if ds != [] {
      var init, last := ds[..|ds| - 1], ds[|ds| - 1];
      GroupMultiset(init, axis, d);
      GroupNext(init, last, axis);
      OneMoreCounted(init, last, d);
      OneMoreCounted(Group(init, axis), last, d);
      assert ds == init + [last];
    }
  }

  lemma OneMoreCounted(ds: seq<Decision>, last: Decision, d: Decision)
    ensures multiset(ds + [last])[d] == multiset(ds)[d] + if last == d then 1 else 0
  {
  }

  lemma {:induction false} HaltersMultiset(ds: seq<Decision>, d: Decision)
    ensures multiset(Halters(ds))[d] == if Halts(d.action) then multiset(ds)[d] else 0
  {
    if ds != [] {
      var init, last := ds[..|ds| - 1], ds[|ds| - 1];
      HaltersMultiset(init, d);
      HaltersNext(init, last);
      OneMoreCounted(init, last, d);
      OneMoreCounted(Halters(init), last, d);
      assert ds == init + [last];
    }
  }

  lemma PermutedMembers(ds: seq<Decision>, es: seq<Decision>)
    requires multiset(ds) == multiset(es)
    ensures |ds| == |es| && forall d :: d in ds <==> d in es
  {
    forall d ensures d in ds <==> d in es {
      assert d in ds <==> d in multiset(ds);
    }
    assert |ds| == |multiset(ds)|;
  }

  lemma GroupsPermute(ds: seq<Decision>, es: seq<Decision>, axis: Name)
    requires multiset(ds) == multiset(es)
    ensures multiset(Group(ds, axis)) == multiset(Group(es, axis))
  {
    forall d ensures multiset(Group(ds, axis))[d] == multiset(Group(es, axis))[d] {
      GroupMultiset(ds, axis, d);
      GroupMultiset(es, axis, d);
    }
  }

  /** The most confident halter's action does not depend on the order unless two clash. */
  lemma HalterActionPermutes(g: seq<Decision>, h: seq<Decision>)
    requires multiset(g) == multiset(h) && Halters(g) != [] && HaltersAgree(g)
    ensures Halters(h) != [] && Halters(h)[MaxIndex(Halters(h))].action == Halters(g)[MaxIndex(Halters(g))].action
  {
    forall d ensures multiset(Halters(g))[d] == multiset(Halters(h))[d] {
      HaltersMultiset(g, d);
      HaltersMultiset(h, d);
    }
    assert multiset(Halters(g)) == multiset(Halters(h));
    PermutedMembers(Halters(g), Halters(h));
    var d, e := Halters(g)[MaxIndex(Halters(g))], Halters(h)[MaxIndex(Halters(h))];
    assert d in Halters(g) && e in Halters(h) && d in Halters(h) && e in Halters(g);
    assert TopHalter(g, d) && TopHalter(g, e);
  }

  lemma RemoveMultiset(ds: seq<Decision>, k: nat)
    requires k < |ds|
    ensures multiset(Remove(ds, k)) == multiset(ds) - multiset{ds[k]}
  {
    assert ds == ds[..k] + [ds[k]] + ds[k + 1..];
  }

  lemma RunnerUp(g: seq<Decision>)
    requires |g| > 1
    ensures var rest := Remove(g, MaxIndex(g));
      rest != [] && Ranked(g)[0] == g[MaxIndex(g)] && Ranked(g)[1] == rest[MaxIndex(rest)]
  {
  }

  lemma TopIsMember(g: seq<Decision>, h: seq<Decision>)
    requires multiset(g) == multiset(h) && g != []
    ensures h != [] && g[MaxIndex(g)] in h && h[MaxIndex(h)] in g
    ensures g[MaxIndex(g)].confidence == h[MaxIndex(h)].confidence
  {
    PermutedMembers(g, h);
    assert g[MaxIndex(g)] in g && h[MaxIndex(h)] in h;
  }

  /** A member other than the top one is among the rest, so it bounds the runner-up from below. */
  lemma RestContains(g: seq<Decision>, e: Decision)
    requires e in g && e != g[MaxIndex(g)]
    ensures var rest := Remove(g, MaxIndex(g)); e in rest && e.confidence <= rest[MaxIndex(rest)].confidence
  {
    RemoveMultiset(g, MaxIndex(g));
    assert e in multiset(g);
    assert e in multiset(Remove(g, MaxIndex(g)));
  }

  /** Confidence ranking: reordering keeps the runner-up's confidence, and a top decision that is
      not tied keeps its place. */
  lemma RankingPermutes(g: seq<Decision>, h: seq<Decision>)
    requires multiset(g) == multiset(h) && |g| == |h| > 1
    ensures Ranked(g)[0].confidence == Ranked(h)[0].confidence
    ensures Ranked(g)[1].confidence == Ranked(h)[1].confidence
    ensures Ranked(g)[0] == Ranked(h)[0] || Ranked(g)[0].confidence == Ranked(g)[1].confidence
  {
    RunnerUp(g);
    RunnerUp(h);
    TopIsMember(g, h);
    var d, e := g[MaxIndex(g)], h[MaxIndex(h)];
    if d == e {
      RemoveMultiset(g, MaxIndex(g));
      RemoveMultiset(h, MaxIndex(h));
      TopIsMember(Remove(g, MaxIndex(g)), Remove(h, MaxIndex(h)));
    } else {
      RestContains(g, e);
      RestContains(h, d);
    }
  }

  lemma UnanimousPermutes(g: seq<Decision>, h: seq<Decision>)
    requires multiset(g) == multiset(h) && Unanimous(g)
    ensures Unanimous(h)
  {
    PermutedMembers(g, h);
    forall i, j | 0 <= i < |h| && 0 <= j < |h| ensures h[i].action == h[j].action {
      assert h[i] in g && h[j] in g;
    }
  }

  /** No two of the most confident halters in g differ. */
  ghost predicate HaltersAgree(g: seq<Decision>) {
    forall d, e :: d in Halters(g) && e in Halters(g) && TopHalter(g, d) && TopHalter(g, e) ==> d.action == e.action
  }

  ghost predicate TopHalter(g: seq<Decision>, d: Decision) {
    forall f :: f in Halters(g) ==> f.confidence <= d.confidence
  }

  lemma HaltersPermute(g: seq<Decision>, h: seq<Decision>)
    requires multiset(g) == multiset(h)
    ensures Halters(g) == [] <==> Halters(h) == []
  {
    PermutedMembers(g, h);
    if Halters(g) != [] {
      HaltersHalt(g, Halters(g)[0]);
      HaltersHalt(h, Halters(g)[0]);
    }
    if Halters(h) != [] {
      HaltersHalt(h, Halters(h)[0]);
      HaltersHalt(g, Halters(h)[0]);
    }
  }

  /** The case left to confidence. */
  lemma RankedPermutes(g: seq<Decision>, h: seq<Decision>)
    requires multiset(g) == multiset(h) && |g| == |h| > 1 && !Unanimous(g) && !Unanimous(h)
    requires Halters(g) == [] && Halters(h) == []
    ensures ResolveAxis(g).0.action == ResolveAxis(h).0.action && ResolveAxis(g).1 == ResolveAxis(h).1
  {
    RankingPermutes(g, h);
  }

  lemma UnanimousAction(g: seq<Decision>, h: seq<Decision>)
    requires multiset(g) == multiset(h) && |g| == |h| > 1 && Unanimous(g) && Unanimous(h)
    ensures ResolveAxis(g).0.action == ResolveAxis(h).0.action && ResolveAxis(g).1 == ResolveAxis(h).1
  {
    TopIsMember(g, h);
  }

  lemma HaltedAction(g: seq<Decision>, h: seq<Decision>)
    requires multiset(g) == multiset(h) && |g| == |h| > 1 && !Unanimous(g) && !Unanimous(h)
    requires Halters(g) != [] && HaltersAgree(g)
    ensures ResolveAxis(g).0.action == ResolveAxis(h).0.action && ResolveAxis(g).1 == ResolveAxis(h).1
  {
    HalterActionPermutes(g, h);
  }

  lemma ResolvePermutes(g: seq<Decision>, h: seq<Decision>)
    requires multiset(g) == multiset(h) && g != [] && HaltersAgree(g)
    ensures h != [] && ResolveAxis(g).0.action == ResolveAxis(h).0.action && ResolveAxis(g).1 == ResolveAxis(h).1
  {
    PermutedMembers(g, h);
    if |g| == 1 {
      assert g[0] in h;
    } else if Unanimous(g) {
      UnanimousPermutes(g, h);
      UnanimousAction(g, h);
    } else {
      if Unanimous(h) {
        UnanimousPermutes(h, g);
      }
      HaltersPermute(g, h);
      if Halters(g) != [] {
        HaltedAction(g, h);
      } else {
        RankedPermutes(g, h);
      }
    }
  }

  lemma NoClashOnAxis(ds: seq<Decision>, axis: Name)
    requires forall d, e :: !Clash(ds, d, e)
    ensures HaltersAgree(Group(ds, axis))
  {
    var g := Group(ds, axis);
    forall d, e | d in Halters(g) && e in Halters(g) && TopHalter(g, d) && TopHalter(g, e)
      ensures d.action == e.action
    {
      forall f ensures f in Halters(g) <==> f in ds && AxisOf(f.agent) == axis && Halts(f.action) {
        HaltersHalt(g, f);
        GroupMembers(ds, axis, f);
      }
      assert !Clash(ds, d, e);
    }
  }

  lemma AxisPermutes(ds: seq<Decision>, es: seq<Decision>, axis: Name)
    requires multiset(ds) == multiset(es) && forall d, e :: !Clash(ds, d, e)
    ensures Group(es, axis) != [] <==> Group(ds, axis) != []
    ensures Group(ds, axis) != [] ==> ResolveAxis(Group(ds, axis)).0.action == ResolveAxis(Group(es, axis)).0.action
    ensures Ambiguous(ds, axis) <==> Ambiguous(es, axis)
  {
    GroupsPermute(ds, es, axis);
    PermutedMembers(Group(ds, axis), Group(es, axis));
    NoClashOnAxis(ds, axis);
    if Group(ds, axis) != [] {
      ResolvePermutes(Group(ds, axis), Group(es, axis));
    }
  }

  /** The ruling on one axis: its action and whether it is superseded. */
  lemma AxisRulingPermutes(ds: seq<Decision>, es: seq<Decision>, axis: Name)
    requires multiset(ds) == multiset(es) && forall d, e :: !Clash(ds, d, e)
    ensures SameOn(ConsensusOutcomes(ds), ConsensusOutcomes(es), axis)
  {
    AxisPermutes(ds, es, axis);
    AxisPermutes(ds, es, Budget);
    OutcomeOnAxis(ds, axis);
    OutcomeOnAxis(es, axis);
  }

  lemma UnresolvedPermutes(ds: seq<Decision>, es: seq<Decision>)
    requires multiset(ds) == multiset(es) && forall d, e :: !Clash(ds, d, e)
    requires exists axis :: axis in Axes(ds) && Ambiguous(ds, axis)
    ensures exists axis :: axis in Axes(es) && Ambiguous(es, axis)
  {
    var axis :| axis in Axes(ds) && Ambiguous(ds, axis);
    AxisPermutes(ds, es, axis);
    AxesAreGroups(es, axis);
  }

  lemma ClashPermutes(ds: seq<Decision>, es: seq<Decision>)
    requires multiset(ds) == multiset(es) && forall d, e :: !Clash(ds, d, e)
    ensures forall d, e :: !Clash(es, d, e)
  {
    PermutedMembers(ds, es);
    forall d, e ensures !Clash(es, d, e) {
      assert !Clash(ds, d, e);
    }
  }

  lemma ConsensusPermutes(ds: seq<Decision>, es: seq<Decision>)
    requires multiset(ds) == multiset(es) && ds != [] && es != [] && !Vetoes(ds) && !Vetoes(es)
    requires forall d, e :: !Clash(ds, d, e)
    ensures SameRuling(Arbitrated(ds), Arbitrated(es))
  {
    var v, w := Arbitrated(ds), Arbitrated(es);
    assert v.primary == w.primary by {
      AxisPermutes(ds, es, Budget);
    }
    assert v.unresolved == w.unresolved by {
      ClashPermutes(ds, es);
      if v.unresolved {
        UnresolvedPermutes(ds, es);
      }
      if w.unresolved {
        UnresolvedPermutes(es, ds);
      }
    }
    forall axis ensures SameOn(v.outcomes, w.outcomes, axis) {
      AxisRulingPermutes(ds, es, axis);
    }
    SameEverywhere(v.outcomes, w.outcomes);
  }

  predicate SameOn(v: map<Name, AxisOutcome>, w: map<Name, AxisOutcome>, axis: Name) {
    && (axis in v <==> axis in w)
    && (axis in v ==> v[axis].action == w[axis].action && v[axis].superseded == w[axis].superseded)
  }

  lemma SameEverywhere(v: map<Name, AxisOutcome>, w: map<Name, AxisOutcome>)
    requires forall axis :: SameOn(v, w, axis)
    ensures v.Keys == w.Keys
    ensures forall axis :: axis in v ==> v[axis].action == w[axis].action && v[axis].superseded == w[axis].superseded
  {
    forall axis ensures axis in v <==> axis in w {
      assert SameOn(v, w, axis);
    }
    forall axis | axis in v
      ensures axis in w && v[axis].action == w[axis].action && v[axis].superseded == w[axis].superseded
    {
      assert SameOn(v, w, axis);
    }
  }

  lemma OrderProofSuffices(ds: seq<Decision>, es: seq<Decision>)
    requires multiset(ds) == multiset(es) && OrderProof(ds)
    ensures SameRuling(Arbitrated(ds), Arbitrated(es))
  {
    PermutedMembers(ds, es);
    FirstRiskIsRisk(ds);
    FirstRiskIsRisk(es);
    if ds != [] && !(exists d :: d in ds && d.agent == Risk && IsOverride(d)) {
      ConsensusPermutes(ds, es);
    }
  }

  // The condition is necessary ----------------------------------------------------------------

  lemma {:induction false} FirstRiskInFront(d: Decision, rest: seq<Decision>)
    requires d.agent == Risk
    ensures FirstRisk([d] + rest) == Some(d)
  {
    var ds := [d] + rest;
    if rest == [] {
      assert FirstRisk(ds[..0]) == None;
    } else {
      FirstRiskInFront(d, rest[..|rest| - 1]);
      assert ds[..|ds| - 1] == [d] + rest[..|rest| - 1];
    }
  }

  lemma GroupNext(ds: seq<Decision>, e: Decision, axis: Name)
    ensures Group(ds + [e], axis) == Group(ds, axis) + if AxisOf(e.agent) == axis then [e] else []
  {
    assert (ds + [e])[..|ds|] == ds;
  }

  lemma HaltersNext(ds: seq<Decision>, e: Decision)
    ensures Halters(ds + [e]) == Halters(ds) + if Halts(e.action) then [e] else []
  {
    assert (ds + [e])[..|ds|] == ds;
  }

  lemma Reassociate(a: seq<Decision>, b: seq<Decision>, c: seq<Decision>)
    ensures (a + b) + c == a + (b + c)
  {
  }

  lemma {:induction false} GroupParts(a: seq<Decision>, b: seq<Decision>, axis: Name)
    ensures Group(a + b, axis) == Group(a, axis) + Group(b, axis)
  {
    if b == [] {
      assert a + b == a;
    } else {
      var init, last := b[..|b| - 1], b[|b| - 1];
      GroupParts(a, init, axis);
      GroupNext(a + init, last, axis);
      assert a + b == (a + init) + [last];
      Reassociate(Group(a, axis), Group(init, axis), if AxisOf(last.agent) == axis then [last] else []);
    }
  }

  lemma {:induction false} HaltersParts(a: seq<Decision>, b: seq<Decision>)
    ensures Halters(a + b) == Halters(a) + Halters(b)
  {
    if b == [] {
      assert a + b == a;
    } else {
      var init, last := b[..|b| - 1], b[|b| - 1];
      HaltersParts(a, init);
      HaltersNext(a + init, last);
      assert a + b == (a + init) + [last];
      Reassociate(Halters(a), Halters(init), if Halts(last.action) then [last] else []);
    }
  }

  lemma GroupInFront(d: Decision, rest: seq<Decision>, axis: Name)
    requires AxisOf(d.agent) == axis
    ensures Group([d] + rest, axis) == [d] + Group(rest, axis)
  {
    GroupParts([d], rest, axis);
    assert [d][..0] == [] && Group([], axis) == [];
  }

  lemma HaltersInFront(d: Decision, rest: seq<Decision>)
    requires Halts(d.action)
    ensures Halters([d] + rest) == [d] + Halters(rest)
  {
    HaltersParts([d], rest);
    assert [d][..0] == [] && Halters([]) == [];
  }

  /** ds with the decision at i moved to the front. */
  function Fronted(ds: seq<Decision>, i: nat): seq<Decision>
    requires i < |ds|
  {
    [ds[i]] + Remove(ds, i)
  }

  lemma FrontedPermutes(ds: seq<Decision>, i: nat)
    requires i < |ds|
    ensures multiset(Fronted(ds, i)) == multiset(ds)
  {
    RemoveMultiset(ds, i);
  }

  /** With the risk decision d in front, d alone decides tier 0. */
  lemma RiskInFrontDecides(ds: seq<Decision>, i: nat)
    requires i < |ds| && ds[i].agent == Risk
    ensures var v := Arbitrated(Fronted(ds, i));
      if IsOverride(ds[i]) then v.tier == Veto && v.primary == ds[i].action else v.tier == Consensus
  {
    FirstRiskInFront(ds[i], Remove(ds, i));
  }

  lemma MaxInFront(d: Decision, rest: seq<Decision>)
    requires forall f :: f in rest ==> f.confidence <= d.confidence
    ensures MaxIndex([d] + rest) == 0
  {
    var ds := [d] + rest;
    forall j | 0 <= j < |ds| ensures ds[j].confidence <= ds[0].confidence {
      assert j == 0 || ds[j] in rest;
    }
  }

  /** With d of a clash in front, d's action wins its axis. */
  lemma ClashInFrontDecides(ds: seq<Decision>, i: nat, e: Decision)
    requires i < |ds| && Clash(ds, ds[i], e)
    ensures var axis := AxisOf(ds[i].agent); var es := Fronted(ds, i);
      Group(es, axis) != [] && ResolveAxis(Group(es, axis)).0.action == ds[i].action
  {
    var d, rest := ds[i], Remove(ds, i);
    var axis, es := AxisOf(d.agent), Fronted(ds, i);
    FrontedPermutes(ds, i);
    PermutedMembers(ds, es);
    GroupInFront(d, rest, axis);
    var g := Group(es, axis);
    GroupMembers(es, axis, e);
    assert !Unanimous(g) by {
      var j :| 0 <= j < |g| && g[j] == e;
      assert g[0].action != g[j].action;
    }
    HaltersInFront(d, Group(rest, axis));
    forall f | f in Halters(Group(rest, axis)) ensures f.confidence <= d.confidence {
      assert f in Halters(g);
      HaltersHalt(g, f);
      GroupMembers(es, axis, f);
    }
    MaxInFront(d, Halters(Group(rest, axis)));
  }

  /** Two orders of the same decisions with different rulings. */
  ghost predicate OrderMatters(ds: seq<Decision>) {
    exists es :: multiset(es) == multiset(ds) && !SameRuling(Arbitrated(ds), Arbitrated(es))
  }

  lemma DifferentOrdersMatter(ds: seq<Decision>, p: seq<Decision>, q: seq<Decision>)
    requires multiset(p) == multiset(ds) && multiset(q) == multiset(ds)
    requires !SameRuling(Arbitrated(p), Arbitrated(q))
    ensures OrderMatters(ds)
  {
    if SameRuling(Arbitrated(ds), Arbitrated(p)) {
      assert !SameRuling(Arbitrated(ds), Arbitrated(q));
    }
  }

  lemma RisksDisagree(ds: seq<Decision>, i: nat, j: nat)
    requires i < |ds| && j < |ds| && ds[i].agent == ds[j].agent == Risk
    requires IsOverride(ds[i]) && !(IsOverride(ds[j]) && ds[i].action == ds[j].action)
    ensures OrderMatters(ds)
  {
    FrontedPermutes(ds, i);
    FrontedPermutes(ds, j);
    RiskInFrontDecides(ds, i);
    RiskInFrontDecides(ds, j);
    DifferentOrdersMatter(ds, Fronted(ds, i), Fronted(ds, j));
  }

  lemma ClashMatters(ds: seq<Decision>, i: nat, j: nat)
    requires i < |ds| && j < |ds| && Clash(ds, ds[i], ds[j])
    requires !(exists d :: d in ds && d.agent == Risk && IsOverride(d))
    ensures OrderMatters(ds)
  {
    var p, q := Fronted(ds, i), Fronted(ds, j);
    var axis := AxisOf(ds[i].agent);
    FrontedPermutes(ds, i);
    FrontedPermutes(ds, j);
    ClashInFrontDecides(ds, i, ds[j]);
    ClashInFrontDecides(ds, j, ds[i]);
    NoVetoWithoutOverride(ds, p);
    NoVetoWithoutOverride(ds, q);
    OutcomeOnAxis(p, axis);
    OutcomeOnAxis(q, axis);
    DifferentOrdersMatter(ds, p, q);
  }

  lemma NoVetoWithoutOverride(ds: seq<Decision>, es: seq<Decision>)
    requires multiset(ds) == multiset(es)
    requires !(exists d :: d in ds && d.agent == Risk && IsOverride(d))
    ensures !Vetoes(es)
  {
    PermutedMembers(ds, es);
    FirstRiskIsRisk(es);
  }

  /** The exact condition under which reordering the decisions can never change the ruling. */
  lemma OrderIrrelevantIff(ds: seq<Decision>)
    ensures OrderProof(ds) <==> forall es :: multiset(es) == multiset(ds) ==> SameRuling(Arbitrated(ds), Arbitrated(es))
  {
    if OrderProof(ds) {
      forall es | multiset(es) == multiset(ds) ensures SameRuling(Arbitrated(ds), Arbitrated(es)) {
        OrderProofSuffices(ds, es);
      }
    } else {
      OrderMattersOtherwise(ds);
    }
  }

  lemma OrderMattersOtherwise(ds: seq<Decision>)
    requires !OrderProof(ds)
    ensures OrderMatters(ds)
  {
    if r :| r in ds && r.agent == Risk && IsOverride(r) {
      var d, e :| d in ds && e in ds && d.agent == e.agent == Risk && !(IsOverride(e) && d.action == e.action);
      var k, i, j :| 0 <= k < |ds| && 0 <= i < |ds| && 0 <= j < |ds| && ds[k] == r && ds[i] == d && ds[j] == e;
      if !IsOverride(e) || r.action != e.action {
        RisksDisagree(ds, k, j);
      } else {
        RisksDisagree(ds, k, i);
      }
    } else {
      var d, e :| Clash(ds, d, e);
      var i, j :| 0 <= i < |ds| && 0 <= j < |ds| && ds[i] == d && ds[j] == e;
      ClashMatters(ds, i, j);
    }
  }

  /** In particular one risk decision and no clash are enough. */
  lemma OneRiskNoClash(ds: seq<Decision>, es: seq<Decision>)
    requires multiset(es) == multiset(ds)
    requires forall d, e :: d in ds && e in ds && d.agent == e.agent == Risk ==> d == e
    requires forall d, e :: !Clash(ds, d, e)
    ensures SameRuling(Arbitrated(ds), Arbitrated(es))
  {
    OrderProofSuffices(ds, es);
  }

  lemma {:induction false} ValidMultiset(items: seq<Item>, d: Decision)
    ensures multiset(Valid(items))[d] == if d.agent != Empty then multiset(items)[IsDecision(d)] else 0
  {
    if items != [] {
      var init, last := items[..|items| - 1], items[|items| - 1];
      ValidMultiset(init, d);
      assert items == init + [last];
      OneMoreValid(Valid(init), last, d);
    }
  }

  lemma OneMoreValid(ds: seq<Decision>, last: Item, d: Decision)
    ensures multiset(ds + (if last.IsDecision? && last.d.agent != Empty then [last.d] else []))[d] ==
      multiset(ds)[d] + if d.agent != Empty && last == IsDecision(d) then 1 else 0
  {
  }

  /** The same for the raw input list, whatever invalid items it is mixed with. */
  lemma ReorderedInputSameRuling(items: seq<Item>, others: seq<Item>)
    requires multiset(items) == multiset(others) && OrderProof(Valid(items))
    ensures SameRuling(Arbitrated(Valid(items)), Arbitrated(Valid(others)))
  {
    forall d ensures multiset(Valid(items))[d] == multiset(Valid(others))[d] {
      ValidMultiset(items, d);
      ValidMultiset(others, d);
    }
    OrderProofSuffices(Valid(items), Valid(others));
  }

  // The verdict, tier by tier -------------------------------------------------------------------

  /** The words the code compares with, spelled out. */
  lemma Vocabulary(agent: Name, action: Name, d: Decision)
    ensures AxisOf(agent) == if agent == Risk || agent == Scaling then Budget else agent
    ensures Halts(action) <==> action == Kill || action == Pause
    ensures IsOverride(d) <==> (d.action == Kill || d.action == Pause) && d.overrides
    ensures EPSILON == 0.000000001
  {
  }

  /** The risk agent's first decision, and it is to stop the campaign over everyone else. */
  predicate VetoesAt(ds: seq<Decision>, i: nat) {
    && i < |ds| && ds[i].agent == Risk && (ds[i].action == Kill || ds[i].action == Pause) && ds[i].overrides
    && forall j :: 0 <= j < i ==> ds[j].agent != Risk
  }

  lemma {:induction false} FirstRiskAt(ds: seq<Decision>, i: nat)
    requires i < |ds| && ds[i].agent == Risk && forall j :: 0 <= j < i ==> ds[j].agent != Risk
    ensures FirstRisk(ds) == Some(ds[i])
  {
    var init := ds[..|ds| - 1];
    if i < |init| {
      FirstRiskAt(init, i);
    } else {
      FirstRiskIsRisk(init);
      assert forall d :: d in init ==> d.agent != Risk;
    }
  }

  lemma VetoesIff(ds: seq<Decision>)
    ensures Vetoes(ds) <==> exists i :: VetoesAt(ds, i)
  {
    if i :| VetoesAt(ds, i) {
      FirstRiskAt(ds, i);
    }
    if Vetoes(ds) {
      var i := FirstRiskPlace(ds);
      assert VetoesAt(ds, i);
    }
  }

  lemma {:induction false} FirstRiskPlace(ds: seq<Decision>) returns (i: nat)
    requires FirstRisk(ds).Some?
    ensures i < |ds| && FirstRisk(ds) == Some(ds[i]) && ds[i].agent == Risk
    ensures forall j :: 0 <= j < i ==> ds[j].agent != Risk
  {
    var init := ds[..|ds| - 1];
    if FirstRisk(init).Some? {
      i := FirstRiskPlace(init);
    } else {
      i := |ds| - 1;
      FirstRiskIsRisk(init);
      assert forall j :: 0 <= j < |init| ==> init[j] in init;
    }
  }

  /** Without decisions nothing is known: the campaign holds, unresolved. */
  lemma FallbackIff(ds: seq<Decision>)
    ensures Arbitrated(ds).tier == Fallback <==> ds == []
    ensures Arbitrated([]) == Verdict(Fallback, Hold, map[], true)
  {
  }

  /** A veto is the risk agent's alone. */
  lemma VetoVerdict(ds: seq<Decision>, i: nat)
    requires VetoesAt(ds, i)
    ensures Arbitrated(ds) == Verdict(
      Veto, ds[i].action, map[Budget := AxisOutcome(ds[i].action, ds[i].confidence, Risk, false)], false)
  {
    FirstRiskAt(ds, i);
  }

  /** How one axis of a consensus comes out, by the decisions on it. */
  ghost predicate DecidedOutcome(g: seq<Decision>, o: AxisOutcome) {
    if Contested(g) then o.action == Hold && o.confidence == 0.0 && o.winner == NoAgent
    else exists i: nat :: FirstToPrevail(g, i) && o.(superseded := false) == Outcome(g[i])
  }

  /** The consensus: an outcome for every axis some decision is on, each decided by the decisions on
      it; the primary action is the budget axis's, or hold without one; a halted budget axis
      supersedes all others; the verdict is unresolved if an axis is contested. */
  lemma ConsensusVerdict(ds: seq<Decision>)
    requires ds != [] && !exists i :: VetoesAt(ds, i)
    ensures var v := Arbitrated(ds);
      && v.tier == Consensus
      && v.primary == (if Budget in v.outcomes then v.outcomes[Budget].action else Hold)
      && (v.unresolved <==> exists axis :: axis in v.outcomes && Contested(Group(ds, axis)))
    ensures forall axis :: OnAxis(ds, Arbitrated(ds).outcomes, axis)
  {
    VetoesIff(ds);
    OutcomeOnAxis(ds, Budget);
    forall axis ensures OnAxis(ds, Arbitrated(ds).outcomes, axis) {
      ConsensusOnAxis(ds, axis);
    }
    forall axis ensures axis in Axes(ds) && Ambiguous(ds, axis) <==> axis in Axes(ds) && Contested(Group(ds, axis)) {
      AxesAreGroups(ds, axis);
      if Group(ds, axis) != [] {
        AxisDecidedBy(Group(ds, axis));
      }
    }
  }

  /** What a consensus says of one axis. */
  ghost predicate OnAxis(ds: seq<Decision>, outcomes: map<Name, AxisOutcome>, axis: Name) {
    && (axis in outcomes <==> exists d :: d in ds && AxisOf(d.agent) == axis)
    && (axis in outcomes ==>
          && DecidedOutcome(Group(ds, axis), outcomes[axis])
          && (outcomes[axis].superseded <==>
                && axis != Budget && Budget in outcomes
                && (outcomes[Budget].action == Kill || outcomes[Budget].action == Pause)))
  }

  lemma ConsensusOnAxis(ds: seq<Decision>, axis: Name)
    ensures OnAxis(ds, ConsensusOutcomes(ds), axis)
  {
    OutcomeOnAxis(ds, axis);
    OutcomeOnAxis(ds, Budget);
    GroupNotEmptyIff(ds, axis);
    if Group(ds, axis) != [] {
      AxisDecidedBy(Group(ds, axis));
    }
  }

  lemma GroupNotEmptyIff(ds: seq<Decision>, axis: Name)
    ensures Group(ds, axis) != [] <==> exists d :: d in ds && AxisOf(d.agent) == axis
  {
    if Group(ds, axis) != [] {
      GroupMembers(ds, axis, Group(ds, axis)[0]);
    }
    if d :| d in ds && AxisOf(d.agent) == axis {
      GroupMembers(ds, axis, d);
    }
  }

  /** The input keeps its order: only foreign items and nameless decisions are dropped. */
  lemma {:induction false} ValidParts(a: seq<Item>, b: seq<Item>)
    ensures Valid(a + b) == Valid(a) + Valid(b)
    ensures |b| == 1 ==> Valid(b) == if b[0].IsDecision? && b[0].d.agent != Empty then [b[0].d] else []
  {
    if b == [] {
      assert a + b == a;
    } else {
      var init, last := b[..|b| - 1], b[|b| - 1];
      ValidParts(a, init);
      assert (a + b)[..|a + b| - 1] == a + init;
      Reassociate(Valid(a), Valid(init), if last.IsDecision? && last.d.agent != Empty then [last.d] else []);
    }
  }
}
