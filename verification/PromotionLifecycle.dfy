/** The promotion trace of one candidate (scripts/research_to_decision.py). */
module PromotionLifecycle {
  import opened Wrappers

  datatype EvidenceState = Observed | Manual | Fixture | Assumed | Unavailable | Malformed | Blocked

  /** "unavailable", the states in the order in which a trace can visit them, and the ones no
      transition enters. */
  datatype State =
    | Start
    | Discovered | Normalized | Screened
    | SupplierClaimed | SupplierDocumented | OfferConflicted
    | EvidenceIncomplete | LaneVerified
    | SampleRequired | DirectShipRequired | RmaRequired
    | EconomicsReady | CompetitionReady
    | PromotionBlocked | LaunchAuthorizedFalse
    | LaunchCandidate | ManuallyApproved | LiveValidated

  datatype Issue = ConflictingOffer | OtherIssue(code: string)

  datatype Blocker =
    | NotLiveSupplierProof | NoLaunchAuthority
    | OfferMissing | CompetitionMissing | LaneNotVerified
    | OfferIssue(issue: Issue) | ReviewOrReferenceMissing

  /** A text field of an offer; "unknown" stands for a missing one. */
  datatype Field = Unknown | Known(text: string)

  datatype Offer = Offer(
    candidateId: string, offerId: string, supplier: string, exactSku: string,
    issues: set<Issue>,
    terms: Field, policy: Field, rma: Field,
    samplePassed: bool,          // sample_state is "sample_passed"
    shipsDirect: bool,           // "direct" occurs in the shipping method
    referenceProvided: bool,
    humanConfirmed: bool,
    claimsConfirmation: bool,    // what the supplier file says about itself
    state: EvidenceState)

  datatype Lifecycle = Candidate | EvidenceCollected | ResearchReady | OnHold | Reject | NoLaunch

  /** Which words the lower-cased next action contains. */
  datatype NextAction = NextAction(reject: bool, defer: bool, hold: bool)

  datatype Outcome = Rejected | HoldForManualReview | NeedsEvidence | Deferred | CandidateOnly | LaunchCandidateOutcome

  datatype Packet = Packet(
    lane: EvidenceState,
    offers: seq<Offer>,
    marketEvidence: bool,
    marketReasonsClean: bool,    // no reason mentions missing, unknown or unavailable
    economicsComplete: bool,     // there are economics and none is missing or unknown
    lifecycle: Lifecycle,
    decision: NextAction)

  datatype Transition = Transition(prior: State, next: State, evidence: EvidenceState, conditions: set<Blocker>)

  const MAX_TRANSITIONS: nat := 24

  // What the trace is built from ------------------------------------------------------------

  function OfferIssues(offers: seq<Offer>): set<Issue> {
    set o, i | o in offers && i in o.issues :: i
  }

  /** The gates _candidate_audit hands over: never empty. */
  function HardGates(offers: seq<Offer>): set<Blocker> {
    {NotLiveSupplierProof, NoLaunchAuthority}
    + (if offers == [] then {OfferMissing} else {})
    + (set i | i in OfferIssues(offers) :: OfferIssue(i))
  }

  function EarlyBlockers(p: Packet): set<Blocker> {
    HardGates(p.offers)
    + (if p.marketEvidence then {} else {CompetitionMissing})
    + (if p.lane == Observed then {} else {LaneNotVerified})
    + (set i | i in OfferIssues(p.offers) :: OfferIssue(i))
  }

  predicate IsGap(b: Blocker, lane: EvidenceState) {
    || b.OfferMissing? || b.CompetitionMissing? || b.OfferIssue?
    || (b.LaneNotVerified? && (lane == Unavailable || lane == Malformed || lane == Blocked))
  }

  function Gaps(p: Packet): set<Blocker> {
    set b | b in EarlyBlockers(p) && IsGap(b, p.lane)
  }

  predicate TermsAndPolicy(offers: seq<Offer>) {
    forall o :: o in offers ==> o.terms.Known? && o.policy.Known?
  }

  predicate Documented(offers: seq<Offer>) {
    forall o :: o in offers ==> o.referenceProvided && o.humanConfirmed && o.state == Manual
  }

  function EvidenceOf(p: Packet): EvidenceState {
    if p.offers == [] then p.lane
    else if forall o :: o in p.offers ==> o.state == p.offers[0].state then p.offers[0].state
    else Unavailable
  }

  /** Everything about a packet that its trace depends on. */
  datatype Findings = Findings(
    hasOffers: bool, termsAndPolicy: bool, documented: bool, conflicted: bool,
    laneObserved: bool, sampleMissing: bool, directMissing: bool, rmaMissing: bool,
    economicsReady: bool, competitionReady: bool,
    gaps: set<Blocker>, early: set<Blocker>, evidence: EvidenceState)

  function Assess(p: Packet): Findings {
    Findings(
      p.offers != [], TermsAndPolicy(p.offers), Documented(p.offers), ConflictingOffer in OfferIssues(p.offers),
      p.lane == Observed,
      exists o :: o in p.offers && !o.samplePassed,
      exists o :: o in p.offers && !o.shipsDirect,
      exists o :: o in p.offers && o.rma.Unknown?,
      p.economicsComplete, p.marketEvidence && p.marketReasonsClean,
      Gaps(p), EarlyBlockers(p), EvidenceOf(p))
  }

  /** The blockers once the supplier steps are through. */
  function LateBlockers(f: Findings): set<Blocker> {
    f.early + if f.hasOffers && f.termsAndPolicy && !f.documented then {ReviewOrReferenceMissing} else {}
  }

  /** Which of the states the candidate enters. */
  predicate Enters(f: Findings, s: State) {
    match s
    case Discovered | Normalized | Screened | LaunchAuthorizedFalse => true
    case SupplierClaimed => f.hasOffers
    case SupplierDocumented => f.hasOffers && f.termsAndPolicy && f.documented
    case OfferConflicted => f.hasOffers && f.conflicted
    case EvidenceIncomplete => f.gaps != {}
    case LaneVerified => f.laneObserved
    case SampleRequired => f.hasOffers && f.sampleMissing
    case DirectShipRequired => f.hasOffers && f.directMissing
    case RmaRequired => f.hasOffers && f.rmaMissing
    case EconomicsReady => f.economicsReady
    case CompetitionReady => f.competitionReady
    case PromotionBlocked => LateBlockers(f) != {}
    case _ => false
  }

  /** The place of a state in the order in which a trace can visit them. */
  function Rank(s: State): nat {
    match s
    case Start => 0 case Discovered => 1 case Normalized => 2 case Screened => 3
    case SupplierClaimed => 4 case SupplierDocumented => 5 case OfferConflicted => 6
    case EvidenceIncomplete => 7 case LaneVerified => 8 case SampleRequired => 9
    case DirectShipRequired => 10 case RmaRequired => 11 case EconomicsReady => 12
    case CompetitionReady => 13 case PromotionBlocked => 14 case LaunchAuthorizedFalse => 15
    case LaunchCandidate => 16 case ManuallyApproved => 17 case LiveValidated => 18
  }

  function EntryConditions(f: Findings, s: State): set<Blocker> {
    match s
    case Discovered | Normalized => {}
    case Screened | SupplierClaimed | SupplierDocumented => f.early
    case EvidenceIncomplete => f.gaps
    case _ => LateBlockers(f)
  }

  function Entry(f: Findings, prior: State, s: State): Transition {
    Transition(prior, s, if s == EvidenceIncomplete then Unavailable else f.evidence, EntryConditions(f, s))
  }

  function Before(s: State): State
    requires s != Start
    ensures Rank(Before(s)) == Rank(s) - 1
  {
    match s
    case Discovered => Start case Normalized => Discovered case Screened => Normalized
    case SupplierClaimed => Screened case SupplierDocumented => SupplierClaimed
    case OfferConflicted => SupplierDocumented case EvidenceIncomplete => OfferConflicted
    case LaneVerified => EvidenceIncomplete case SampleRequired => LaneVerified
    case DirectShipRequired => SampleRequired case RmaRequired => DirectShipRequired
    case EconomicsReady => RmaRequired case CompetitionReady => EconomicsReady
    case PromotionBlocked => CompetitionReady case LaunchAuthorizedFalse => PromotionBlocked
    case LaunchCandidate => LaunchAuthorizedFalse case ManuallyApproved => LaunchCandidate
    case LiveValidated => ManuallyApproved
  }

  /** The trace through the states up to last. */
  function TraceTo(f: Findings, last: State): seq<Transition>
    decreases Rank(last), f
  {
    if last == Start then []
    else
      var t := TraceTo(f, Before(last));
      if Enters(f, last) then t + [Entry(f, LastState(t), last)] else t
  }

  function LastState(t: seq<Transition>): State {
    if t == [] then Start else t[|t| - 1].next
  }

  function DecisionOutcome(p: Packet, gaps: set<Blocker>, last: State): Outcome {
    if p.lifecycle == Reject || p.lifecycle == NoLaunch || p.decision.reject then Rejected
    else if p.decision.defer then Deferred
    else if gaps != {} then NeedsEvidence
    else if last == LaunchCandidate then LaunchCandidateOutcome
    else if p.decision.hold || p.lifecycle == OnHold then HoldForManualReview
    else CandidateOnly
  }

  // The function itself ---------------------------------------------------------------------

  class PromotionLog {
    var transitions: seq<Transition>
    var prior: State
    var blockers: set<Blocker>
    const evidence: EvidenceState

    constructor (blockers: set<Blocker>, evidence: EvidenceState)
      ensures transitions == [] && prior == Start && this.blockers == blockers && this.evidence == evidence
    {
      transitions, prior := [], Start;
      this.blockers, this.evidence := blockers, evidence;
    }

    /** The nested add: append a transition from the prior state and make its target the prior. */
    method Add(next: State, evidence: EvidenceState, conditions: set<Blocker>)
      requires prior == LastState(transitions)
      modifies this`transitions, this`prior
      ensures transitions == old(transitions) + [Transition(old(prior), next, evidence, conditions)]
      ensures prior == next == LastState(transitions)
    {
      transitions := transitions + [Transition(prior, next, evidence, conditions)];
      prior := next;
    }

    /** if condition: add(next, ...) */
    method AddIf(condition: bool, next: State, evidence: EvidenceState, conditions: set<Blocker>, ghost f: Findings)
      requires next != Start && (condition <==> Enters(f, next))
      requires condition ==> Entry(f, prior, next) == Transition(prior, next, evidence, conditions)
      requires transitions == TraceTo(f, Before(next)) && prior == LastState(transitions)
      modifies this`transitions, this`prior
      ensures transitions == TraceTo(f, next) && prior == LastState(transitions)
    {
      if condition {
        Add(next, evidence, conditions);
      }
    }

    method AddSupplierSteps(f: Findings)
      requires blockers == f.early && evidence == f.evidence
      requires transitions == TraceTo(f, Screened) && prior == LastState(transitions)
      modifies this
      ensures transitions == TraceTo(f, OfferConflicted) && prior == LastState(transitions)
      ensures blockers == LateBlockers(f)
    {
      AddIf(f.hasOffers, SupplierClaimed, evidence, blockers, f);
      var documented := f.hasOffers && f.termsAndPolicy && f.documented;
      AddIf(documented, SupplierDocumented, evidence, blockers, f);
      if f.hasOffers && f.termsAndPolicy && !documented {
        blockers := blockers + {ReviewOrReferenceMissing};
      }
      AddIf(f.hasOffers && f.conflicted, OfferConflicted, evidence, blockers, f);
    }

    method AddEvidenceSteps(f: Findings)
      requires blockers == LateBlockers(f) && evidence == f.evidence
      requires transitions == TraceTo(f, OfferConflicted) && prior == LastState(transitions)
      modifies this`transitions, this`prior
      ensures transitions == TraceTo(f, LaneVerified) && prior == LastState(transitions)
    {
      AddIf(f.gaps != {}, EvidenceIncomplete, Unavailable, f.gaps, f);
      AddIf(f.laneObserved, LaneVerified, evidence, blockers, f);
    }

    method AddRequirementSteps(f: Findings)
      requires blockers == LateBlockers(f) && evidence == f.evidence
      requires transitions == TraceTo(f, LaneVerified) && prior == LastState(transitions)
      modifies this`transitions, this`prior
      ensures transitions == TraceTo(f, RmaRequired) && prior == LastState(transitions)
    {
      AddIf(f.hasOffers && f.sampleMissing, SampleRequired, evidence, blockers, f);
      AddIf(f.hasOffers && f.directMissing, DirectShipRequired, evidence, blockers, f);
      AddIf(f.hasOffers && f.rmaMissing, RmaRequired, evidence, blockers, f);
    }

    method AddReadinessSteps(f: Findings)
      requires blockers == LateBlockers(f) && evidence == f.evidence
      requires transitions == TraceTo(f, RmaRequired) && prior == LastState(transitions)
      modifies this`transitions, this`prior
      ensures transitions == TraceTo(f, CompetitionReady) && prior == LastState(transitions)
    {
      AddIf(f.economicsReady, EconomicsReady, evidence, blockers, f);
      AddIf(f.competitionReady, CompetitionReady, evidence, blockers, f);
    }

    method AddFinalSteps(f: Findings)
      requires blockers == LateBlockers(f) && evidence == f.evidence
      requires transitions == TraceTo(f, CompetitionReady) && prior == LastState(transitions)
      modifies this`transitions, this`prior
      ensures transitions == TraceTo(f, LaunchAuthorizedFalse) && prior == LaunchAuthorizedFalse
    {
      AddIf(blockers != {}, PromotionBlocked, evidence, blockers, f);
      AddIf(true, LaunchAuthorizedFalse, evidence, blockers, f);
    }
  }

  /** _promotion_lifecycle with the gates of _candidate_audit. It never reports that the
      transition cap was exceeded. */
  method PromoteCandidate(p: Packet) returns (r: Result<(seq<Transition>, Outcome, set<Blocker>), string>)
    ensures r.Ok? && r.value.0 == TraceTo(Assess(p), LaunchAuthorizedFalse)
    ensures r.Ok? && |r.value.0| <= 15 && r.value.2 == Gaps(p)
    ensures r.Ok? && r.value.1 ==
      (if IsRejected(p) then Rejected
       else if p.decision.defer then Deferred
       else if LacksEvidence(p) then NeedsEvidence
       else if p.decision.hold || p.lifecycle == OnHold then HoldForManualReview
       else CandidateOnly)
    ensures r.Ok? && r.value.1 == DecisionOutcome(p, Gaps(p), LaunchAuthorizedFalse) != LaunchCandidateOutcome
  {
    GapsIff(p);
    var f := Assess(p);
    var log := BuildTrace(f);
    TraceLength(f, LaunchAuthorizedFalse);
    if |log.transitions| > MAX_TRANSITIONS {
      return Err("promotion lifecycle exceeds transition cap");
    }
    r := Ok((log.transitions, DecisionOutcome(p, f.gaps, log.prior), f.gaps));
  }

  /** Someone has already said no: the manifest or the synthesis. */
  predicate IsRejected(p: Packet) {
    p.lifecycle == Reject || p.lifecycle == NoLaunch || p.decision.reject
  }

  /** No offer, an offer with an issue, no market evidence, or a lane nothing is known of. */
  predicate LacksEvidence(p: Packet) {
    || p.offers == [] || (exists o :: o in p.offers && o.issues != {}) || !p.marketEvidence
    || p.lane == Unavailable || p.lane == Malformed || p.lane == Blocked
  }

  method BuildTrace(f: Findings) returns (log: PromotionLog)
    ensures log.transitions == TraceTo(f, LaunchAuthorizedFalse) && log.prior == LaunchAuthorizedFalse
  {
    log := new PromotionLog(f.early, f.evidence);
    log.AddIf(true, Discovered, log.evidence, {}, f);
    log.AddIf(true, Normalized, log.evidence, {}, f);
    log.AddIf(true, Screened, log.evidence, log.blockers, f);
    log.AddSupplierSteps(f);
    log.AddEvidenceSteps(f);
    log.AddRequirementSteps(f);
    log.AddReadinessSteps(f);
    log.AddFinalSteps(f);
  }

  // Properties of every trace ---------------------------------------------------------------

  lemma {:induction false} TraceLength(f: Findings, s: State)
    ensures |TraceTo(f, s)| <= Rank(s)
    decreases Rank(s)
  {
    if s != Start {
      TraceLength(f, Before(s));
    }
  }

  /** Every transition starts where the one before ended. */
  predicate Chain(t: seq<Transition>) {
    forall i :: 0 <= i < |t| ==> t[i].prior == if i == 0 then Start else t[i - 1].next
  }

  predicate Climbs(t: seq<Transition>, high: nat) {
    && (forall i :: 0 <= i < |t| ==> Rank(t[i].next) <= high)
    && (forall i, j :: 0 <= i < j < |t| ==> Rank(t[i].next) < Rank(t[j].next))
  }

  predicate Visits(t: seq<Transition>, s: State) {
    exists i :: 0 <= i < |t| && t[i].next == s
  }

  lemma ClimbsExtend(t: seq<Transition>, x: Transition, high: nat)
    requires Chain(t) && Climbs(t, high) && x.prior == LastState(t) && Rank(x.next) == high + 1
    ensures Chain(t + [x]) && Climbs(t + [x], high + 1)
  {
    var u := t + [x];
    assert u[|t|] == x && forall i :: 0 <= i < |t| ==> u[i] == t[i];
  }

  lemma {:induction false} TraceClimbs(f: Findings, s: State)
    ensures Chain(TraceTo(f, s)) && Climbs(TraceTo(f, s), Rank(s))
    decreases Rank(s)
  {
    if s != Start {
      var t := TraceTo(f, Before(s));
      TraceClimbs(f, Before(s));
      ClimbsExtend(t, Entry(f, LastState(t), s), Rank(Before(s)));
    }
  }

  /** A state is visited exactly when its condition holds and its turn has come. */
  lemma {:induction false} TraceVisits(f: Findings, last: State, s: State)
    ensures Visits(TraceTo(f, last), s) <==> 1 <= Rank(s) <= Rank(last) && Enters(f, s)
    decreases Rank(last)
  {
    if last != Start {
      TraceVisits(f, Before(last), s);
      RankInjective(s, last);
      if Enters(f, last) {
        VisitsExtend(TraceTo(f, Before(last)), Entry(f, LastState(TraceTo(f, Before(last))), last), s);
      }
    }
  }

  lemma VisitsExtend(t: seq<Transition>, x: Transition, s: State)
    ensures Visits(t + [x], s) <==> Visits(t, s) || x.next == s
  {
    var u := t + [x];
    assert u[|t|] == x;
    if i :| 0 <= i < |t| && t[i].next == s {
      assert u[i] == t[i];
    }
  }

  lemma RankInjective(s: State, t: State)
    ensures Rank(s) == Rank(t) ==> s == t
  {
  }

  lemma TraceEnds(f: Findings)
    requires f.early != {}
    ensures var t := TraceTo(f, LaunchAuthorizedFalse);
      && LastState(t) == LaunchAuthorizedFalse && Visits(t, PromotionBlocked)
      && !Visits(t, LaunchCandidate) && !Visits(t, ManuallyApproved) && !Visits(t, LiveValidated)
  {
    TraceVisits(f, LaunchAuthorizedFalse, PromotionBlocked);
    TraceVisits(f, LaunchAuthorizedFalse, LaunchCandidate);
    TraceVisits(f, LaunchAuthorizedFalse, ManuallyApproved);
    TraceVisits(f, LaunchAuthorizedFalse, LiveValidated);
  }

  lemma TraceIsSimple(f: Findings, s: State)
    ensures var t := TraceTo(f, s);
      |t| <= Rank(s) && Chain(t) && forall i, j :: 0 <= i < j < |t| ==> t[i].next != t[j].next
  {
    TraceLength(f, s);
    TraceClimbs(f, s);
  }

  /** For every packet: a chain without repetition, at most fifteen steps, through
      promotion_blocked, ending in launch_authorized_false, and never at a launch state. */
  lemma EveryTraceIsBlocked(p: Packet)
    ensures var t := TraceTo(Assess(p), LaunchAuthorizedFalse);
      && Chain(t) && (forall i, j :: 0 <= i < j < |t| ==> t[i].next != t[j].next)
      && |t| <= 15 && Visits(t, PromotionBlocked) && LastState(t) == LaunchAuthorizedFalse
      && !Visits(t, LaunchCandidate) && !Visits(t, ManuallyApproved) && !Visits(t, LiveValidated)
  {
    assert NoLaunchAuthority in Assess(p).early;
    TraceIsSimple(Assess(p), LaunchAuthorizedFalse);
    TraceEnds(Assess(p));
  }

  /** What a transition reports: from screened on the standing blockers, at evidence_incomplete the
      gaps, with the evidence withdrawn. */
  predicate Reports(p: Packet, t: Transition) {
    && t.evidence == (if t.next == EvidenceIncomplete then Unavailable else EvidenceOf(p))
    && t.conditions ==
       match t.next
       case Discovered | Normalized => {}
       case EvidenceIncomplete => Gaps(p)
       case Screened | SupplierClaimed | SupplierDocumented => EarlyBlockers(p)
       case _ => LateBlockers(Assess(p))
  }

  /** What every step reports. With BlockersExactly: no step past normalized is reported as free of
      blockers, and each names the missing launch authority, except evidence_incomplete. */
  lemma {:induction false} EveryStepReportsBlockers(p: Packet, last: State)
    ensures forall t :: t in TraceTo(Assess(p), last) ==> Reports(p, t)
    decreases Rank(last)
  {
    if last != Start {
      EveryStepReportsBlockers(p, Before(last));
      var f := Assess(p);
      assert Enters(f, last) ==> Reports(p, Entry(f, LastState(TraceTo(f, Before(last))), last));
    }
  }

  /** The blockers and the gaps, one by one, from the packet. */
  lemma BlockersExactly(p: Packet, b: Blocker)
    ensures b in EarlyBlockers(p) <==>
      match b
      case NotLiveSupplierProof | NoLaunchAuthority => true
      case OfferMissing => p.offers == []
      case CompetitionMissing => !p.marketEvidence
      case LaneNotVerified => p.lane != Observed
      case OfferIssue(i) => exists o :: o in p.offers && i in o.issues
      case ReviewOrReferenceMissing => false
    ensures b in LateBlockers(Assess(p)) <==>
      b in EarlyBlockers(p) ||
      (b.ReviewOrReferenceMissing? && p.offers != [] && TermsAndPolicy(p.offers) && !Documented(p.offers))
    ensures b in Gaps(p) <==>
      match b
      case OfferMissing => p.offers == []
      case CompetitionMissing => !p.marketEvidence
      case LaneNotVerified => p.lane == Unavailable || p.lane == Malformed || p.lane == Blocked
      case OfferIssue(i) => exists o :: o in p.offers && i in o.issues
      case _ => false
  {
    assert forall i :: i in OfferIssues(p.offers) <==> exists o :: o in p.offers && i in o.issues;
  }

  lemma GapsIff(p: Packet)
    ensures Gaps(p) != {} <==> LacksEvidence(p)
  {
    if o :| o in p.offers && o.issues != {} {
      var i :| i in o.issues;
      BlockersExactly(p, OfferIssue(i));
    }
    BlockersExactly(p, OfferMissing);
    BlockersExactly(p, CompetitionMissing);
    BlockersExactly(p, LaneNotVerified);
    if b :| b in Gaps(p) {
      BlockersExactly(p, b);
    }
  }

  /** The evidence a trace is labelled with: that of its offers if they agree, of the lane if there
      are none. */
  lemma EvidenceLabel(p: Packet, e: EvidenceState)
    ensures p.offers == [] ==> EvidenceOf(p) == p.lane
    ensures p.offers != [] && (forall o :: o in p.offers ==> o.state == e) ==> EvidenceOf(p) == e
    ensures (exists o, q :: o in p.offers && q in p.offers && o.state != q.state) ==> EvidenceOf(p) == Unavailable
  {
  }

  // The trace, state by state -------------------------------------------------------------------

  /** The order in which a trace can visit its states. */
  const ORDER: seq<State> := [
    Discovered, Normalized, Screened, SupplierClaimed, SupplierDocumented, OfferConflicted, EvidenceIncomplete,
    LaneVerified, SampleRequired, DirectShipRequired, RmaRequired, EconomicsReady, CompetitionReady,
    PromotionBlocked, LaunchAuthorizedFalse]

  /** What brings a candidate into a state, from the packet alone. */
  predicate Qualifies(p: Packet, s: State) {
    match s
    case Discovered | Normalized | Screened | PromotionBlocked | LaunchAuthorizedFalse => true
    case SupplierClaimed => p.offers != []
    case SupplierDocumented => p.offers != [] && TermsAndPolicy(p.offers) && Documented(p.offers)
    case OfferConflicted => exists o :: o in p.offers && ConflictingOffer in o.issues
    case EvidenceIncomplete => LacksEvidence(p)
    case LaneVerified => p.lane == Observed
    case SampleRequired => exists o :: o in p.offers && !o.samplePassed
    case DirectShipRequired => exists o :: o in p.offers && !o.shipsDirect
    case RmaRequired => exists o :: o in p.offers && o.rma.Unknown?
    case EconomicsReady => p.economicsComplete
    case CompetitionReady => p.marketEvidence && p.marketReasonsClean
    case _ => false
  }

  lemma EntersIff(p: Packet, s: State)
    ensures Enters(Assess(p), s) <==> Qualifies(p, s)
  {
    match s
    case EvidenceIncomplete => GapsIff(p);
    case PromotionBlocked => BlockersExactly(p, NoLaunchAuthority);
    case _ =>
  }

  function NextStates(t: seq<Transition>): seq<State> {
    if t == [] then [] else NextStates(t[..|t| - 1]) + [t[|t| - 1].next]
  }

  /** The states of a list that the candidate qualifies for. */
  function Qualified(p: Packet, states: seq<State>): seq<State> {
    if states == [] then []
    else
      var last := states[|states| - 1];
      Qualified(p, states[..|states| - 1]) + if Qualifies(p, last) then [last] else []
  }

  lemma QualifiedNext(p: Packet, k: nat)
    requires k < 15
    ensures Qualified(p, ORDER[..k + 1]) == Qualified(p, ORDER[..k]) + if Qualifies(p, ORDER[k]) then [ORDER[k]] else []
  {
    assert ORDER[..k + 1][..k] == ORDER[..k];
  }

  lemma {:induction false} TraceUpTo(p: Packet, k: nat)
    requires k < 15
    ensures NextStates(TraceTo(Assess(p), ORDER[k])) == Qualified(p, ORDER[..k + 1])
  {
    var f, s := Assess(p), ORDER[k];
    var t := TraceTo(f, Before(s));
    EntersIff(p, s);
    OrderBefore(k);
    QualifiedNext(p, k);
    if k > 0 {
      TraceUpTo(p, k - 1);
    }
    if Enters(f, s) {
      NextStatesAppend(t, Entry(f, LastState(t), s));
    }
  }

  lemma NextStatesAppend(t: seq<Transition>, x: Transition)
    ensures NextStates(t + [x]) == NextStates(t) + [x.next]
  {
    assert (t + [x])[..|t|] == t;
  }

  lemma OrderBefore(k: nat)
    requires k < 15
    ensures ORDER[k] != Start && Before(ORDER[k]) == if k == 0 then Start else ORDER[k - 1]
  {
  }

  /** A trace is exactly the states the candidate qualifies for, in this order. */
  lemma TraceExactly(p: Packet)
    ensures NextStates(TraceTo(Assess(p), LaunchAuthorizedFalse)) == Qualified(p, ORDER)
  {
    TraceUpTo(p, 14);
    assert ORDER[..15] == ORDER;
  }

  /** When a trace passes through supplier_documented. */
  lemma DocumentedVisit(p: Packet)
    ensures Visits(TraceTo(Assess(p), LaunchAuthorizedFalse), SupplierDocumented) <==>
      p.offers != [] && TermsAndPolicy(p.offers) && Documented(p.offers)
  {
    TraceVisits(Assess(p), LaunchAuthorizedFalse, SupplierDocumented);
  }

  /** An outcome that is not a rejection, a deferral or a call for evidence means that nothing was
      missing: offers without issues, market evidence, and a lane that is at least assumed. */
  lemma OutcomeWithoutGaps(p: Packet)
    requires var o := DecisionOutcome(p, Gaps(p), LaunchAuthorizedFalse); o == HoldForManualReview || o == CandidateOnly
    ensures p.offers != [] && p.marketEvidence && forall o :: o in p.offers ==> o.issues == {}
    ensures p.lane != Unavailable && p.lane != Malformed && p.lane != Blocked
  {
    GapsIff(p);
  }
}
