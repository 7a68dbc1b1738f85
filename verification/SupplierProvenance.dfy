/** Where a supplier offer's confirmation comes from (scripts/research_to_decision.py). */
module SupplierProvenance {
  import opened Wrappers
  import opened Texts
  import opened PromotionLifecycle
  import opened EvidenceConflicts

  /** (offer id, exact SKU, document reference), given by the operator outside every import. */
  type Triple = (string, string, string)

  /** A raw boolean cell: missing, a JSON boolean, or its stripped lower-case text. */
  datatype Raw = Missing | Flag(value: bool) | Word(text: string)

  /** The columns of a supplier row, "" where absent; where several names are tried for a column,
      the first one present. The fields from problem on stand for what the row's other columns
      amount to; none of them is read from the two confirmation columns. */
  datatype Row = Row(
    candidateId: string, offerId: string, sku: string,
    supplier: string, provider: string, productId: string, sourceUrl: string,
    unitCost: string, shippingCost: string, currency: string, destination: string,
    humanConfirmed: Raw, humanReviewed: Raw, reference: string,
    problem: bool,               // some other check of the row raises
    issues: set<string>, terms: Field, policy: Field, rma: Field, samplePassed: bool, shipsDirect: bool)

  /** An import file; selected holds the manifest entry's candidate_ids, empty for all. */
  datatype File = File(csv: bool, supplier: string, sourceReference: string, selected: set<string>, rows: seq<Row>)

  /** What a run is given besides files: the operator's triples, the rules for a safe reference
      text, and the importer's own merging of duplicate records within a file. */
  datatype Setting = Setting(
    confirmations: set<Triple>, safe: string -> bool, dedupe: seq<Record> -> seq<Record>)

  const MAX_RECORDS: nat := 100

  predicate IsTrueText(t: string) {
    t == "true" || t == "yes" || t == "y" || t == "1"
  }

  predicate IsFalseText(t: string) {
    t == "false" || t == "no" || t == "n" || t == "0"
  }

  /** _bool_field over the two columns: the first that is present, absent meaning false. */
  function Claim(r: Row): Result<bool, string> {
    match if r.humanConfirmed.Missing? then r.humanReviewed else r.humanConfirmed
    case Missing => Ok(false)
    case Flag(b) => Ok(b)
    case Word(t) =>
      if IsTrueText(t) then Ok(true) else if IsFalseText(t) then Ok(false) else Err("must be a boolean")
  }

  /** _reference_text accepts. */
  predicate IsReference(s: string, safe: string -> bool) {
    '\r' !in s && '\n' !in s && IsRequiredText(s) && safe(Collapse(s))
  }

  /** The row's own reference, else the file's; "" if neither. */
  function RawReference(r: Row, f: File): string {
    Or(r.reference, f.sourceReference)
  }

  function ExplicitReference(r: Row, f: File): string {
    Collapse(RawReference(r, f))
  }

  /** The supplier as the offer has it: the row's text, not lower-cased and without default. */
  function OfferSupplier(r: Row): string {
    if Or(r.supplier, r.provider) == "" then "unknown" else Collapse(Or(r.supplier, r.provider))
  }

  predicate IsAcceptable(r: Row, f: File, safe: string -> bool) {
    && IsRequiredText(r.candidateId) && IsRequiredText(r.offerId) && IsRequiredText(r.sku)
    && |OfferSupplier(r)| <= MAX_TEXT
    && (RawReference(r, f) == "" || IsReference(RawReference(r, f), safe))
    && Claim(r).Ok? && !r.problem
  }

  /** _normalize_supplier_offer. */
  function Normalize(r: Row, f: File, k: Setting): Result<Offer, string> {
    if !IsAcceptable(r, f, k.safe) then Err("supplier offer rejected")
    else
      var offerId, sku, reference := Collapse(r.offerId), Collapse(r.sku), ExplicitReference(r, f);
      Ok(Offer(
        Collapse(r.candidateId), offerId, OfferSupplier(r), sku,
        OwnIssues(r), r.terms, r.policy, r.rma, r.samplePassed, r.shipsDirect,
        RawReference(r, f) != "",
        RawReference(r, f) != "" && (offerId, sku, reference) in k.confirmations,
        Claim(r).value,
        if f.csv then Manual else Fixture))
  }

  /** The issues a row has by itself. */
  function OwnIssues(r: Row): set<Issue> {
    (set c | c in r.issues :: OtherIssue(c))
    + if Or(r.supplier, r.provider) == "" then {OtherIssue("supplier_missing")} else {}
  }

  /** The offers of one file, in row order; the first bad row fails the run. */
  function NormalizeAll(rows: seq<Row>, f: File, k: Setting): Result<seq<Offer>, string> {
    if rows == [] then Ok([])
    else
      match NormalizeAll(rows[..|rows| - 1], f, k)
      case Err(e) => Err(e)
      case Ok(offers) =>
        match Normalize(rows[|rows| - 1], f, k)
        case Err(e) => Err(e)
        case Ok(offer) => Ok(offers + [offer])
  }

  // Operator input --------------------------------------------------------------------------

  predicate WellFormed(value: seq<string>, safe: string -> bool) {
    |value| == 3 && IsRequiredText(value[0]) && IsRequiredText(value[1]) && IsReference(value[2], safe)
  }

  /** The triple an entry confirms, up to whitespace. */
  function AsTriple(value: seq<string>): Triple {
    if |value| == 3 then (Collapse(value[0]), Collapse(value[1]), Collapse(value[2])) else ("", "", "")
  }

  function Triples(values: seq<seq<string>>): set<Triple> {
    set v | v in values :: AsTriple(v)
  }

  ghost predicate AllWellFormed(values: seq<seq<string>>, safe: string -> bool) {
    forall v :: v in values ==> WellFormed(v, safe)
  }

  ghost predicate NoneTwice(values: seq<seq<string>>) {
    forall i, j :: 0 <= i < j < |values| ==> AsTriple(values[i]) != AsTriple(values[j])
  }

  /** _operator_supplier_confirmations: exactly the given triples up to whitespace, each once. */
  method OperatorSupplierConfirmations(values: seq<seq<string>>, safe: string -> bool)
    returns (r: Result<set<Triple>, string>)
    ensures r.Ok? <==> |values| <= 100 && AllWellFormed(values, safe) && NoneTwice(values)
    ensures r.Ok? ==> r.value == Triples(values)
  {
    if |values| > MAX_RECORDS {
      return Err("operator supplier confirmations must be a bounded list");
    }
    var confirmations: set<Triple> := {};
    for i := 0 to |values|
      invariant AllWellFormed(values[..i], safe) && NoneTwice(values[..i]) && confirmations == Triples(values[..i])
    {
      OneMoreTriple(values, i, safe);
      if !WellFormed(values[i], safe) {
        return Err("operator supplier confirmation requires offer_id, exact_sku, and document_reference");
      }
      if AsTriple(values[i]) in confirmations {
        return Err("duplicate operator supplier confirmation");
      }
      confirmations := confirmations + {AsTriple(values[i])};
    }
    assert values[..|values|] == values;
    r := Ok(confirmations);
  }

  lemma OneMoreTriple(values: seq<seq<string>>, i: nat, safe: string -> bool)
    requires i < |values| && AllWellFormed(values[..i], safe) && NoneTwice(values[..i])
    ensures Triples(values[..i + 1]) == Triples(values[..i]) + {AsTriple(values[i])}
    ensures if WellFormed(values[i], safe) then AllWellFormed(values[..i + 1], safe) else !AllWellFormed(values, safe)
    ensures if AsTriple(values[i]) in Triples(values[..i]) then !NoneTwice(values) else NoneTwice(values[..i + 1])
  {
    var upTo := values[..i + 1];
    assert upTo == values[..i] + [values[i]] && values[i] in values;
    if v :| v in values[..i] && AsTriple(v) == AsTriple(values[i]) {
      var j :| 0 <= j < i && values[j] == v;
    } else {
      forall j | 0 <= j < i ensures AsTriple(values[j]) != AsTriple(values[i]) {
        assert values[j] in values[..i];
      }
    }
  }

  // Provenance ------------------------------------------------------------------------------

  /** o came from this row of this file; the conflict pass may since have added an issue. */
  predicate ComesFrom(o: Offer, r: Row, f: File, k: Setting) {
    Normalize(r, f, k).Ok? && o.(issues := OwnIssues(r)) == Normalize(r, f, k).value
  }

  ghost predicate Imported(o: Offer, files: seq<File>, k: Setting) {
    exists f, r :: f in files && r in f.rows && ComesFrom(o, r, f, k)
  }

  lemma {:induction false} NormalizedRows(rows: seq<Row>, f: File, k: Setting, o: Offer)
    requires NormalizeAll(rows, f, k).Ok? && o in NormalizeAll(rows, f, k).value
    ensures exists r :: r in rows && ComesFrom(o, r, f, k)
  {
    var prior := rows[..|rows| - 1];
    if o in NormalizeAll(prior, f, k).value {
      NormalizedRows(prior, f, k, o);
    } else {
      assert rows[|rows| - 1] in rows && ComesFrom(o, rows[|rows| - 1], f, k);
    }
  }

  /** supplier_documented needs the operator: there is an offer, and every offer came from a CSV
      row whose identity and explicit reference the operator confirmed, with terms and policy. */
  lemma DocumentedNeedsOperator(p: Packet, files: seq<File>, k: Setting)
    requires forall o :: o in p.offers ==> Imported(o, files, k)
    ensures Visits(TraceTo(Assess(p), LaunchAuthorizedFalse), SupplierDocumented) <==>
      && p.offers != []
      && forall o :: o in p.offers ==> o.terms.Known? && o.policy.Known? && Attested(o, files, k)
  {
    DocumentedVisit(p);
    forall o | o in p.offers
      ensures Attested(o, files, k) <==> o.referenceProvided && o.humanConfirmed && o.state == Manual
    {
      AttestedFlags(o, files, k);
    }
  }

  lemma AttestedFlags(o: Offer, files: seq<File>, k: Setting)
    requires Imported(o, files, k)
    ensures Attested(o, files, k) <==> o.referenceProvided && o.humanConfirmed && o.state == Manual
  {
    var f, r :| f in files && r in f.rows && ComesFrom(o, r, f, k);
  }

  ghost predicate Attested(o: Offer, files: seq<File>, k: Setting) {
    exists f, r :: f in files && r in f.rows && ComesFrom(o, r, f, k) && f.csv && OperatorConfirmed(r, f, k)
  }

  /** The operator gave the row's offer id, SKU and explicit reference. */
  predicate OperatorConfirmed(r: Row, f: File, k: Setting) {
    && RawReference(r, f) != ""
    && (Collapse(r.offerId), Collapse(r.sku), ExplicitReference(r, f)) in k.confirmations
  }

  /** In the operator's own words: some entry names the row's offer, SKU and reference. */
  lemma OperatorConfirmedIff(r: Row, f: File, k: Setting, values: seq<seq<string>>)
    requires AllWellFormed(values, k.safe) && k.confirmations == Triples(values)
    ensures OperatorConfirmed(r, f, k) <==>
      && (r.reference != "" || f.sourceReference != "")
      && exists v :: v in values && Names(v, r.offerId, r.sku, Or(r.reference, f.sourceReference))
  {
    var t := (Collapse(r.offerId), Collapse(r.sku), ExplicitReference(r, f));
    if v :| v in values && AsTriple(v) == t {
      assert WellFormed(v, k.safe) && Names(v, r.offerId, r.sku, RawReference(r, f));
    }
    if v :| v in values && Names(v, r.offerId, r.sku, RawReference(r, f)) {
      assert AsTriple(v) == t;
    }
  }

  /** The entry is these three texts, up to whitespace. */
  predicate Names(v: seq<string>, offerId: string, sku: string, reference: string) {
    && |v| == 3 && Collapse(v[0]) == Collapse(offerId) && Collapse(v[1]) == Collapse(sku)
    && Collapse(v[2]) == Collapse(reference)
  }

  /** What a supplier file may say in the two confirmation columns. */
  lemma ClaimExactly(r: Row)
    ensures var cell := if r.humanConfirmed == Missing then r.humanReviewed else r.humanConfirmed;
      match cell
      case Missing => Claim(r) == Ok(false)
      case Flag(b) => Claim(r) == Ok(b)
      case Word(t) =>
        && (Claim(r) == Ok(true) <==> t in ["true", "yes", "y", "1"])
        && (Claim(r) == Ok(false) <==> t in ["false", "no", "n", "0"])
        && (Claim(r).Err? <==> t !in ["true", "yes", "y", "1", "false", "no", "n", "0"])
  {
    assert "true"[0] == 't' && "yes"[0] == 'y' && "y"[0] == 'y' && "1"[0] == '1';
    assert "false"[0] == 'f' && "no"[0] == 'n' && "n"[0] == 'n' && "0"[0] == '0';
  }

  /** Which rows are accepted, and what the offer of an accepted row carries. */
  lemma OfferExactly(r: Row, f: File, k: Setting)
    ensures Normalize(r, f, k).Ok? <==>
      && 0 < |Collapse(r.candidateId)| <= 240 && 0 < |Collapse(r.offerId)| <= 240 && 0 < |Collapse(r.sku)| <= 240
      && |OfferSupplier(r)| <= 240 && Claim(r).Ok? && !r.problem
      && (RawReference(r, f) != "" ==> IsReference(RawReference(r, f), k.safe))
    ensures Normalize(r, f, k).Ok? ==> Carries(Normalize(r, f, k).value, r, f, k)
  {
  }

  ghost predicate Carries(o: Offer, r: Row, f: File, k: Setting) {
    && o.candidateId == Collapse(r.candidateId) && o.offerId == Collapse(r.offerId) && o.exactSku == Collapse(r.sku)
    && o.terms == r.terms && o.policy == r.policy && o.rma == r.rma
    && o.samplePassed == r.samplePassed && o.shipsDirect == r.shipsDirect
    && (o.state == Manual <==> f.csv) && (o.state == Fixture <==> !f.csv)
    && (o.referenceProvided <==> r.reference != "" || f.sourceReference != "")
    && (o.humanConfirmed <==> OperatorConfirmed(r, f, k))
    && Claim(r) == Ok(o.claimsConfirmation)
    && (forall c :: OtherIssue(c) in o.issues <==>
          c in r.issues || (c == "supplier_missing" && r.supplier == "" && r.provider == ""))
    && ConflictingOffer !in o.issues
  }

  // Non-interference ------------------------------------------------------------------------

  /** The offer without what the supplier file claims about its own confirmation. */
  function Erase(o: Offer): Offer {
    o.(claimsConfirmation := false)
  }

  predicate SameButClaims(a: seq<Offer>, b: seq<Offer>) {
    |a| == |b| && forall i :: 0 <= i < |a| ==> Erase(a[i]) == Erase(b[i])
  }

  /** The rows differ at most in the two confirmation columns, which are valid in both. */
  predicate SameRow(r: Row, q: Row) {
    r == q.(humanConfirmed := r.humanConfirmed, humanReviewed := r.humanReviewed) && Claim(r).Ok? && Claim(q).Ok?
  }

  predicate SameFile(f: File, g: File) {
    g == f.(rows := g.rows) && |f.rows| == |g.rows| && forall i :: 0 <= i < |f.rows| ==> SameRow(f.rows[i], g.rows[i])
  }

  predicate SameFiles(fs: seq<File>, gs: seq<File>) {
    |fs| == |gs| && forall i :: 0 <= i < |fs| ==> SameFile(fs[i], gs[i])
  }

  ghost predicate SameResult(a: Result<seq<Offer>, string>, b: Result<seq<Offer>, string>) {
    if a.Ok? then b.Ok? && SameButClaims(a.value, b.value) else a == b
  }

  lemma SameRowSameOffer(r: Row, q: Row, f: File, g: File, k: Setting)
    requires g == f.(rows := g.rows) && SameRow(r, q)
    ensures if Normalize(r, f, k).Ok?
            then Normalize(q, g, k).Ok? && Erase(Normalize(r, f, k).value) == Erase(Normalize(q, g, k).value)
            else Normalize(q, g, k) == Normalize(r, f, k)
  {
  }

  lemma {:induction false} SameRowsSameOffers(rs: seq<Row>, qs: seq<Row>, f: File, g: File, k: Setting)
    requires g == f.(rows := g.rows)
    requires |rs| == |qs| && forall i :: 0 <= i < |rs| ==> SameRow(rs[i], qs[i])
    ensures SameResult(NormalizeAll(rs, f, k), NormalizeAll(qs, g, k))
  {
    if rs != [] {
      SameRowsSameOffers(rs[..|rs| - 1], qs[..|qs| - 1], f, g, k);
      SameRowSameOffer(rs[|rs| - 1], qs[|qs| - 1], f, g, k);
    }
  }

  lemma MatchingOffer(a: seq<Offer>, b: seq<Offer>, o: Offer) returns (q: Offer)
    requires SameButClaims(a, b) && o in a
    ensures q in b && Erase(o) == Erase(q)
  {
    var i :| 0 <= i < |a| && a[i] == o;
    q := b[i];
  }

  lemma IssuesIgnoreClaims(a: seq<Offer>, b: seq<Offer>)
    requires SameButClaims(a, b)
    ensures OfferIssues(a) <= OfferIssues(b)
  {
    forall i | i in OfferIssues(a) ensures i in OfferIssues(b) {
      var o :| o in a && i in o.issues;
      var q := MatchingOffer(a, b, o);
      assert q.issues == Erase(q).issues == o.issues;
    }
  }

  lemma SameFlip(a: seq<Offer>, b: seq<Offer>)
    requires SameButClaims(a, b)
    ensures SameButClaims(b, a)
  {
  }

  lemma ChecksIgnoreClaims(a: seq<Offer>, b: seq<Offer>)
    requires SameButClaims(a, b)
    ensures TermsAndPolicy(a) ==> TermsAndPolicy(b)
    ensures Documented(a) ==> Documented(b)
  {
    SameFlip(a, b);
    forall o | o in b
      ensures TermsAndPolicy(a) ==> o.terms.Known? && o.policy.Known?
      ensures Documented(a) ==> o.referenceProvided && o.humanConfirmed && o.state == Manual
    {
      var q := MatchingOffer(b, a, o);
      assert q.terms == Erase(q).terms && q.policy == Erase(q).policy && q.state == Erase(q).state;
      assert q.referenceProvided == Erase(q).referenceProvided && q.humanConfirmed == Erase(q).humanConfirmed;
    }
  }

  predicate LacksSample(os: seq<Offer>) {
    exists o :: o in os && !o.samplePassed
  }

  predicate LacksDirect(os: seq<Offer>) {
    exists o :: o in os && !o.shipsDirect
  }

  predicate LacksRma(os: seq<Offer>) {
    exists o :: o in os && o.rma.Unknown?
  }

  lemma LacksIgnoreClaims(a: seq<Offer>, b: seq<Offer>)
    requires SameButClaims(a, b)
    ensures LacksSample(a) ==> LacksSample(b)
    ensures LacksDirect(a) ==> LacksDirect(b)
    ensures LacksRma(a) ==> LacksRma(b)
  {
    if o :| o in a && !o.samplePassed {
      var q := MatchingOffer(a, b, o);
      assert q.samplePassed == Erase(q).samplePassed;
    }
    if o :| o in a && !o.shipsDirect {
      var q := MatchingOffer(a, b, o);
      assert q.shipsDirect == Erase(q).shipsDirect;
    }
    if o :| o in a && o.rma.Unknown? {
      var q := MatchingOffer(a, b, o);
      assert q.rma == Erase(q).rma;
    }
  }

  lemma EvidenceIgnoresClaims(p: Packet, q: Packet)
    requires p == q.(offers := p.offers) && SameButClaims(p.offers, q.offers)
    ensures EvidenceOf(p) == EvidenceOf(q)
  {
    var a, b := p.offers, q.offers;
    assert forall i :: 0 <= i < |a| ==> a[i].state == Erase(a[i]).state == Erase(b[i]).state == b[i].state;
  }

  lemma BlockersIgnoreClaims(p: Packet, q: Packet)
    requires p == q.(offers := p.offers) && SameButClaims(p.offers, q.offers)
    ensures OfferIssues(p.offers) == OfferIssues(q.offers)
    ensures EarlyBlockers(p) == EarlyBlockers(q) && Gaps(p) == Gaps(q)
  {
    SameFlip(p.offers, q.offers);
    IssuesIgnoreClaims(p.offers, q.offers);
    IssuesIgnoreClaims(q.offers, p.offers);
    assert HardGates(p.offers) == HardGates(q.offers);
  }

  lemma FlagsIgnoreClaims(p: Packet, q: Packet)
    requires p == q.(offers := p.offers) && SameButClaims(p.offers, q.offers)
    ensures var f, g := Assess(p), Assess(q);
      f.termsAndPolicy == g.termsAndPolicy && f.documented == g.documented
  {
    SameFlip(p.offers, q.offers);
    ChecksIgnoreClaims(p.offers, q.offers);
    ChecksIgnoreClaims(q.offers, p.offers);
  }

  lemma NeedsIgnoreClaims(p: Packet, q: Packet)
    requires p == q.(offers := p.offers) && SameButClaims(p.offers, q.offers)
    ensures var f, g := Assess(p), Assess(q);
      f.sampleMissing == g.sampleMissing && f.directMissing == g.directMissing && f.rmaMissing == g.rmaMissing
  {
    var a, b := p.offers, q.offers;
    SameFlip(a, b);
    LacksIgnoreClaims(a, b);
    LacksIgnoreClaims(b, a);
    AssessedNeeds(p);
    AssessedNeeds(q);
  }

  lemma AssessedNeeds(p: Packet)
    ensures var f := Assess(p);
      && f.sampleMissing == LacksSample(p.offers)
      && f.directMissing == LacksDirect(p.offers)
      && f.rmaMissing == LacksRma(p.offers)
  {
  }

  lemma FindingsIgnoreClaims(p: Packet, q: Packet)
    requires p == q.(offers := p.offers) && SameButClaims(p.offers, q.offers)
    ensures Assess(p) == Assess(q)
  {
    BlockersIgnoreClaims(p, q);
    EvidenceIgnoresClaims(p, q);
    FlagsIgnoreClaims(p, q);
    NeedsIgnoreClaims(p, q);
  }

  lemma OutcomeIgnoresClaims(p: Packet, q: Packet)
    requires p == q.(offers := p.offers) && SameButClaims(p.offers, q.offers)
    ensures DecisionOutcome(p, Gaps(p), LaunchAuthorizedFalse) == DecisionOutcome(q, Gaps(q), LaunchAuthorizedFalse)
    ensures Gaps(p) == Gaps(q)
  {
    BlockersIgnoreClaims(p, q);
  }

  lemma SameFindingsSameTrace(f: Findings, g: Findings)
    requires f == g
    ensures TraceTo(f, LaunchAuthorizedFalse) == TraceTo(g, LaunchAuthorizedFalse)
  {
  }

  /** What a supplier file says about its own confirmation influences neither the trace nor the
      outcome nor the gaps: packets that differ only in that are promoted alike. */
  lemma ClaimsDoNotInterfere(p: Packet, q: Packet)
    requires p == q.(offers := p.offers) && SameButClaims(p.offers, q.offers)
    ensures TraceTo(Assess(p), LaunchAuthorizedFalse) == TraceTo(Assess(q), LaunchAuthorizedFalse)
    ensures DecisionOutcome(p, Gaps(p), LaunchAuthorizedFalse) == DecisionOutcome(q, Gaps(q), LaunchAuthorizedFalse)
    ensures Gaps(p) == Gaps(q)
  {
    OutcomeIgnoresClaims(p, q);
    FindingsIgnoreClaims(p, q);
    SameFindingsSameTrace(Assess(p), Assess(q));
  }
}
