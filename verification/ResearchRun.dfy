/** A whole run of build_research_to_decision (scripts/research_to_decision.py) over its files. */
module ResearchRun {
  import opened Wrappers
  import opened Texts
  import opened EvidenceConflicts
  import opened PromotionLifecycle
  import opened SupplierProvenance

  /** The suppliers a record can have, and the names that stand for "manual". */
  const SUPPLIERS := {"cj", "alibaba", "aliexpress", "zendrop", "autods", "dsers", "spocket", "manual"}
  const SYNTHETIC := {"synthetic supplier", "synthetic_supplier", "synthetic", "catalog"}

  // From files to records and offers ----------------------------------------------------------

  /** The supplier as the record has it: lower-cased, from the file when the row gives none. */
  function RecordSupplier(r: Row, f: File): Option<string> {
    var name := Lower(Or(Or(r.supplier, r.provider), f.supplier));
    if name in SUPPLIERS then Some(name) else if name in SYNTHETIC then Some("manual") else None
  }

  /** normalize_record, as far as the conflict check reads its result. */
  function RecordOf(r: Row, f: File): Option<Record> {
    var candidateId := Strip(Or(r.candidateId, r.productId));
    if RecordSupplier(r, f).None? || candidateId == "" then None
    else Some(Record(
      candidateId, RecordSupplier(r, f).value, r.productId, r.sku, r.sourceUrl, "", "", "", "", "", "",
      r.unitCost, r.shippingCost, r.currency, r.destination, "", "", "", ""))
  }

  function RecordsOf(rows: seq<Row>, f: File): seq<Record> {
    if rows == [] then []
    else
      var record := RecordOf(rows[|rows| - 1], f);
      RecordsOf(rows[..|rows| - 1], f) + if record.Some? then [record.value] else []
  }

  /** Whether the manifest entry selects the candidate. */
  predicate Selects(f: File, candidateId: string) {
    f.selected == {} || candidateId in f.selected
  }

  function SelectRecords(records: seq<Record>, f: File): seq<Record> {
    if records == [] then []
    else
      var r := records[|records| - 1];
      SelectRecords(records[..|records| - 1], f) + if Selects(f, r.candidateId) then [r] else []
  }

  function SelectOffers(offers: seq<Offer>, f: File): seq<Offer> {
    if offers == [] then []
    else
      var o := offers[|offers| - 1];
      SelectOffers(offers[..|offers| - 1], f) + if Selects(f, o.candidateId) then [o] else []
  }

  /** What _load_import returns for a supplier file. */
  datatype Loaded = Loaded(records: seq<Record>, offers: seq<Offer>)

  function Load(f: File, k: Setting): Result<Loaded, string> {
    match NormalizeAll(f.rows, f, k)
    case Err(e) => Err(e)
    case Ok(offers) => Ok(Loaded(SelectRecords(k.dedupe(RecordsOf(f.rows, f)), f), SelectOffers(offers, f)))
  }

  function LoadAll(files: seq<File>, k: Setting): Result<seq<Loaded>, string> {
    if files == [] then Ok([])
    else
      match LoadAll(files[..|files| - 1], k)
      case Err(e) => Err(e)
      case Ok(prior) =>
        match Load(files[|files| - 1], k)
        case Err(e) => Err(e)
        case Ok(last) => Ok(prior + [last])
  }

  function AllOffers(loaded: seq<Loaded>): seq<Offer> {
    if loaded == [] then [] else AllOffers(loaded[..|loaded| - 1]) + loaded[|loaded| - 1].offers
  }

  function Quarantined(offers: seq<Offer>): set<(string, string)> {
    set o | o in offers && o.issues != {} :: (o.candidateId, o.exactSku)
  }

  function SupplierImports(loaded: seq<Loaded>): seq<Import> {
    if loaded == [] then []
    else
      var last := loaded[|loaded| - 1];
      SupplierImports(loaded[..|loaded| - 1]) + [Import(Supplier, last.records, Quarantined(last.offers))]
  }

  // The conflict mark -------------------------------------------------------------------------

  /** The key under which an offer is looked up among the conflicts. */
  function LookupKey(o: Offer): Key {
    Key(Supplier, o.candidateId, [o.supplier, o.exactSku])
  }

  function Mark(o: Offer, conflicts: set<Key>): Offer {
    if LookupKey(o) in conflicts then o.(issues := o.issues + {ConflictingOffer}) else o
  }

  function Marked(offers: seq<Offer>, conflicts: set<Key>): seq<Offer> {
    seq(|offers|, i requires 0 <= i < |offers| => Mark(offers[i], conflicts))
  }

  /** The marking loop over all offers. */
  method MarkConflicts(offers: seq<Offer>, conflicts: set<Key>) returns (marked: seq<Offer>)
    ensures marked == Marked(offers, conflicts)
  {
    marked := [];
    for i := 0 to |offers|
      invariant marked == Marked(offers, conflicts)[..i]
    {
      var o := offers[i];
      if LookupKey(o) in conflicts {
        o := o.(issues := o.issues + {ConflictingOffer});
      }
      marked := marked + [o];
    }
  }

  // The run -----------------------------------------------------------------------------------

  /** What a run leaves for the audit of its candidates. */
  datatype Report = Report(offers: seq<Offer>, survivors: seq<Record>, conflicts: set<Key>)

  /** Everything the conflict checks see; others are the marketplace and consumer imports, which come
      after the supplier files. */
  function Checked(loaded: seq<Loaded>, others: seq<Import>): seq<Entry> {
    HistoryOf(SupplierImports(loaded) + others)
  }

  function Execute(files: seq<File>, others: seq<Import>, k: Setting): Result<Report, string> {
    match LoadAll(files, k)
    case Err(e) => Err(e)
    case Ok(loaded) =>
      var conflicts := Detected(Checked(loaded, others));
      if exists key | key in conflicts :: key.role != Supplier then Err("conflicting duplicate evidence")
      else
        Ok(Report(Marked(AllOffers(loaded), conflicts),
                  WithoutConflicts(Accepted(SupplierImports(loaded) + others), conflicts),
                  conflicts))
  }

  /** The imports, the conflict checks, the marking and the filter, in the source's order. */
  method BuildReport(files: seq<File>, others: seq<Import>, k: Setting) returns (r: Result<Report, string>)
    ensures if Execute(files, others, k).Ok? then r == Execute(files, others, k) else r.Err?
  {
    var loaded := LoadAll(files, k);
    if loaded.Err? {
      return Err(loaded.error);
    }
    var imports := SupplierImports(loaded.value) + others;
    var intake := IntakeAll(imports);
    IntakeDetects(imports);
    if intake.Err? {
      return Err(intake.error);
    }
    var (survivors, conflicts) := intake.value;
    assert conflicts == Detected(HistoryOf(imports));
    var offers := MarkConflicts(AllOffers(loaded.value), conflicts);
    r := Ok(Report(offers, survivors, conflicts));
  }

  lemma IntakeDetects(imports: seq<Import>)
    ensures forall key :: key in Detected(HistoryOf(imports)) <==> HasTwoValues(HistoryOf(imports), key)
  {
    forall key ensures key in Detected(HistoryOf(imports)) <==> HasTwoValues(HistoryOf(imports), key) {
      DetectionExact(HistoryOf(imports), key);
    }
  }

  /** An offer is marked exactly when its own key had two values somewhere in the run. */
  lemma MarkedExactly(files: seq<File>, others: seq<Import>, k: Setting, i: nat)
    requires Execute(files, others, k).Ok? && i < |Execute(files, others, k).value.offers|
    ensures var loaded := LoadAll(files, k).value;
      var before, after := AllOffers(loaded)[i], Execute(files, others, k).value.offers[i];
      && after.(issues := before.issues) == before
      && after.issues == before.issues
                         + if HasTwoValues(Checked(loaded, others), LookupKey(before)) then {ConflictingOffer} else {}
  {
    var loaded := LoadAll(files, k).value;
    DetectionExact(Checked(loaded, others), LookupKey(AllOffers(loaded)[i]));
  }

  // Records and offers are keyed apart --------------------------------------------------------

  /** The row's own spelling agrees with what becomes of it in the record: the candidate has no
      runs of whitespace, the supplier is given and is one of the known names as it stands, and the
      SKU is both without such runs and what identifies the record. */
  predicate SpelledAlike(r: Row) {
    && Strip(r.candidateId) == Collapse(r.candidateId)
    && Or(r.supplier, r.provider) in SUPPLIERS
    && Or(Or(r.productId, r.sku), r.sourceUrl) == Collapse(r.sku)
  }

  lemma SupplierNames()
    ensures forall name :: name in SUPPLIERS ==> name != "" && Lower(name) == name && SpaceFree(name)
    ensures "unknown" !in SUPPLIERS && "" !in SUPPLIERS && "" !in SYNTHETIC
    ensures forall name :: name in SYNTHETIC ==> name !in SUPPLIERS && (name[0] == 's' || name[0] == 'c')
  {
  }

  /** The record's supplier is the offer's exactly if the row names a known supplier verbatim. */
  lemma SameSupplierIff(r: Row, f: File)
    requires RecordSupplier(r, f).Some?
    ensures RecordSupplier(r, f).value == OfferSupplier(r) <==> Or(r.supplier, r.provider) in SUPPLIERS
  {
    var raw := Or(r.supplier, r.provider);
    SupplierNames();
    if raw != "" {
      if Lower(raw) in SUPPLIERS {
        LowerKeepsSpaces(raw);
        SpaceFreeStays(raw);
      } else {
        assert Lower(raw)[0] == LowerChar(raw[0]);
        SyntheticDiffers(raw);
      }
    }
  }

  lemma LowerKeepsSpaces(s: string)
    requires SpaceFree(Lower(s))
    ensures SpaceFree(s)
  {
    forall i | 0 <= i < |s| ensures !IsSpace(s[i]) {
      assert !IsSpace(Lower(s)[i]);
    }
  }

  lemma SyntheticDiffers(raw: string)
    requires raw != "" && Lower(raw) in SYNTHETIC
    ensures Collapse(raw) != "manual" && raw !in SUPPLIERS
  {
    SupplierNames();
    assert Lower(raw)[0] == LowerChar(raw[0]);
    FirstStays(raw);
  }

  /** Of one row, the record and the offer have the same key exactly if they are spelled alike. */
  lemma SameKeyIff(r: Row, f: File, k: Setting)
    requires RecordOf(r, f).Some? && Normalize(r, f, k).Ok?
    ensures ConflictKey(RecordOf(r, f).value, Supplier) == LookupKey(Normalize(r, f, k).value) <==> SpelledAlike(r)
  {
    var record, o := RecordOf(r, f).value, Normalize(r, f, k).value;
    SameSupplierIff(r, f);
    assert Collapse("") == "";
    assert ConflictKey(record, Supplier).parts == [record.supplier, Identity(record)];
    assert LookupKey(o).parts == [o.supplier, o.exactSku];
    assert ConflictKey(record, Supplier) == LookupKey(o) <==>
      record.candidateId == o.candidateId && record.supplier == o.supplier && Identity(record) == o.exactSku;
  }

  /** Where nothing is merged, the importer keeps what it was given. */
  ghost predicate KeepsSingles(dedupe: seq<Record> -> seq<Record>) {
    forall r {:trigger dedupe([r])} :: dedupe([r]) == [r]
  }

  /** The same row at another price. */
  function Repriced(r: Row): Row {
    r.(unitCost := if r.unitCost == "10.0" then "12.0" else "10.0")
  }

  /** One row to a file, twice, at two prices. */
  function TwoQuotes(r: Row, f: File): seq<File> {
    [f.(rows := [r], selected := {}), f.(rows := [Repriced(r)], selected := {})]
  }

  lemma LoadOne(r: Row, f: File, k: Setting)
    requires RecordOf(r, f).Some? && Normalize(r, f, k).Ok? && KeepsSingles(k.dedupe)
    ensures Load(f.(rows := [r], selected := {}), k) == Ok(Loaded([RecordOf(r, f).value], [Normalize(r, f, k).value]))
  {
    var g, record, o := f.(rows := [r], selected := {}), RecordOf(r, f).value, Normalize(r, f, k).value;
    assert Normalize(r, g, k).value == o && RecordOf(r, g).value == record;
    NormalizeOne(r, g, k);
    assert RecordsOf([], g) == [] && RecordsOf([r], g) == [record];
    assert k.dedupe([record]) == [record];
    assert SelectRecords([], g) == [] && SelectRecords([record], g) == [record];
    assert SelectOffers([], g) == [] && SelectOffers([o], g) == [o];
  }

  lemma NormalizeOne(r: Row, f: File, k: Setting)
    requires Normalize(r, f, k).Ok?
    ensures NormalizeAll([r], f, k) == Ok([Normalize(r, f, k).value])
  {
    assert [r][..0] == [] && NormalizeAll([], f, k) == Ok([]);
    assert [] + [Normalize(r, f, k).value] == [Normalize(r, f, k).value];
  }

  lemma LoadNext(files: seq<File>, f: File, k: Setting, prior: seq<Loaded>)
    requires LoadAll(files, k) == Ok(prior) && Load(f, k).Ok?
    ensures LoadAll(files + [f], k) == Ok(prior + [Load(f, k).value])
  {
    assert (files + [f])[..|files|] == files;
  }

  lemma LoadNothing(k: Setting)
    ensures LoadAll([], k) == Ok([])
  {
  }

  lemma LoadSingle(f: File, k: Setting)
    requires Load(f, k).Ok?
    ensures LoadAll([f], k) == Ok([Load(f, k).value])
  {
    LoadNothing(k);
    LoadNext([], f, k, []);
    assert [] + [f] == [f] && [] + [Load(f, k).value] == [Load(f, k).value];
  }

  lemma LoadPair(f: File, g: File, k: Setting)
    requires Load(f, k).Ok? && Load(g, k).Ok?
    ensures LoadAll([f, g], k) == Ok([Load(f, k).value, Load(g, k).value])
  {
    LoadSingle(f, k);
    LoadNext([f], g, k, [Load(f, k).value]);
    assert [f] + [g] == [f, g];
    assert [Load(f, k).value] + [Load(g, k).value] == [Load(f, k).value, Load(g, k).value];
  }

  lemma RepricedAccepted(r: Row, f: File, k: Setting)
    requires RecordOf(r, f).Some? && Normalize(r, f, k).Ok?
    ensures RecordOf(Repriced(r), f).Some? && Normalize(Repriced(r), f, k) == Normalize(r, f, k)
  {
    var q := Repriced(r);
    assert IsAcceptable(q, f, k.safe) == IsAcceptable(r, f, k.safe);
    assert OwnIssues(q) == OwnIssues(r) && RawReference(q, f) == RawReference(r, f);
    assert OfferSupplier(q) == OfferSupplier(r) && Claim(q) == Claim(r);
  }

  lemma LoadTwo(r: Row, f: File, k: Setting)
    requires RecordOf(r, f).Some? && Normalize(r, f, k).Ok? && KeepsSingles(k.dedupe)
    ensures var first, second := RecordOf(r, f).value, RecordOf(Repriced(r), f);
      var o := Normalize(r, f, k).value;
      second.Some? && LoadAll(TwoQuotes(r, f), k) == Ok([Loaded([first], [o]), Loaded([second.value], [o])])
  {
    RepricedAccepted(r, f, k);
    LoadOne(r, f, k);
    LoadOne(Repriced(r), f, k);
    LoadPair(TwoQuotes(r, f)[0], TwoQuotes(r, f)[1], k);
  }

  lemma ImportsNext(loaded: seq<Loaded>, last: Loaded)
    ensures SupplierImports(loaded + [last]) ==
      SupplierImports(loaded) + [Import(Supplier, last.records, Quarantined(last.offers))]
    ensures AllOffers(loaded + [last]) == AllOffers(loaded) + last.offers
  {
    assert (loaded + [last])[..|loaded|] == loaded;
  }

  lemma HistoryNext(imports: seq<Import>, m: Import)
    ensures HistoryOf(imports + [m]) == HistoryOf(imports) + Entries(m.records, m.role)
  {
    assert (imports + [m])[..|imports|] == imports;
  }

  lemma TwoFilesChecked(a: Loaded, b: Loaded)
    ensures Checked([a, b], []) == Entries(a.records, Supplier) + Entries(b.records, Supplier)
    ensures AllOffers([a, b]) == a.offers + b.offers
  {
    var m := Import(Supplier, a.records, Quarantined(a.offers));
    var n := Import(Supplier, b.records, Quarantined(b.offers));
    ImportsNext([], a);
    ImportsNext([a], b);
    HistoryNext([], m);
    HistoryNext([m], n);
    assert [] + [a] == [a] && [a] + [b] == [a, b] && [] + [m] == [m];
    assert SupplierImports([a, b]) + [] == [m] + [n];
    assert [] + Entries(a.records, Supplier) == Entries(a.records, Supplier) && [] + a.offers == a.offers;
  }

  lemma OneConflict(a: Entry, b: Entry)
    requires a.key == b.key && a.value != b.value
    ensures Detected([a, b]) == {a.key}
  {
    ScanNext(map[], [], a);
    ScanNext(map[], [a], b);
    assert [] + [a] == [a] && [a] + [b] == [a, b];
  }

  lemma ExecuteLoaded(files: seq<File>, k: Setting, loaded: seq<Loaded>, key: Key)
    requires LoadAll(files, k) == Ok(loaded) && Detected(Checked(loaded, [])) == {key} && key.role == Supplier
    ensures var run := Execute(files, [], k);
      run.Ok? && run.value.conflicts == {key} && run.value.offers == Marked(AllOffers(loaded), {key})
  {
  }

  /** The run over the two quotes: the record's key is the one conflict, whoever looks it up. */
  lemma TwoQuotesConflict(r: Row, f: File, k: Setting)
    requires RecordOf(r, f).Some? && Normalize(r, f, k).Ok? && KeepsSingles(k.dedupe)
    ensures var run := Execute(TwoQuotes(r, f), [], k);
      var o, key := Normalize(r, f, k).value, ConflictKey(RecordOf(r, f).value, Supplier);
      run.Ok? && run.value.conflicts == {key} && run.value.offers == Marked([o, o], {key})
  {
    LoadTwo(r, f, k);
    RepricedConflicts(r, f);
    var first, second, o := RecordOf(r, f).value, RecordOf(Repriced(r), f).value, Normalize(r, f, k).value;
    TwoLoaded(first, second, o);
    ExecuteLoaded(TwoQuotes(r, f), k, [Loaded([first], [o]), Loaded([second], [o])], ConflictKey(first, Supplier));
  }

  lemma TwoLoaded(first: Record, second: Record, o: Offer)
    requires EntryOf(first, Supplier).key == EntryOf(second, Supplier).key
    requires EntryOf(first, Supplier).value != EntryOf(second, Supplier).value
    ensures var loaded := [Loaded([first], [o]), Loaded([second], [o])];
      Detected(Checked(loaded, [])) == {ConflictKey(first, Supplier)} && AllOffers(loaded) == [o, o]
  {
    TwoFilesChecked(Loaded([first], [o]), Loaded([second], [o]));
    EntriesOne(first);
    EntriesOne(second);
    var a, b := EntryOf(first, Supplier), EntryOf(second, Supplier);
    assert [a] + [b] == [a, b] && [o] + [o] == [o, o];
    OneConflict(a, b);
  }

  lemma EntriesOne(r: Record)
    ensures Entries([r], Supplier) == [EntryOf(r, Supplier)]
  {
    assert [r][..0] == [] && Entries([], Supplier) == [];
  }

  lemma RepricedConflicts(r: Row, f: File)
    requires RecordOf(r, f).Some? && RecordOf(Repriced(r), f).Some?
    ensures var a, b := EntryOf(RecordOf(r, f).value, Supplier), EntryOf(RecordOf(Repriced(r), f).value, Supplier);
      a.key == b.key && a.value != b.value
  {
    var a, b := EntryOf(RecordOf(r, f).value, Supplier), EntryOf(RecordOf(Repriced(r), f).value, Supplier);
    assert a.value[0] == r.unitCost && b.value[0] == Repriced(r).unitCost;
  }

  /** In every run a conflict of the row's record marks the row's offer. */
  ghost predicate AlwaysMarkedAlong(recordKey: Key, offerKey: Key, k: Setting) {
    forall files, others {:trigger Execute(files, others, k)} ::
      Execute(files, others, k).Ok? && recordKey in Execute(files, others, k).value.conflicts ==>
      offerKey in Execute(files, others, k).value.conflicts
  }

  /** The exact condition, read off the row: whatever is imported, the offer is marked along with
      its conflicting record if and only if the two are spelled alike. */
  lemma OfferMarkedIff(r: Row, f: File, k: Setting)
    requires RecordOf(r, f).Some? && Normalize(r, f, k).Ok? && KeepsSingles(k.dedupe)
    ensures AlwaysMarkedAlong(ConflictKey(RecordOf(r, f).value, Supplier), LookupKey(Normalize(r, f, k).value), k)
       <==> SpelledAlike(r)
  {
    SameKeyIff(r, f, k);
    if !SpelledAlike(r) {
      TwoQuotesConflict(r, f, k);
      assert Execute(TwoQuotes(r, f), [], k).Ok?;
    }
  }

  /** A row that is not spelled alike: quoted at two prices, it conflicts and nothing is marked. */
  lemma ConflictGoesUnmarked(r: Row, f: File, k: Setting)
    requires RecordOf(r, f).Some? && Normalize(r, f, k).Ok? && KeepsSingles(k.dedupe) && !SpelledAlike(r)
    ensures var run := Execute(TwoQuotes(r, f), [], k); var o := Normalize(r, f, k).value;
      run.Ok? && run.value.conflicts != {} && run.value.offers == [o, o]
  {
    TwoQuotesConflict(r, f, k);
    SameKeyIff(r, f, k);
  }

  /** A complete row without a product ID. */
  function Quote(supplier: string): Row {
    Row("x", "offer-x", "SKU-1", supplier, "", "", "", "10.0", "null", "MXN", "Mexico",
        Missing, Missing, "", false, {}, Known("terms"), Known("policy"), Known("rma"), true, true)
  }

  const QUOTE_FILE := File(false, "cj", "", {}, [])

  predicate IsPlain(s: string) {
    SpaceFree(s) && 0 < |s| <= MAX_TEXT
  }

  lemma PlainRowAccepted(r: Row, f: File, k: Setting)
    requires IsPlain(r.candidateId) && IsPlain(r.offerId) && IsPlain(r.sku)
    requires SpaceFree(r.supplier) && |r.supplier| <= MAX_TEXT && r.provider == ""
    requires r.reference == f.sourceReference == "" && r.humanConfirmed == r.humanReviewed == Missing && !r.problem
    ensures Normalize(r, f, k).Ok? && Strip(r.candidateId) == r.candidateId
  {
    SpaceFreeStays(r.candidateId);
    SpaceFreeStays(r.offerId);
    SpaceFreeStays(r.sku);
    SpaceFreeStays(r.supplier);
  }

  /** The row is accepted, gives a record of the supplier cj, and is not spelled alike. */
  lemma QuoteAccepted(supplier: string, k: Setting)
    requires supplier == "CJ" || supplier == ""
    ensures RecordOf(Quote(supplier), QUOTE_FILE).Some? && Normalize(Quote(supplier), QUOTE_FILE, k).Ok?
    ensures !SpelledAlike(Quote(supplier))
  {
    var r := Quote(supplier);
    QuoteSupplier(supplier);
    PlainRowAccepted(r, QUOTE_FILE, k);
    RecordGiven(r, QUOTE_FILE);
  }

  lemma RecordGiven(r: Row, f: File)
    requires RecordSupplier(r, f).Some? && r.candidateId != "" && Strip(r.candidateId) == r.candidateId
    ensures RecordOf(r, f).Some?
  {
  }

  lemma QuoteSupplier(supplier: string)
    requires supplier == "CJ" || supplier == ""
    ensures RecordSupplier(Quote(supplier), QUOTE_FILE) == Some("cj") && supplier !in SUPPLIERS
  {
    assert Lower("CJ") == "cj" && Lower("cj") == "cj";
    assert supplier != "" ==> supplier[0] == 'C';
  }

  /** For instance with the supplier in capitals, "CJ", or not given at all. */
  lemma CapitalsGoUnmarked(supplier: string, k: Setting)
    requires KeepsSingles(k.dedupe) && (supplier == "CJ" || supplier == "")
    ensures var run := Execute(TwoQuotes(Quote(supplier), QUOTE_FILE), [], k);
      run.Ok? && run.value.conflicts != {} && forall o :: o in run.value.offers ==> ConflictingOffer !in o.issues
  {
    QuoteAccepted(supplier, k);
    ConflictGoesUnmarked(Quote(supplier), QUOTE_FILE, k);
    NotMarkedByItself(Quote(supplier), QUOTE_FILE, k);
  }

  lemma NotMarkedByItself(r: Row, f: File, k: Setting)
    requires Normalize(r, f, k).Ok?
    ensures ConflictingOffer !in Normalize(r, f, k).value.issues
  {
  }

  // Candidates --------------------------------------------------------------------------------

  /** Python's order on strings. */
  predicate Before(a: string, b: string) {
    b != "" && (a == "" || a[0] < b[0] || (a[0] == b[0] && Before(a[1..], b[1..])))
  }

  function InsertById(sorted: seq<Offer>, o: Offer): seq<Offer> {
    if sorted == [] || !Before(o.offerId, sorted[|sorted| - 1].offerId) then sorted + [o]
    else InsertById(sorted[..|sorted| - 1], o) + [sorted[|sorted| - 1]]
  }

  /** The candidate's offers, sorted by offer id; the sort is stable. */
  function OffersFor(offers: seq<Offer>, candidateId: string): seq<Offer> {
    if offers == [] then []
    else
      var prior, o := OffersFor(offers[..|offers| - 1], candidateId), offers[|offers| - 1];
      if o.candidateId == candidateId then InsertById(prior, o) else prior
  }

  /** What the reports over the surviving records, the market and the manifest say of a candidate;
      the offers are added below. */
  type Reports = (seq<Record>, string) -> Packet

  /** The packet _candidate_audit hands to the promotion of one candidate. */
  function PacketOf(report: Report, candidateId: string, reports: Reports): Packet {
    reports(report.survivors, candidateId).(offers := OffersFor(report.offers, candidateId))
  }

  lemma {:induction false} InsertedOffers(sorted: seq<Offer>, o: Offer, x: Offer)
    ensures x in InsertById(sorted, o) <==> x in sorted || x == o
  {
    if sorted != [] {
      InsertedOffers(sorted[..|sorted| - 1], o, x);
      assert sorted == sorted[..|sorted| - 1] + [sorted[|sorted| - 1]];
    }
  }

  /** A candidate's packet holds exactly its own offers. */
  lemma {:induction false} OffersForExact(offers: seq<Offer>, candidateId: string, x: Offer)
    ensures x in OffersFor(offers, candidateId) <==> x in offers && x.candidateId == candidateId
  {
    if offers != [] {
      var o := offers[|offers| - 1];
      OffersForExact(offers[..|offers| - 1], candidateId, x);
      InsertedOffers(OffersFor(offers[..|offers| - 1], candidateId), o, x);
      assert offers == offers[..|offers| - 1] + [o];
    }
  }

  // Provenance over a run ---------------------------------------------------------------------

  lemma {:induction false} SelectedOffer(offers: seq<Offer>, f: File, o: Offer)
    requires o in SelectOffers(offers, f)
    ensures o in offers
  {
    if o != offers[|offers| - 1] {
      SelectedOffer(offers[..|offers| - 1], f, o);
    }
  }

  lemma {:induction false} LoadedOffersImported(files: seq<File>, k: Setting, o: Offer)
    requires LoadAll(files, k).Ok? && o in AllOffers(LoadAll(files, k).value)
    ensures Imported(o, files, k)
  {
    var prior, f := files[..|files| - 1], files[|files| - 1];
    var loaded := LoadAll(files, k).value;
    assert loaded[..|loaded| - 1] == LoadAll(prior, k).value;
    if o in AllOffers(LoadAll(prior, k).value) {
      LoadedOffersImported(prior, k, o);
      var g, r :| g in prior && r in g.rows && ComesFrom(o, r, g, k);
      assert g in files;
    } else {
      SelectedOffer(NormalizeAll(f.rows, f, k).value, f, o);
      NormalizedRows(f.rows, f, k, o);
    }
  }

  lemma ReportedOffersImported(files: seq<File>, others: seq<Import>, k: Setting, o: Offer)
    requires Execute(files, others, k).Ok? && o in Execute(files, others, k).value.offers
    ensures Imported(o, files, k)
  {
    var raw, marked := AllOffers(LoadAll(files, k).value), Execute(files, others, k).value.offers;
    var i :| 0 <= i < |marked| && marked[i] == o;
    LoadedOffersImported(files, k, raw[i]);
    var f, r :| f in files && r in f.rows && ComesFrom(raw[i], r, f, k);
    assert ComesFrom(o, r, f, k);
  }

  /** For every candidate of every run: its trace passes supplier_documented if and only if it has
      an offer and each of its offers has terms and policy and comes from a CSV row whose id, SKU
      and explicit reference the operator confirmed. */
  lemma CandidateDocumentedIff(files: seq<File>, others: seq<Import>, k: Setting, candidateId: string, reports: Reports)
    requires Execute(files, others, k).Ok?
    ensures var offers := Execute(files, others, k).value.offers;
      var p := PacketOf(Execute(files, others, k).value, candidateId, reports);
      Visits(TraceTo(Assess(p), LaunchAuthorizedFalse), SupplierDocumented) <==>
        && (exists o :: o in offers && o.candidateId == candidateId)
        && forall o :: o in offers && o.candidateId == candidateId ==>
             o.terms.Known? && o.policy.Known? && Attested(o, files, k)
  {
    var offers := Execute(files, others, k).value.offers;
    var p := PacketOf(Execute(files, others, k).value, candidateId, reports);
    forall o ensures o in p.offers <==> o in offers && o.candidateId == candidateId {
      OffersForExact(offers, candidateId, o);
    }
    forall o | o in p.offers ensures Imported(o, files, k) {
      ReportedOffersImported(files, others, k, o);
    }
    DocumentedNeedsOperator(p, files, k);
    assert p.offers != [] ==> p.offers[0] in offers && p.offers[0].candidateId == candidateId;
  }

  // Non-interference over a run ---------------------------------------------------------------

  function EraseAll(offers: seq<Offer>): (erased: seq<Offer>)
    ensures |erased| == |offers|
  {
    seq(|offers|, i requires 0 <= i < |offers| => Erase(offers[i]))
  }

  lemma EraseAllIff(a: seq<Offer>, b: seq<Offer>)
    ensures SameButClaims(a, b) <==> EraseAll(a) == EraseAll(b)
  {
    if EraseAll(a) == EraseAll(b) {
      forall i | 0 <= i < |a| ensures Erase(a[i]) == Erase(b[i]) {
        assert EraseAll(a)[i] == EraseAll(b)[i];
      }
    }
  }

  lemma EraseParts(a: seq<Offer>, b: seq<Offer>)
    ensures EraseAll(a + b) == EraseAll(a) + EraseAll(b)
  {
  }

  lemma EraseLast(a: seq<Offer>)
    requires a != []
    ensures EraseAll(a) == EraseAll(a[..|a| - 1]) + [Erase(a[|a| - 1])]
    ensures EraseAll(a)[..|a| - 1] == EraseAll(a[..|a| - 1])
  {
  }

  lemma {:induction false} EraseSelected(offers: seq<Offer>, f: File)
    ensures EraseAll(SelectOffers(offers, f)) == SelectOffers(EraseAll(offers), f)
  {
    if offers != [] {
      EraseLast(offers);
      EraseSelected(offers[..|offers| - 1], f);
      EraseParts(SelectOffers(offers[..|offers| - 1], f), [offers[|offers| - 1]]);
    }
  }

  lemma EraseMarked(offers: seq<Offer>, conflicts: set<Key>)
    ensures EraseAll(Marked(offers, conflicts)) == Marked(EraseAll(offers), conflicts)
  {
  }

  lemma {:induction false} EraseInserted(sorted: seq<Offer>, o: Offer)
    ensures EraseAll(InsertById(sorted, o)) == InsertById(EraseAll(sorted), Erase(o))
  {
    if sorted != [] {
      EraseLast(sorted);
      EraseInserted(sorted[..|sorted| - 1], o);
    }
    EraseParts(sorted, [o]);
  }

  lemma {:induction false} EraseOffersFor(offers: seq<Offer>, candidateId: string)
    ensures EraseAll(OffersFor(offers, candidateId)) == OffersFor(EraseAll(offers), candidateId)
  {
    if offers != [] {
      EraseLast(offers);
      EraseOffersFor(offers[..|offers| - 1], candidateId);
      EraseInserted(OffersFor(offers[..|offers| - 1], candidateId), offers[|offers| - 1]);
    }
  }

  /** Loaded files that differ at most in the offers' claims. */
  predicate SameLoad(a: Loaded, b: Loaded) {
    a.records == b.records && EraseAll(a.offers) == EraseAll(b.offers)
  }

  ghost predicate SameLoads(a: Result<seq<Loaded>, string>, b: Result<seq<Loaded>, string>) {
    if a.Ok? then b.Ok? && |a.value| == |b.value| && forall i :: 0 <= i < |a.value| ==> SameLoad(a.value[i], b.value[i])
    else a == b
  }

  lemma {:induction false} SameRowsSameRecords(rs: seq<Row>, qs: seq<Row>, f: File, g: File)
    requires g == f.(rows := g.rows) && |rs| == |qs| && forall i :: 0 <= i < |rs| ==> SameRow(rs[i], qs[i])
    ensures RecordsOf(rs, f) == RecordsOf(qs, g)
  {
    if rs != [] {
      SameRowsSameRecords(rs[..|rs| - 1], qs[..|qs| - 1], f, g);
      assert SameRow(rs[|rs| - 1], qs[|qs| - 1]);
    }
  }

  lemma {:induction false} SameSelection(records: seq<Record>, offers: seq<Offer>, f: File, g: File)
    requires f.selected == g.selected
    ensures SelectRecords(records, f) == SelectRecords(records, g)
    ensures SelectOffers(offers, f) == SelectOffers(offers, g)
    decreases |records| + |offers|
  {
    if records != [] {
      SameSelection(records[..|records| - 1], offers, f, g);
    } else if offers != [] {
      SameSelection(records, offers[..|offers| - 1], f, g);
    }
  }

  lemma SameFileSameLoad(f: File, g: File, k: Setting)
    requires SameFile(f, g)
    ensures if Load(f, k).Ok? then Load(g, k).Ok? && SameLoad(Load(f, k).value, Load(g, k).value)
            else Load(g, k) == Load(f, k)
  {
    SameRowsSameOffers(f.rows, g.rows, f, g, k);
    SameRowsSameRecords(f.rows, g.rows, f, g);
    if Load(f, k).Ok? {
      var a, b := NormalizeAll(f.rows, f, k).value, NormalizeAll(g.rows, g, k).value;
      EraseAllIff(a, b);
      EraseSelected(a, f);
      EraseSelected(b, g);
      SameSelection(k.dedupe(RecordsOf(f.rows, f)), EraseAll(a), f, g);
    }
  }

  lemma {:induction false} SameFilesSameLoads(fs: seq<File>, gs: seq<File>, k: Setting)
    requires SameFiles(fs, gs)
    ensures SameLoads(LoadAll(fs, k), LoadAll(gs, k))
  {
    if fs != [] {
      SameFilesSameLoads(fs[..|fs| - 1], gs[..|gs| - 1], k);
      SameFileSameLoad(fs[|fs| - 1], gs[|gs| - 1], k);
    }
  }

  lemma QuarantineIgnoresClaims(a: seq<Offer>, b: seq<Offer>)
    requires EraseAll(a) == EraseAll(b)
    ensures Quarantined(a) == Quarantined(b)
  {
    QuarantineOfErased(a);
    QuarantineOfErased(b);
  }

  lemma QuarantineOfErased(a: seq<Offer>)
    ensures Quarantined(a) == Quarantined(EraseAll(a))
  {
    forall o | o in a ensures Erase(o) in EraseAll(a) {
      var i :| 0 <= i < |a| && a[i] == o;
      assert EraseAll(a)[i] == Erase(o);
    }
    forall id | id in Quarantined(a) ensures id in Quarantined(EraseAll(a)) {
      var o :| o in a && o.issues != {} && id == (o.candidateId, o.exactSku);
      assert Erase(o) in EraseAll(a) && Erase(o).issues == o.issues;
    }
    forall id | id in Quarantined(EraseAll(a)) ensures id in Quarantined(a) {
      var e :| e in EraseAll(a) && e.issues != {} && id == (e.candidateId, e.exactSku);
      var i :| 0 <= i < |a| && EraseAll(a)[i] == e;
      assert a[i] in a && a[i].issues == e.issues;
    }
  }

  lemma {:induction false} SameLoadsSameRun(ls: seq<Loaded>, ms: seq<Loaded>)
    requires |ls| == |ms| && forall i :: 0 <= i < |ls| ==> SameLoad(ls[i], ms[i])
    ensures SupplierImports(ls) == SupplierImports(ms)
    ensures EraseAll(AllOffers(ls)) == EraseAll(AllOffers(ms))
  {
    if ls != [] {
      var last := |ls| - 1;
      SameLoadsSameRun(ls[..last], ms[..last]);
      assert SameLoad(ls[last], ms[last]);
      QuarantineIgnoresClaims(ls[last].offers, ms[last].offers);
      EraseParts(AllOffers(ls[..last]), ls[last].offers);
      EraseParts(AllOffers(ms[..last]), ms[last].offers);
    }
  }

  lemma SameFilesSameReports(fs: seq<File>, gs: seq<File>, others: seq<Import>, k: Setting)
    requires SameFiles(fs, gs)
    ensures if Execute(fs, others, k).Ok?
            then Execute(gs, others, k).Ok? && SameReports(Execute(fs, others, k).value, Execute(gs, others, k).value)
            else Execute(gs, others, k) == Execute(fs, others, k)
  {
    SameFilesSameLoads(fs, gs, k);
    if LoadAll(fs, k).Ok? {
      var ls, ms := LoadAll(fs, k).value, LoadAll(gs, k).value;
      SameLoadsSameRun(ls, ms);
      var conflicts := Detected(Checked(ls, others));
      assert Checked(ms, others) == Checked(ls, others);
      EraseMarked(AllOffers(ls), conflicts);
      EraseMarked(AllOffers(ms), conflicts);
    }
  }

  predicate SameReports(a: Report, b: Report) {
    a.survivors == b.survivors && a.conflicts == b.conflicts && EraseAll(a.offers) == EraseAll(b.offers)
  }

  lemma SameReportsSamePackets(a: Report, b: Report, candidateId: string, reports: Reports)
    requires SameReports(a, b)
    ensures var p, q := PacketOf(a, candidateId, reports), PacketOf(b, candidateId, reports);
      p == q.(offers := p.offers) && SameButClaims(p.offers, q.offers)
  {
    EraseOffersFor(a.offers, candidateId);
    EraseOffersFor(b.offers, candidateId);
    EraseAllIff(OffersFor(a.offers, candidateId), OffersFor(b.offers, candidateId));
  }

  /** Runs over files that differ only in valid human_confirmed and human_reviewed values succeed
      alike and promote every candidate alike: same trace, same outcome, same gaps. */
  lemma RunsDifferingInClaims(fs: seq<File>, gs: seq<File>, others: seq<Import>, k: Setting, reports: Reports)
    requires SameFiles(fs, gs)
    ensures Execute(fs, others, k).Ok? <==> Execute(gs, others, k).Ok?
    ensures Execute(fs, others, k).Ok? ==> forall candidateId ::
      PromotedAlike(PacketOf(Execute(fs, others, k).value, candidateId, reports),
                    PacketOf(Execute(gs, others, k).value, candidateId, reports))
  {
    SameFilesSameReports(fs, gs, others, k);
    if Execute(fs, others, k).Ok? {
      var a, b := Execute(fs, others, k).value, Execute(gs, others, k).value;
      forall candidateId
        ensures PromotedAlike(PacketOf(a, candidateId, reports), PacketOf(b, candidateId, reports))
      {
        SameReportsSamePackets(a, b, candidateId, reports);
        ClaimsDoNotInterfere(PacketOf(a, candidateId, reports), PacketOf(b, candidateId, reports));
      }
    }
  }

  predicate PromotedAlike(p: Packet, q: Packet) {
    && TraceTo(Assess(p), LaunchAuthorizedFalse) == TraceTo(Assess(q), LaunchAuthorizedFalse)
    && DecisionOutcome(p, Gaps(p), LaunchAuthorizedFalse) == DecisionOutcome(q, Gaps(q), LaunchAuthorizedFalse)
    && Gaps(p) == Gaps(q)
  }

  // Nothing lost, nothing added -----------------------------------------------------------------

  lemma AllNormalNext(init: seq<Row>, last: Row, f: File, k: Setting)
    ensures (forall r :: r in init + [last] ==> Normalize(r, f, k).Ok?) <==>
      (forall r :: r in init ==> Normalize(r, f, k).Ok?) && Normalize(last, f, k).Ok?
  {
    assert last in init + [last] && forall r :: r in init ==> r in init + [last];
  }

  lemma {:induction false} NormalizedIff(rows: seq<Row>, f: File, k: Setting)
    ensures NormalizeAll(rows, f, k).Ok? <==> forall r :: r in rows ==> Normalize(r, f, k).Ok?
  {
    if rows != [] {
      var init, last := rows[..|rows| - 1], rows[|rows| - 1];
      NormalizedIff(init, f, k);
      AllNormalNext(init, last, f, k);
      assert rows == init + [last];
    }
  }

  lemma {:induction false} NormalizedLength(rows: seq<Row>, f: File, k: Setting)
    requires NormalizeAll(rows, f, k).Ok?
    ensures |NormalizeAll(rows, f, k).value| == |rows|
  {
    if rows != [] {
      NormalizedLength(rows[..|rows| - 1], f, k);
    }
  }

  lemma {:induction false} NormalizedAt(rows: seq<Row>, f: File, k: Setting, i: nat)
    requires NormalizeAll(rows, f, k).Ok? && i < |rows|
    ensures i < |NormalizeAll(rows, f, k).value| && Normalize(rows[i], f, k) == Ok(NormalizeAll(rows, f, k).value[i])
  {
    NormalizedLength(rows[..|rows| - 1], f, k);
    if i < |rows| - 1 {
      NormalizedAt(rows[..|rows| - 1], f, k, i);
    }
  }

  lemma NormalizedInPlace(rows: seq<Row>, f: File, k: Setting)
    requires NormalizeAll(rows, f, k).Ok?
    ensures RowsBecome(rows, f, k, NormalizeAll(rows, f, k).value)
  {
    NormalizedLength(rows, f, k);
    forall i | 0 <= i < |rows| ensures Normalize(rows[i], f, k) == Ok(NormalizeAll(rows, f, k).value[i]) {
      NormalizedAt(rows, f, k, i);
    }
  }

  /** Every row of a file is normalised, in its place, or the file fails. */
  lemma NormalizedExactly(rows: seq<Row>, f: File, k: Setting)
    ensures NormalizeAll(rows, f, k).Ok? <==> forall r :: r in rows ==> Normalize(r, f, k).Ok?
    ensures NormalizeAll(rows, f, k).Ok? ==> RowsBecome(rows, f, k, NormalizeAll(rows, f, k).value)
  {
    NormalizedIff(rows, f, k);
    if NormalizeAll(rows, f, k).Ok? {
      NormalizedInPlace(rows, f, k);
    }
  }

  predicate RowsBecome(rows: seq<Row>, f: File, k: Setting, offers: seq<Offer>) {
    |offers| == |rows| && forall i :: 0 <= i < |rows| ==> Normalize(rows[i], f, k) == Ok(offers[i])
  }

  predicate AllAcceptable(f: File, k: Setting) {
    forall r :: r in f.rows ==> Normalize(r, f, k).Ok?
  }

  lemma LoadIff(f: File, k: Setting)
    ensures Load(f, k).Ok? <==> AllAcceptable(f, k)
  {
    NormalizedExactly(f.rows, f, k);
  }

  lemma AllAcceptableNext(init: seq<File>, last: File, k: Setting)
    ensures (forall f :: f in init + [last] ==> AllAcceptable(f, k)) <==>
      (forall f :: f in init ==> AllAcceptable(f, k)) && AllAcceptable(last, k)
  {
    assert last in init + [last] && forall f :: f in init ==> f in init + [last];
  }

  lemma {:induction false} LoadAllIff(files: seq<File>, k: Setting)
    ensures LoadAll(files, k).Ok? <==> forall f :: f in files ==> AllAcceptable(f, k)
  {
    if files != [] {
      var init, last := files[..|files| - 1], files[|files| - 1];
      LoadAllIff(init, k);
      LoadIff(last, k);
      AllAcceptableNext(init, last, k);
      assert files == init + [last];
    }
  }

  lemma {:induction false} LoadedLength(files: seq<File>, k: Setting)
    requires LoadAll(files, k).Ok?
    ensures |LoadAll(files, k).value| == |files|
  {
    if files != [] {
      LoadedLength(files[..|files| - 1], k);
    }
  }

  lemma {:induction false} LoadedAt(files: seq<File>, k: Setting, i: nat)
    requires LoadAll(files, k).Ok? && i < |files|
    ensures i < |LoadAll(files, k).value| && Load(files[i], k) == Ok(LoadAll(files, k).value[i])
  {
    LoadedLength(files[..|files| - 1], k);
    if i < |files| - 1 {
      LoadedAt(files[..|files| - 1], k, i);
    }
  }

  lemma LoadedInPlace(files: seq<File>, k: Setting)
    requires LoadAll(files, k).Ok?
    ensures FilesBecome(files, k, LoadAll(files, k).value)
  {
    LoadedLength(files, k);
    forall i | 0 <= i < |files| ensures Load(files[i], k) == Ok(LoadAll(files, k).value[i]) {
      LoadedAt(files, k, i);
    }
  }

  lemma LoadedExactly(files: seq<File>, k: Setting)
    ensures LoadAll(files, k).Ok? <==> forall f :: f in files ==> AllAcceptable(f, k)
    ensures LoadAll(files, k).Ok? ==> FilesBecome(files, k, LoadAll(files, k).value)
  {
    LoadAllIff(files, k);
    if LoadAll(files, k).Ok? {
      LoadedInPlace(files, k);
    }
  }

  predicate FilesBecome(files: seq<File>, k: Setting, loaded: seq<Loaded>) {
    |loaded| == |files| && forall i :: 0 <= i < |files| ==> Load(files[i], k) == Ok(loaded[i])
  }

  /** A run succeeds exactly if every row is acceptable and no evidence other than a supplier's
      contradicts itself. */
  lemma RunSucceedsIff(files: seq<File>, others: seq<Import>, k: Setting)
    ensures LoadAll(files, k).Ok? <==> forall f :: f in files ==> AllAcceptable(f, k)
    ensures Execute(files, others, k).Ok? <==>
      && LoadAll(files, k).Ok?
      && !exists key: Key :: key.role != Supplier && HasTwoValues(Checked(LoadAll(files, k).value, others), key)
  {
    LoadedExactly(files, k);
    if LoadAll(files, k).Ok? {
      IntakeDetects(SupplierImports(LoadAll(files, k).value) + others);
    }
  }

  lemma {:induction false} SelectedOffersExactly(offers: seq<Offer>, f: File, o: Offer)
    ensures o in SelectOffers(offers, f) <==> o in offers && (f.selected == {} || o.candidateId in f.selected)
  {
    if offers != [] {
      SelectedOffersExactly(offers[..|offers| - 1], f, o);
      assert offers == offers[..|offers| - 1] + [offers[|offers| - 1]];
    }
  }

  lemma {:induction false} SelectedRecordsExactly(records: seq<Record>, f: File, r: Record)
    ensures r in SelectRecords(records, f) <==> r in records && (f.selected == {} || r.candidateId in f.selected)
  {
    if records != [] {
      SelectedRecordsExactly(records[..|records| - 1], f, r);
      assert records == records[..|records| - 1] + [records[|records| - 1]];
    }
  }

  lemma {:induction false} InSomeLoaded(loaded: seq<Loaded>, o: Offer)
    ensures o in AllOffers(loaded) <==> exists i :: 0 <= i < |loaded| && o in loaded[i].offers
  {
    if loaded != [] {
      InSomeLoaded(loaded[..|loaded| - 1], o);
    }
  }

  /** o is the offer of a row of f that the manifest selects. */
  ghost predicate Offered(f: File, k: Setting, o: Offer) {
    (f.selected == {} || o.candidateId in f.selected) && exists r :: r in f.rows && Normalize(r, f, k) == Ok(o)
  }

  lemma OfferedExactly(f: File, k: Setting, o: Offer)
    requires Load(f, k).Ok?
    ensures o in Load(f, k).value.offers <==> Offered(f, k, o)
  {
    NormalizedExactly(f.rows, f, k);
    SelectedOffersExactly(NormalizeAll(f.rows, f, k).value, f, o);
    RowsOffer(f.rows, f, k, NormalizeAll(f.rows, f, k).value, o);
  }

  lemma RowsOffer(rows: seq<Row>, f: File, k: Setting, offers: seq<Offer>, o: Offer)
    requires RowsBecome(rows, f, k, offers)
    ensures o in offers <==> exists r :: r in rows && Normalize(r, f, k) == Ok(o)
  {
    if o in offers {
      var i :| 0 <= i < |offers| && offers[i] == o;
      assert Normalize(rows[i], f, k) == Ok(o);
    }
    if r :| r in rows && Normalize(r, f, k) == Ok(o) {
      var i :| 0 <= i < |rows| && rows[i] == r;
      assert offers[i] == o;
    }
  }

  /** The offers of a run are exactly those of its files' selected rows. */
  lemma OffersExactly(files: seq<File>, k: Setting, o: Offer)
    requires LoadAll(files, k).Ok?
    ensures o in AllOffers(LoadAll(files, k).value) <==> exists f :: f in files && Offered(f, k, o)
  {
    var loaded := LoadAll(files, k).value;
    LoadedExactly(files, k);
    InSomeLoaded(loaded, o);
    if i :| 0 <= i < |loaded| && o in loaded[i].offers {
      OfferedExactly(files[i], k, o);
      assert files[i] in files;
    }
    if f :| f in files && Offered(f, k, o) {
      var i :| 0 <= i < |files| && files[i] == f;
      OfferedExactly(files[i], k, o);
      assert o in loaded[i].offers;
    }
  }

  lemma {:induction false} SupplierImportsExactly(loaded: seq<Loaded>, m: Import)
    ensures m in SupplierImports(loaded) <==>
      exists i :: 0 <= i < |loaded| && m == Import(Supplier, loaded[i].records, Quarantined(loaded[i].offers))
  {
    if loaded != [] {
      SupplierImportsExactly(loaded[..|loaded| - 1], m);
    }
  }

  /** r is a record of f that the manifest selects and that no offer with an issue shares its candidate
      and SKU with. */
  predicate Survives(f: File, k: Setting, r: Record) {
    && r in k.dedupe(RecordsOf(f.rows, f)) && (f.selected == {} || r.candidateId in f.selected)
    && Load(f, k).Ok?
    && forall o :: o in Load(f, k).value.offers && o.issues != {} ==>
         o.candidateId != r.candidateId || o.exactSku != r.supplierSku
  }

  lemma AcceptsExactly(f: File, k: Setting, r: Record)
    requires Load(f, k).Ok?
    ensures var l := Load(f, k).value;
      Accepts(Import(Supplier, l.records, Quarantined(l.offers)), r) <==> Survives(f, k, r)
  {
    SelectedRecordsExactly(k.dedupe(RecordsOf(f.rows, f)), f, r);
    var offers := Load(f, k).value.offers;
    if (r.candidateId, r.supplierSku) in Quarantined(offers) {
      var o :| o in offers && o.issues != {} && (o.candidateId, o.exactSku) == (r.candidateId, r.supplierSku);
    }
  }

  /** The records that survive a run: those of its supplier files, without the quarantined ones and
      without those of a key that had two values anywhere. */
  lemma SurvivorsExactly(files: seq<File>, others: seq<Import>, k: Setting, r: Record)
    requires Execute(files, others, k).Ok? && forall m :: m in others ==> m.role != Supplier
    ensures r in Execute(files, others, k).value.survivors <==>
      && (exists f :: f in files && Survives(f, k, r))
      && !HasTwoValues(Checked(LoadAll(files, k).value, others), ConflictKey(r, Supplier))
  {
    var loaded := LoadAll(files, k).value;
    var imports := SupplierImports(loaded) + others;
    DetectionExact(HistoryOf(imports), ConflictKey(r, Supplier));
    SurvivorIsAccepted(Accepted(imports), Detected(HistoryOf(imports)), r);
    AcceptedExactly(imports, r);
    AcceptedByFile(files, others, k, r);
  }

  lemma AcceptedByFile(files: seq<File>, others: seq<Import>, k: Setting, r: Record)
    requires LoadAll(files, k).Ok? && forall m :: m in others ==> m.role != Supplier
    ensures var imports := SupplierImports(LoadAll(files, k).value) + others;
      (exists m :: m in imports && Accepts(m, r)) <==> exists f :: f in files && Survives(f, k, r)
  {
    var loaded := LoadAll(files, k).value;
    LoadedExactly(files, k);
    if m :| m in SupplierImports(loaded) + others && Accepts(m, r) {
      SupplierImportsExactly(loaded, m);
      var i :| 0 <= i < |loaded| && m == Import(Supplier, loaded[i].records, Quarantined(loaded[i].offers));
      AcceptsExactly(files[i], k, r);
      assert files[i] in files;
    }
    if f :| f in files && Survives(f, k, r) {
      var i :| 0 <= i < |files| && files[i] == f;
      var m := Import(Supplier, loaded[i].records, Quarantined(loaded[i].offers));
      SupplierImportsExactly(loaded, m);
      AcceptsExactly(files[i], k, r);
      assert m in SupplierImports(loaded) + others;
    }
  }

  lemma {:induction false} RecordsExactly(rows: seq<Row>, f: File, x: Record)
    ensures x in RecordsOf(rows, f) <==> exists r :: r in rows && RecordOf(r, f) == Some(x)
  {
    if rows != [] {
      RecordsExactly(rows[..|rows| - 1], f, x);
      assert rows == rows[..|rows| - 1] + [rows[|rows| - 1]];
    }
  }

  /** Whose record a row gives: the first supplier name given, in lower case, if it is known. */
  lemma RecordSupplierExactly(r: Row, f: File, name: string)
    ensures var given := if r.supplier != "" then r.supplier else if r.provider != "" then r.provider else f.supplier;
      RecordSupplier(r, f) == Some(name) <==>
        || (name == Lower(given) &&
              name in ["cj", "alibaba", "aliexpress", "zendrop", "autods", "dsers", "spocket", "manual"])
        || (name == "manual" &&
              Lower(given) in ["synthetic supplier", "synthetic_supplier", "synthetic", "catalog"])
  {
    SupplierNames();
  }

  /** Two rows of one identity conflict exactly if one of these four columns differs. */
  lemma RowsConflictIff(r: Row, q: Row, f: File, g: File)
    requires RecordOf(r, f).Some? && RecordOf(q, g).Some?
    ensures EntryOf(RecordOf(r, f).value, Supplier).value != EntryOf(RecordOf(q, g).value, Supplier).value <==>
      || r.unitCost != q.unitCost || r.shippingCost != q.shippingCost
      || r.currency != q.currency || r.destination != q.destination
  {
    SameValueMeans(RecordOf(r, f).value, RecordOf(q, g).value, Supplier);
  }

  // The order of a candidate's offers -------------------------------------------------------------

  /** Before is Python's order: after a common part one text ends or has the smaller character. */
  lemma {:induction false} BeforeIff(a: string, b: string)
    ensures Before(a, b) <==> exists n: nat :: DiffersAt(a, b, n)
  {
    if Before(a, b) {
      var n := WhereBefore(a, b);
    }
    if n: nat :| DiffersAt(a, b, n) {
      BeforeWhere(a, b, n);
    }
  }

  predicate DiffersAt(a: string, b: string, n: nat) {
    n <= |a| && n < |b| && a[..n] == b[..n] && (n == |a| || a[n] < b[n])
  }

  lemma {:induction false} WhereBefore(a: string, b: string) returns (n: nat)
    requires Before(a, b)
    ensures DiffersAt(a, b, n)
  {
    if a == "" || a[0] < b[0] {
      n := 0;
    } else {
      n := WhereBefore(a[1..], b[1..]);
      assert a[..n + 1] == [a[0]] + a[1..][..n] && b[..n + 1] == [b[0]] + b[1..][..n];
      n := n + 1;
    }
  }

  lemma {:induction false} BeforeWhere(a: string, b: string, n: nat)
    requires DiffersAt(a, b, n)
    ensures Before(a, b)
  {
    if n > 0 {
      assert a[0] == a[..n][0] == b[..n][0] == b[0];
      assert a[1..][..n - 1] == a[..n][1..] == b[..n][1..] == b[1..][..n - 1];
      BeforeWhere(a[1..], b[1..], n - 1);
    }
  }

  lemma {:induction false} BeforeAsymmetric(a: string, b: string)
    requires Before(a, b)
    ensures !Before(b, a)
  {
    if a != "" && a[0] == b[0] {
      BeforeAsymmetric(a[1..], b[1..]);
    }
  }

  lemma {:induction false} NotBeforeTransitive(a: string, b: string, c: string)
    requires !Before(b, a) && !Before(c, b)
    ensures !Before(c, a)
  {
    if a != "" && b != "" && c != "" && a[0] == b[0] == c[0] {
      NotBeforeTransitive(a[1..], b[1..], c[1..]);
    }
  }

  predicate ById(offers: seq<Offer>) {
    forall i, j :: 0 <= i < j < |offers| ==> !Before(offers[j].offerId, offers[i].offerId)
  }

  lemma {:induction false} InsertNotAfter(sorted: seq<Offer>, o: Offer, last: string)
    requires !Before(last, o.offerId) && forall i :: 0 <= i < |sorted| ==> !Before(last, sorted[i].offerId)
    ensures forall i :: 0 <= i < |InsertById(sorted, o)| ==> !Before(last, InsertById(sorted, o)[i].offerId)
  {
    if sorted != [] {
      InsertNotAfter(sorted[..|sorted| - 1], o, last);
    }
  }

  lemma {:induction false} InsertKeepsById(sorted: seq<Offer>, o: Offer)
    requires ById(sorted)
    ensures ById(InsertById(sorted, o))
  {
    if sorted != [] {
      var init, last := sorted[..|sorted| - 1], sorted[|sorted| - 1];
      if Before(o.offerId, last.offerId) {
        InsertKeepsById(init, o);
        BeforeAsymmetric(o.offerId, last.offerId);
        InsertNotAfter(init, o, last.offerId);
      } else {
        forall i | 0 <= i < |sorted| ensures !Before(o.offerId, sorted[i].offerId) {
          if i < |init| {
            NotBeforeTransitive(sorted[i].offerId, last.offerId, o.offerId);
          }
        }
      }
    }
  }

  lemma {:induction false} InsertedMultiset(sorted: seq<Offer>, o: Offer)
    ensures multiset(InsertById(sorted, o)) == multiset(sorted) + multiset{o}
  {
    if sorted != [] {
      InsertedMultiset(sorted[..|sorted| - 1], o);
      assert sorted == sorted[..|sorted| - 1] + [sorted[|sorted| - 1]];
    }
  }

  /** A candidate's offers come sorted by offer id, each as often as the run has it. */
  lemma {:induction false} OffersForSorted(offers: seq<Offer>, candidateId: string, x: Offer)
    ensures ById(OffersFor(offers, candidateId))
    ensures multiset(OffersFor(offers, candidateId))[x] ==
      if x.candidateId == candidateId then multiset(offers)[x] else 0
  {
    if offers != [] {
      var init, o := offers[..|offers| - 1], offers[|offers| - 1];
      OffersForSorted(init, candidateId, x);
      InsertKeepsById(OffersFor(init, candidateId), o);
      InsertedMultiset(OffersFor(init, candidateId), o);
      assert offers == init + [o];
    }
  }

  /** What a row's record carries. */
  lemma RecordExactly(r: Row, f: File)
    ensures RecordOf(r, f).Some? <==>
      RecordSupplier(r, f).Some? && Strip(if r.candidateId != "" then r.candidateId else r.productId) != ""
    ensures RecordOf(r, f).Some? ==>
      var x := RecordOf(r, f).value;
      && x.candidateId == Strip(if r.candidateId != "" then r.candidateId else r.productId)
      && RecordSupplier(r, f) == Some(x.supplier)
      && x.supplierProductId == r.productId && x.supplierSku == r.sku && x.sourceUrl == r.sourceUrl
      && x.unitCost == r.unitCost && x.shippingCost == r.shippingCost
      && x.currency == r.currency && x.destinationRegion == r.destination
  {
  }
}
