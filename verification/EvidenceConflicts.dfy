/** Conflict detection over imported evidence (scripts/research_to_decision.py). */
module EvidenceConflicts {
  import opened Wrappers

  datatype Role = Supplier | Marketplace | ConsumerAttention

  /** The attributes the conflict check reads; an absent one is "". */
  datatype Record = Record(
    candidateId: string,
    supplier: string, supplierProductId: string, supplierSku: string, sourceUrl: string,
    marketplace: string, sourceType: string,
    platform: string, source: string, contentTitle: string, hook: string,
    unitCost: string, shippingCost: string, currency: string, destinationRegion: string,
    price: string, availability: string,
    contentExcerpt: string, objection: string)

  datatype Key = Key(role: Role, candidateId: string, parts: seq<string>)

  /** The JSON text of the compared attributes, as the tuple it is an injective rendering of. */
  type Value = seq<string>

  /** Python's a or b on strings. */
  function Or(a: string, b: string): string {
    if a == "" then b else a
  }

  function Identity(r: Record): string {
    Or(Or(r.supplierProductId, r.supplierSku), r.sourceUrl)
  }

  function ConflictKey(r: Record, role: Role): Key {
    match role
    case Supplier => Key(role, r.candidateId, [r.supplier, Identity(r)])
    case Marketplace => Key(role, r.candidateId, [r.marketplace, r.sourceType, r.sourceUrl])
    case ConsumerAttention => Key(role, r.candidateId, [r.platform, r.source, Or(r.contentTitle, r.hook)])
  }

  function ComparedValue(r: Record, role: Role): Value {
    match role
    case Supplier => [r.unitCost, r.shippingCost, r.currency, r.destinationRegion]
    case Marketplace => [r.price, r.currency, r.availability]
    case ConsumerAttention => [r.contentExcerpt, r.objection]
  }

  /** One checked record: the order of these is the order of the whole run. */
  datatype Entry = Entry(key: Key, value: Value)

  function Entries(records: seq<Record>, role: Role): seq<Entry> {
    if records == [] then []
    else Entries(records[..|records| - 1], role) + [EntryOf(records[|records| - 1], role)]
  }

  function EntryOf(r: Record, role: Role): (e: Entry)
    ensures e.key.role == role
  {
    Entry(ConflictKey(r, role), ComparedValue(r, role))
  }

  /** What seen holds after these entries. */
  function SeenAfter(seen: map<Key, Value>, h: seq<Entry>): map<Key, Value> {
    if h == [] then seen else SeenAfter(seen, h[..|h| - 1])[h[|h| - 1].key := h[|h| - 1].value]
  }

  /** From the start of a run: the last value of every key. */
  function Latest(h: seq<Entry>): map<Key, Value> {
    SeenAfter(map[], h)
  }

  /** The check on one record: it contradicts the value seen holds for its key. */
  predicate Contradicts(seen: map<Key, Value>, e: Entry) {
    e.key in seen && seen[e.key] != e.value
  }

  /** The keys reported for these entries. */
  function ReportedAfter(seen: map<Key, Value>, h: seq<Entry>): set<Key> {
    if h == [] then {}
    else
      var prior, e := h[..|h| - 1], h[|h| - 1];
      ReportedAfter(seen, prior) + if Contradicts(SeenAfter(seen, prior), e) then {e.key} else {}
  }

  function Detected(h: seq<Entry>): set<Key> {
    ReportedAfter(map[], h)
  }

  /** The key was recorded with two different values, at any two points of the run. */
  ghost predicate HasTwoValues(h: seq<Entry>, key: Key) {
    exists i, j :: 0 <= i < j < |h| && h[i].key == key && h[j].key == key && h[i].value != h[j].value
  }

  lemma {:induction false} LatestIsLast(h: seq<Entry>, key: Key)
    ensures key !in Latest(h) ==> forall i :: 0 <= i < |h| ==> h[i].key != key
    ensures key in Latest(h) ==> exists k ::
      0 <= k < |h| && h[k].key == key && h[k].value == Latest(h)[key] && forall i :: k < i < |h| ==> h[i].key != key
  {
    if h != [] {
      var last := |h| - 1;
      LatestIsLast(h[..last], key);
      if h[last].key == key {
        assert h[last].value == Latest(h)[key];
      }
    }
  }

  /** Remembering only the latest value loses nothing: the keys reported are exactly those with
      two unequal values anywhere in the run. */
  lemma {:induction false} DetectionExact(h: seq<Entry>, key: Key)
    ensures key in Detected(h) <==> HasTwoValues(h, key)
  {
    if h != [] {
      var last := |h| - 1;
      DetectionExact(h[..last], key);
      LatestIsLast(h[..last], key);
      if HasTwoValues(h, key) && !HasTwoValues(h[..last], key) {
        var i, j :| 0 <= i < j < |h| && h[i].key == key && h[j].key == key && h[i].value != h[j].value;
        assert j == last;
        OneValueIsLatest(h[..last], key, i);
      }
    }
  }

  lemma OneValueIsLatest(h: seq<Entry>, key: Key, i: nat)
    requires i < |h| && h[i].key == key && !HasTwoValues(h, key)
    ensures key in Latest(h) && Latest(h)[key] == h[i].value
  {
    LatestIsLast(h, key);
    var k :| 0 <= k < |h| && h[k].key == key && h[k].value == Latest(h)[key];
    if k < i {
      assert h[k].value == h[i].value;
    } else if i < k {
      assert h[i].value == h[k].value;
    }
  }

  lemma ScanNext(seen: map<Key, Value>, h: seq<Entry>, e: Entry)
    ensures SeenAfter(seen, h + [e]) == SeenAfter(seen, h)[e.key := e.value]
    ensures ReportedAfter(seen, h + [e]) ==
      ReportedAfter(seen, h) + (if Contradicts(SeenAfter(seen, h), e) then {e.key} else {})
  {
    assert (h + [e])[..|h|] == h;
  }

  /** Scanning a run in two parts, as the calls do. */
  lemma {:induction false} ScanParts(seen: map<Key, Value>, h: seq<Entry>, g: seq<Entry>)
    ensures SeenAfter(seen, h + g) == SeenAfter(SeenAfter(seen, h), g)
    ensures ReportedAfter(seen, h + g) == ReportedAfter(seen, h) + ReportedAfter(SeenAfter(seen, h), g)
  {
    if g == [] {
      assert h + g == h;
    } else {
      var init, e := g[..|g| - 1], g[|g| - 1];
      ScanParts(seen, h, init);
      ScanNext(seen, h + init, e);
      assert h + g == (h + init) + [e];
    }
  }

  // One import call and the whole run -------------------------------------------------------

  class EvidenceIntake {
    var seen: map<Key, Value>
    ghost var history: seq<Entry>

    ghost predicate Valid()
      reads this
    {
      seen == Latest(history)
    }

    constructor ()
      ensures Valid() && history == []
    {
      seen, history := map[], [];
    }

    /** _check_record_conflicts: the keys that changed value in this call. The error stands for the
        exception, raised at the first conflict that is not an allowed supplier conflict. */
    method CheckRecordConflicts(records: seq<Record>, role: Role, allowSupplierConflicts: bool)
      returns (r: Result<set<Key>, string>)
      requires Valid()
      modifies this
      ensures Valid()
      ensures r.Ok? ==> history == old(history) + Entries(records, role)
      ensures r.Ok? ==> Detected(history) == Detected(old(history)) + r.value
      ensures r.Ok? ==> (forall key :: key in r.value ==> key.role == role)
      ensures r.Ok? ==> (role == Supplier && allowSupplierConflicts) || r.value == {}
      ensures r.Err? ==> !(role == Supplier && allowSupplierConflicts)
      ensures r.Err? ==> exists key: Key :: key.role == role && key in Detected(old(history) + Entries(records, role))
    {
      var conflicts: set<Key> := {};
      ghost var before := seen;
      for i := 0 to |records|
        invariant seen == SeenAfter(before, Entries(records[..i], role))
        invariant conflicts == ReportedAfter(before, Entries(records[..i], role))
        invariant (role == Supplier && allowSupplierConflicts) || conflicts == {}
        invariant history == old(history)
      {
        var e := EntryOf(records[i], role);
        EntriesNext(records, i, role);
        ScanNext(before, Entries(records[..i], role), e);
        if e.key in seen && seen[e.key] != e.value {
          if role == Supplier && allowSupplierConflicts {
            conflicts := conflicts + {e.key};
          } else {
            ScanReveals(history, records, i, role);
            history := history + Entries(records[..i], role);
            return Err(records[i].candidateId);
          }
        }
        seen := seen[e.key := e.value];
      }
      assert records[..|records|] == records;
      ScanParts(map[], history, Entries(records, role));
      ReportedRole(before, records, role);
      history := history + Entries(records, role);
      r := Ok(conflicts);
    }
  }

  lemma {:induction false} ReportedRole(seen: map<Key, Value>, records: seq<Record>, role: Role)
    ensures forall key :: key in ReportedAfter(seen, Entries(records, role)) ==> key.role == role
  {
    if records != [] {
      var init := records[..|records| - 1];
      ReportedRole(seen, init, role);
      ScanNext(seen, Entries(init, role), EntryOf(records[|records| - 1], role));
    }
  }

  /** An entry that contradicts what was seen before it is among the keys of the whole call. */
  lemma ScanReveals(start: seq<Entry>, records: seq<Record>, i: nat, role: Role)
    requires i < |records|
    requires Contradicts(SeenAfter(Latest(start), Entries(records[..i], role)), EntryOf(records[i], role))
    ensures Latest(start + Entries(records[..i], role)) == SeenAfter(Latest(start), Entries(records[..i], role))
    ensures EntryOf(records[i], role).key in Detected(start + Entries(records, role))
  {
    ScanParts(map[], start, Entries(records[..i], role));
    ScanParts(map[], start, Entries(records, role));
    EntriesNext(records, i, role);
    ScanNext(Latest(start), Entries(records[..i], role), EntryOf(records[i], role));
    ReportedGrows(Latest(start), records, i + 1, role);
  }

  lemma {:induction false} ReportedGrows(seen: map<Key, Value>, records: seq<Record>, i: nat, role: Role)
    requires i <= |records|
    ensures ReportedAfter(seen, Entries(records[..i], role)) <= ReportedAfter(seen, Entries(records, role))
    decreases |records| - i
  {
    if i == |records| {
      assert records[..i] == records;
    } else {
      EntriesNext(records, i, role);
      ScanNext(seen, Entries(records[..i], role), EntryOf(records[i], role));
      ReportedGrows(seen, records, i + 1, role);
    }
  }

  lemma EntriesNext(records: seq<Record>, i: nat, role: Role)
    requires i < |records|
    ensures Entries(records[..i + 1], role) == Entries(records[..i], role) + [EntryOf(records[i], role)]
  {
    assert records[..i + 1][..i] == records[..i];
  }

  lemma {:induction false} EntryInEntries(records: seq<Record>, role: Role, r: Record)
    requires r in records
    ensures EntryOf(r, role) in Entries(records, role)
  {
    if r != records[|records| - 1] {
      EntryInEntries(records[..|records| - 1], role, r);
    }
  }

  /** One imported file: its records and the (candidate, SKU) pairs whose offers it quarantined. */
  datatype Import = Import(role: Role, records: seq<Record>, quarantined: set<(string, string)>)

  function HistoryOf(imports: seq<Import>): seq<Entry> {
    if imports == [] then []
    else HistoryOf(imports[..|imports| - 1]) + Entries(imports[|imports| - 1].records, imports[|imports| - 1].role)
  }

  function Kept(records: seq<Record>, quarantined: set<(string, string)>): seq<Record> {
    if records == [] then []
    else
      var r := records[|records| - 1];
      Kept(records[..|records| - 1], quarantined) + if (r.candidateId, r.supplierSku) in quarantined then [] else [r]
  }

  /** The supplier records accepted before the final filter. */
  function Accepted(imports: seq<Import>): seq<Record> {
    if imports == [] then []
    else
      var i := imports[|imports| - 1];
      Accepted(imports[..|imports| - 1]) + if i.role == Supplier then Kept(i.records, i.quarantined) else []
  }

  function WithoutConflicts(records: seq<Record>, conflicts: set<Key>): seq<Record> {
    if records == [] then []
    else
      var r := records[|records| - 1];
      WithoutConflicts(records[..|records| - 1], conflicts) + if ConflictKey(r, Supplier) in conflicts then [] else [r]
  }

  /** The import loop and the conflict filter of build_research_to_decision. */
  method IntakeAll(imports: seq<Import>) returns (r: Result<(seq<Record>, set<Key>), string>)
    ensures r.Err? <==> exists key: Key :: key.role != Supplier && HasTwoValues(HistoryOf(imports), key)
    ensures r.Ok? ==> forall key :: key in r.value.1 <==> HasTwoValues(HistoryOf(imports), key)
    ensures r.Ok? ==> r.value.0 == WithoutConflicts(Accepted(imports), r.value.1)
  {
    var intake := new EvidenceIntake();
    var supplierRecords, conflictKeys := [], {};
    for i := 0 to |imports|
      invariant intake.Valid() && fresh(intake) && intake.history == HistoryOf(imports[..i])
      invariant supplierRecords == Accepted(imports[..i])
      invariant conflictKeys == Detected(HistoryOf(imports[..i]))
      invariant forall key :: key in conflictKeys ==> key.role == Supplier
    {
      var m := imports[i];
      assert imports[..i + 1][..i] == imports[..i];
      var conflicts := intake.CheckRecordConflicts(m.records, m.role, m.role == Supplier);
      if conflicts.Err? {
        DetectedInRun(imports, i + 1);
        return Err(conflicts.error);
      }
      conflictKeys := conflictKeys + conflicts.value;
      if m.role == Supplier {
        supplierRecords := supplierRecords + Kept(m.records, m.quarantined);
      }
    }
    assert imports[..|imports|] == imports;
    forall key ensures key in conflictKeys <==> HasTwoValues(HistoryOf(imports), key) {
      DetectionExact(HistoryOf(imports), key);
    }
    if conflictKeys != {} {
      supplierRecords := WithoutConflicts(supplierRecords, conflictKeys);
    } else {
      NothingFiltered(supplierRecords);
    }
    r := Ok((supplierRecords, conflictKeys));
  }

  /** What the first n imports reveal, the whole run contains. */
  lemma DetectedInRun(imports: seq<Import>, n: nat)
    requires n <= |imports|
    ensures forall key :: key in Detected(HistoryOf(imports[..n])) ==> HasTwoValues(HistoryOf(imports), key)
  {
    ImportsReveal(imports, n);
    forall key | key in Detected(HistoryOf(imports[..n])) ensures HasTwoValues(HistoryOf(imports), key) {
      DetectionExact(HistoryOf(imports), key);
    }
  }

  lemma {:induction false} ImportsReveal(imports: seq<Import>, n: nat)
    requires n <= |imports|
    ensures Detected(HistoryOf(imports[..n])) <= Detected(HistoryOf(imports))
    decreases |imports| - n
  {
    if n == |imports| {
      assert imports[..n] == imports;
    } else {
      assert imports[..n + 1][..n] == imports[..n];
      ScanParts(map[], HistoryOf(imports[..n]), Entries(imports[n].records, imports[n].role));
      ImportsReveal(imports, n + 1);
    }
  }

  lemma {:induction false} NothingFiltered(records: seq<Record>)
    ensures WithoutConflicts(records, {}) == records
  {
    if records != [] {
      NothingFiltered(records[..|records| - 1]);
    }
  }

  // What survives ---------------------------------------------------------------------------

  lemma {:induction false} SurvivorIsAccepted(records: seq<Record>, conflicts: set<Key>, r: Record)
    ensures r in WithoutConflicts(records, conflicts) <==> r in records && ConflictKey(r, Supplier) !in conflicts
  {
    if records != [] {
      SurvivorIsAccepted(records[..|records| - 1], conflicts, r);
      assert records == records[..|records| - 1] + [records[|records| - 1]];
    }
  }

  lemma {:induction false} KeptExactly(records: seq<Record>, quarantined: set<(string, string)>, r: Record)
    ensures r in Kept(records, quarantined) <==> r in records && (r.candidateId, r.supplierSku) !in quarantined
  {
    if records != [] {
      KeptExactly(records[..|records| - 1], quarantined, r);
      assert records == records[..|records| - 1] + [records[|records| - 1]];
    }
  }

  predicate Accepts(m: Import, r: Record) {
    m.role == Supplier && r in m.records && (r.candidateId, r.supplierSku) !in m.quarantined
  }

  /** Which records a run accepts before the final filter: those of its supplier imports whose offers
      that import did not quarantine. */
  lemma {:induction false} AcceptedExactly(imports: seq<Import>, r: Record)
    ensures r in Accepted(imports) <==>
      exists m :: m in imports && Accepts(m, r)
  {
    if imports != [] {
      var init, last := imports[..|imports| - 1], imports[|imports| - 1];
      AcceptedExactly(init, r);
      KeptExactly(last.records, last.quarantined, r);
      assert imports == init + [last] && last in imports;
      assert r in Accepted(imports) <==> r in Accepted(init) || Accepts(last, r);
    }
  }

  lemma {:induction false} AcceptedIsInHistory(imports: seq<Import>, r: Record)
    requires r in Accepted(imports)
    ensures Entry(ConflictKey(r, Supplier), ComparedValue(r, Supplier)) in HistoryOf(imports)
  {
    var m := imports[|imports| - 1];
    if r in Accepted(imports[..|imports| - 1]) {
      AcceptedIsInHistory(imports[..|imports| - 1], r);
    } else {
      KeptIsImported(m.records, m.quarantined, r);
      EntryInEntries(m.records, Supplier, r);
    }
  }

  lemma {:induction false} KeptIsImported(records: seq<Record>, quarantined: set<(string, string)>, r: Record)
    requires r in Kept(records, quarantined)
    ensures r in records
  {
    if r != records[|records| - 1] || (r.candidateId, r.supplierSku) in quarantined {
      KeptIsImported(records[..|records| - 1], quarantined, r);
    }
  }

  /** After the filter every key has a single value among the supplier records. */
  lemma SurvivorsAgree(imports: seq<Import>, conflicts: set<Key>, r: Record, q: Record)
    requires forall key :: HasTwoValues(HistoryOf(imports), key) ==> key in conflicts
    requires r in WithoutConflicts(Accepted(imports), conflicts) && q in WithoutConflicts(Accepted(imports), conflicts)
    requires ConflictKey(r, Supplier) == ConflictKey(q, Supplier)
    ensures ComparedValue(r, Supplier) == ComparedValue(q, Supplier)
  {
    SurvivorIsAccepted(Accepted(imports), conflicts, r);
    SurvivorIsAccepted(Accepted(imports), conflicts, q);
    AcceptedIsInHistory(imports, r);
    AcceptedIsInHistory(imports, q);
    OneValue(HistoryOf(imports), ConflictKey(r, Supplier), ComparedValue(r, Supplier), ComparedValue(q, Supplier));
  }

  lemma OneValue(h: seq<Entry>, key: Key, v: Value, w: Value)
    requires Entry(key, v) in h && Entry(key, w) in h && !HasTwoValues(h, key)
    ensures v == w
  {
    var i :| 0 <= i < |h| && h[i] == Entry(key, v);
    var j :| 0 <= j < |h| && h[j] == Entry(key, w);
    if i < j {
      assert h[i].value == h[j].value;
    } else if j < i {
      assert h[j].value == h[i].value;
    }
  }

  // What counts as the same evidence, and as different ------------------------------------------

  /** The first of the three texts that identify a supplier record. */
  lemma IdentityExactly(r: Record)
    ensures r.supplierProductId != "" ==> Identity(r) == r.supplierProductId
    ensures r.supplierProductId == "" && r.supplierSku != "" ==> Identity(r) == r.supplierSku
    ensures r.supplierProductId == "" && r.supplierSku == "" ==> Identity(r) == r.sourceUrl
  {
  }

  /** Two records speak of the same thing. */
  lemma SameKeyMeans(r: Record, q: Record, role: Role)
    ensures ConflictKey(r, role) == ConflictKey(q, role) <==>
      && r.candidateId == q.candidateId
      && match role
         case Supplier => r.supplier == q.supplier && Identity(r) == Identity(q)
         case Marketplace =>
           r.marketplace == q.marketplace && r.sourceType == q.sourceType && r.sourceUrl == q.sourceUrl
         case ConsumerAttention =>
           && r.platform == q.platform && r.source == q.source
           && (if r.contentTitle != "" then r.contentTitle else r.hook)
           == (if q.contentTitle != "" then q.contentTitle else q.hook)
  {
    var a, b := ConflictKey(r, role).parts, ConflictKey(q, role).parts;
    assert |a| == |b| && (a == b <==> forall i :: 0 <= i < |a| ==> a[i] == b[i]);
  }

  /** And they say the same of it. */
  lemma SameValueMeans(r: Record, q: Record, role: Role)
    ensures ComparedValue(r, role) == ComparedValue(q, role) <==>
      match role
      case Supplier =>
        && r.unitCost == q.unitCost && r.shippingCost == q.shippingCost
        && r.currency == q.currency && r.destinationRegion == q.destinationRegion
      case Marketplace => r.price == q.price && r.currency == q.currency && r.availability == q.availability
      case ConsumerAttention => r.contentExcerpt == q.contentExcerpt && r.objection == q.objection
  {
    var a, b := ComparedValue(r, role), ComparedValue(q, role);
    assert |a| == |b| && (a == b <==> forall i :: 0 <= i < |a| ==> a[i] == b[i]);
  }
}
