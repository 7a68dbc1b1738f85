/** Repeat customers in olist_category_stats (scripts/ingest_category_priors.py). */
module RepeatCustomers {
  import opened Wrappers

  /** An order row: both columns may be missing. */
  datatype Order = Order(customer: Option<string>, timestamp: Option<real>)

  const WINDOW: real := 60.0 * 86400.0

  /** Rows without a customer, with an empty one or without a timestamp are skipped. */
  predicate Counts(o: Order) {
    o.customer.Some? && o.customer.value != "" && o.timestamp.Some?
  }

  predicate IsOrderOf(o: Order, customer: string) {
    Counts(o) && o.customer.value == customer
  }

  /** The timestamps of one customer, in row order. */
  function TimesOf(orders: seq<Order>, customer: string): seq<real> {
    if orders == [] then []
    else
      var o := orders[|orders| - 1];
      TimesOf(orders[..|orders| - 1], customer) + if IsOrderOf(o, customer) then [o.timestamp.value] else []
  }

  function Customers(orders: seq<Order>): set<string> {
    set o | o in orders && Counts(o) :: o.customer.value
  }

  // The definition --------------------------------------------------------------------------

  /** Two of the customer's orders, in any order, lie within the window of 60 days. */
  ghost predicate HasRepeat(orders: seq<Order>, customer: string) {
    exists i: nat, j: nat :: i != j && RepeatPair(orders, customer, i, j)
  }

  predicate RepeatPair(orders: seq<Order>, customer: string, i: nat, j: nat) {
    i < |orders| && j < |orders| && IsOrderOf(orders[i], customer) && IsOrderOf(orders[j], customer)
    && 0.0 <= orders[j].timestamp.value - orders[i].timestamp.value <= 5184000.0
  }

  ghost function RepeatCustomers(orders: seq<Order>): set<string> {
    set c | c in Customers(orders) && HasRepeat(orders, c)
  }

  // The scan --------------------------------------------------------------------------------

  ghost predicate IsSorted(ts: seq<real>) {
    forall i, j :: 0 <= i < j < |ts| ==> ts[i] <= ts[j]
  }

  /** Some neighbours lie within the window. */
  ghost predicate CloseNeighbours(ts: seq<real>) {
    exists i :: 0 < i < |ts| && ts[i] - ts[i - 1] <= WINDOW
  }

  /** Some two entries lie within the window. */
  ghost predicate ClosePair(ts: seq<real>) {
    exists i, j :: 0 <= i < |ts| && 0 <= j < |ts| && i != j && 0.0 <= ts[j] - ts[i] <= WINDOW
  }

  function Insert(sorted: seq<real>, t: real): seq<real> {
    if sorted == [] || sorted[|sorted| - 1] <= t then sorted + [t]
    else Insert(sorted[..|sorted| - 1], t) + [sorted[|sorted| - 1]]
  }

  /** list.sort */
  function Sorted(ts: seq<real>): seq<real> {
    if ts == [] then [] else Insert(Sorted(ts[..|ts| - 1]), ts[|ts| - 1])
  }

  lemma {:induction false} InsertAtMost(sorted: seq<real>, t: real, bound: real)
    requires t <= bound && forall i :: 0 <= i < |sorted| ==> sorted[i] <= bound
    ensures forall i :: 0 <= i < |Insert(sorted, t)| ==> Insert(sorted, t)[i] <= bound
  {
    if sorted != [] {
      InsertAtMost(sorted[..|sorted| - 1], t, bound);
    }
  }

  lemma {:induction false} InsertSorts(sorted: seq<real>, t: real)
    requires IsSorted(sorted)
    ensures IsSorted(Insert(sorted, t))
  {
    if sorted != [] {
      var last := sorted[|sorted| - 1];
      InsertSorts(sorted[..|sorted| - 1], t);
      if t < last {
        InsertAtMost(sorted[..|sorted| - 1], t, last);
      }
    }
  }

  lemma {:induction false} InsertMultiset(sorted: seq<real>, t: real)
    ensures multiset(Insert(sorted, t)) == multiset(sorted) + multiset{t}
  {
    if sorted != [] {
      InsertMultiset(sorted[..|sorted| - 1], t);
      assert sorted == sorted[..|sorted| - 1] + [sorted[|sorted| - 1]];
    }
  }

  lemma {:induction false} SortedKeeps(ts: seq<real>)
    ensures IsSorted(Sorted(ts)) && multiset(Sorted(ts)) == multiset(ts)
  {
    if ts != [] {
      var init, last := ts[..|ts| - 1], ts[|ts| - 1];
      SortedKeeps(init);
      InsertSorts(Sorted(init), last);
      InsertMultiset(Sorted(init), last);
      assert ts == init + [last];
    }
  }

  /** In a sorted list the closest pair is a pair of neighbours. */
  lemma NeighboursSuffice(ts: seq<real>)
    requires IsSorted(ts)
    ensures CloseNeighbours(ts) <==> ClosePair(ts)
  {
    if i, j :| 0 <= i < |ts| && 0 <= j < |ts| && i != j && 0.0 <= ts[j] - ts[i] <= WINDOW {
      var lo, hi := if i < j then i else j, if i < j then j else i;
      assert ts[lo] <= ts[lo + 1] <= ts[hi] && ts[hi] - ts[lo] <= WINDOW;
      assert ts[lo + 1] - ts[lo + 1 - 1] <= WINDOW;
    }
    if i :| 0 < i < |ts| && ts[i] - ts[i - 1] <= WINDOW {
      assert 0.0 <= ts[i] - ts[i - 1];
    }
  }

  /** Whether there is a close pair depends only on the multiset of entries. */
  lemma {:induction false} ClosePairPermutes(a: seq<real>, b: seq<real>)
    requires multiset(a) == multiset(b) && ClosePair(a)
    ensures ClosePair(b)
  {
    var i, j :| 0 <= i < |a| && 0 <= j < |a| && i != j && 0.0 <= a[j] - a[i] <= WINDOW;
    TwoPlaces(a, i, j);
    var k, l := TwoPlacesOf(b, a[i], a[j]);
    assert 0.0 <= b[l] - b[k] <= WINDOW;
  }

  lemma RemoveOne(a: seq<real>, i: nat)
    requires i < |a|
    ensures multiset(a) == multiset(a[..i] + a[i + 1..]) + multiset{a[i]}
  {
    assert a == a[..i] + [a[i]] + a[i + 1..];
  }

  lemma TwoPlaces(a: seq<real>, i: nat, j: nat)
    requires i < |a| && j < |a| && i != j
    ensures multiset{a[i], a[j]} <= multiset(a)
  {
    var rest := a[..i] + a[i + 1..];
    RemoveOne(a, i);
    assert rest[if j < i then j else j - 1] == a[j];
    assert a[j] in multiset(rest);
  }

  lemma TwoPlacesOf(b: seq<real>, x: real, y: real) returns (k: nat, l: nat)
    requires multiset{x, y} <= multiset(b)
    ensures k < |b| && l < |b| && k != l && b[k] == x && b[l] == y
  {
    assert x in multiset(b);
    k :| k < |b| && b[k] == x;
    var rest := b[..k] + b[k + 1..];
    RemoveOne(b, k);
    assert y in multiset(rest);
    var m: nat :| m < |rest| && rest[m] == y;
    l := if m < k then m else m + 1;
  }

  /** Close pairs among a customer's timestamps are the customer's repeats. */
  lemma {:induction false} PairsAreRepeats(orders: seq<Order>, customer: string)
    ensures ClosePair(TimesOf(orders, customer)) <==> HasRepeat(orders, customer)
  {
    var ts, places := TimesOf(orders, customer), Places(orders, customer);
    PlacesFit(orders, customer);
    if i, j :| 0 <= i < |ts| && 0 <= j < |ts| && i != j && 0.0 <= ts[j] - ts[i] <= WINDOW {
      assert places[i] != places[j];
      assert RepeatPair(orders, customer, places[i], places[j]);
    }
    if i: nat, j: nat :| i != j && RepeatPair(orders, customer, i, j) {
      var k :| 0 <= k < |places| && places[k] == i;
      var l :| 0 <= l < |places| && places[l] == j;
      assert 0.0 <= ts[l] - ts[k] <= WINDOW;
    }
  }

  /** The rows of one customer. */
  function Places(orders: seq<Order>, customer: string): seq<nat> {
    if orders == [] then []
    else
      var last := |orders| - 1;
      Places(orders[..last], customer) + if IsOrderOf(orders[last], customer) then [last] else []
  }

  /** The timestamps are those of the places, which climb and include every row of the customer. */
  ghost predicate Fit(orders: seq<Order>, customer: string, ts: seq<real>, places: seq<nat>) {
    && PlacesMatch(orders, customer, ts, places)
    && (forall i, j :: 0 <= i < j < |places| ==> places[i] < places[j])
    && (forall k :: 0 <= k < |orders| && IsOrderOf(orders[k], customer) ==> k in places)
  }

  predicate PlacesMatch(orders: seq<Order>, customer: string, ts: seq<real>, places: seq<nat>) {
    && |ts| == |places|
    && forall i :: 0 <= i < |places| ==>
         places[i] < |orders| && IsOrderOf(orders[places[i]], customer) && ts[i] == orders[places[i]].timestamp.value
  }

  lemma {:induction false} PlacesFit(orders: seq<Order>, customer: string)
    ensures Fit(orders, customer, TimesOf(orders, customer), Places(orders, customer))
  {
    if orders != [] {
      var init, o := orders[..|orders| - 1], orders[|orders| - 1];
      PlacesFit(init, customer);
      assert orders == init + [o];
      FitsOneMore(init, o, customer, TimesOf(init, customer), Places(init, customer));
    }
  }

  lemma FitsOneMore(init: seq<Order>, o: Order, customer: string, ts: seq<real>, places: seq<nat>)
    requires Fit(init, customer, ts, places)
    ensures IsOrderOf(o, customer) ==> Fit(init + [o], customer, ts + [o.timestamp.value], places + [|init|])
    ensures !IsOrderOf(o, customer) ==> Fit(init + [o], customer, ts + [], places + [])
  {
    var orders := init + [o];
    forall k | 0 <= k < |orders| && IsOrderOf(orders[k], customer) && k < |init| ensures k in places {
      assert init[k] == orders[k];
    }
  }

  /** What the sort and the adjacent-gap scan decide about one customer. */
  lemma ScanDecidesRepeat(orders: seq<Order>, customer: string)
    ensures CloseNeighbours(Sorted(TimesOf(orders, customer))) <==> HasRepeat(orders, customer)
  {
    var ts := TimesOf(orders, customer);
    SortedKeeps(ts);
    NeighboursSuffice(Sorted(ts));
    if ClosePair(ts) {
      ClosePairPermutes(ts, Sorted(ts));
    }
    if ClosePair(Sorted(ts)) {
      ClosePairPermutes(Sorted(ts), ts);
    }
    PairsAreRepeats(orders, customer);
  }

  /** The dict of lists built from these rows, and its keys in insertion order. */
  ghost predicate Grouped(orders: seq<Order>, customers: seq<string>, byCustomer: map<string, seq<real>>) {
    KeysInOrder(customers, byCustomer) && forall c :: TimesListed(orders, byCustomer, c)
  }

  ghost predicate KeysInOrder(customers: seq<string>, byCustomer: map<string, seq<real>>) {
    && (forall j, k :: 0 <= j < k < |customers| ==> customers[j] != customers[k])
    && (forall c :: c in byCustomer <==> c in customers)
  }

  predicate TimesListed(orders: seq<Order>, byCustomer: map<string, seq<real>>, c: string) {
    if c in byCustomer then TimesOf(orders, c) == byCustomer[c] != [] else TimesOf(orders, c) == []
  }

  lemma TimesOfNext(orders: seq<Order>, i: nat, c: string)
    requires i < |orders|
    ensures TimesOf(orders[..i + 1], c) ==
      TimesOf(orders[..i], c) + (if IsOrderOf(orders[i], c) then [orders[i].timestamp.value] else [])
  {
    assert orders[..i + 1][..i] == orders[..i];
  }

  lemma GroupedSkips(orders: seq<Order>, i: nat, customers: seq<string>, byCustomer: map<string, seq<real>>)
    requires i < |orders| && Grouped(orders[..i], customers, byCustomer) && !Counts(orders[i])
    ensures Grouped(orders[..i + 1], customers, byCustomer)
  {
    var upTo := orders[..i + 1];
    forall c ensures TimesListed(upTo, byCustomer, c) {
      TimesOfNext(orders, i, c);
      assert TimesListed(orders[..i], byCustomer, c);
    }
  }

  lemma GroupedAppends(orders: seq<Order>, i: nat, customers: seq<string>, byCustomer: map<string, seq<real>>)
    requires i < |orders| && Grouped(orders[..i], customers, byCustomer) && Counts(orders[i])
    ensures var c := orders[i].customer.value;
      var prior := if c in byCustomer then byCustomer[c] else [];
      Grouped(orders[..i + 1], if c in byCustomer then customers else customers + [c],
              byCustomer[c := prior + [orders[i].timestamp.value]])
  {
    var c := orders[i].customer.value;
    var prior := if c in byCustomer then byCustomer[c] else [];
    var next := byCustomer[c := prior + [orders[i].timestamp.value]];
    var upTo := orders[..i + 1];
    forall d ensures TimesListed(upTo, next, d) {
      TimesOfNext(orders, i, d);
      assert TimesListed(orders[..i], byCustomer, d);
    }
  }

  /** by_customer: the distinct customers in order of first appearance, and their timestamps. */
  method GroupByCustomer(orders: seq<Order>) returns (customers: seq<string>, byCustomer: map<string, seq<real>>)
    ensures forall c :: c in customers <==> c in Customers(orders)
    ensures forall i, j :: 0 <= i < j < |customers| ==> customers[i] != customers[j]
    ensures forall c :: c in customers ==> c in byCustomer && byCustomer[c] == TimesOf(orders, c)
  {
    customers, byCustomer := [], map[];
    GroupedNone(orders);
    for i := 0 to |orders|
      invariant Grouped(orders[..i], customers, byCustomer)
    {
      var o := orders[i];
      if !Counts(o) {
        GroupedSkips(orders, i, customers, byCustomer);
      } else {
        GroupedAppends(orders, i, customers, byCustomer);
        var c := o.customer.value;
        var prior := if c in byCustomer then byCustomer[c] else [];
        customers := if c in byCustomer then customers else customers + [c];
        byCustomer := byCustomer[c := prior + [o.timestamp.value]];
      }
    }
    GroupedAll(orders, customers, byCustomer);
  }

  lemma GroupedNone(orders: seq<Order>)
    ensures Grouped(orders[..0], [], map[])
  {
    assert orders[..0] == [];
  }

  lemma GroupedAll(orders: seq<Order>, customers: seq<string>, byCustomer: map<string, seq<real>>)
    requires Grouped(orders[..|orders|], customers, byCustomer)
    ensures forall c :: c in customers <==> c in Customers(orders)
    ensures forall i, j :: 0 <= i < j < |customers| ==> customers[i] != customers[j]
    ensures forall c :: c in customers ==> c in byCustomer && byCustomer[c] == TimesOf(orders, c)
  {
    assert orders[..|orders|] == orders;
    forall c
      ensures c in customers <==> c in Customers(orders)
      ensures c in customers ==> byCustomer[c] == TimesOf(orders, c)
    {
      TimesOfCustomers(orders, c);
      assert TimesListed(orders, byCustomer, c);
    }
  }

  lemma {:induction false} TimesOfCustomers(orders: seq<Order>, customer: string)
    ensures TimesOf(orders, customer) != [] <==> customer in Customers(orders)
  {
    if orders != [] {
      var init, o := orders[..|orders| - 1], orders[|orders| - 1];
      TimesOfCustomers(init, customer);
      assert orders == init + [o];
      if customer in Customers(orders) && customer !in Customers(init) {
        var q :| q in orders && Counts(q) && q.customer.value == customer;
        assert q == o;
      }
      if IsOrderOf(o, customer) {
        assert o in orders && o.customer.value in Customers(orders);
      }
    }
  }

  /** The inner loop: stop at the first gap within the window. */
  method ScanGaps(ts: seq<real>) returns (found: bool)
    ensures found <==> CloseNeighbours(ts)
  {
    found := false;
    var i := 1;
    while i < |ts|
      invariant forall k :: 0 < k < i && k < |ts| ==> ts[k] - ts[k - 1] > WINDOW
    {
      if ts[i] - ts[i - 1] <= WINDOW {
        return true;
      }
      i := i + 1;
    }
  }

  /** The counting part of olist_category_stats: exactly the customers with two orders in the
      window, and all customers. */
  method CountRepeatCustomers(orders: seq<Order>) returns (repeats: nat, total: nat)
    ensures repeats == |RepeatCustomers(orders)| && total == |Customers(orders)|
  {
    var customers, byCustomer := GroupByCustomer(orders);
    repeats := 0;
    for i := 0 to |customers|
      invariant repeats == |RepeatersAmong(orders, customers, i)|
    {
      var c := customers[i];
      ScanDecidesRepeat(orders, c);
      RepeatersNext(orders, customers, i);
      var found := ScanGaps(Sorted(byCustomer[c]));
      if found {
        repeats := repeats + 1;
      }
    }
    total := |customers|;
    AllRepeaters(orders, customers);
    DistinctCount(customers, Customers(orders));
  }

  /** The repeat customers among the first i of a list. */
  ghost function RepeatersAmong(orders: seq<Order>, customers: seq<string>, i: nat): set<string>
    requires i <= |customers|
  {
    if i == 0 then {}
    else
      var c := customers[i - 1];
      RepeatersAmong(orders, customers, i - 1) + if HasRepeat(orders, c) then {c} else {}
  }

  lemma {:induction false} RepeatersListed(orders: seq<Order>, customers: seq<string>, i: nat, c: string)
    requires i <= |customers|
    ensures c in RepeatersAmong(orders, customers, i) <==>
      HasRepeat(orders, c) && exists j :: 0 <= j < i && customers[j] == c
  {
    if i > 0 {
      RepeatersListed(orders, customers, i - 1, c);
    }
  }

  lemma RepeatersNext(orders: seq<Order>, customers: seq<string>, i: nat)
    requires i < |customers| && forall j, k :: 0 <= j < k < |customers| ==> customers[j] != customers[k]
    ensures |RepeatersAmong(orders, customers, i + 1)| ==
      |RepeatersAmong(orders, customers, i)| + if HasRepeat(orders, customers[i]) then 1 else 0
  {
    RepeatersListed(orders, customers, i, customers[i]);
  }

  lemma AllRepeaters(orders: seq<Order>, customers: seq<string>)
    requires forall c :: c in customers <==> c in Customers(orders)
    ensures RepeatersAmong(orders, customers, |customers|) == RepeatCustomers(orders)
  {
    forall c ensures c in RepeatersAmong(orders, customers, |customers|) <==> c in RepeatCustomers(orders) {
      RepeatersListed(orders, customers, |customers|, c);
    }
  }

  lemma {:induction false} DistinctCount(s: seq<string>, members: set<string>)
    requires forall c :: c in s <==> c in members
    requires forall i, j :: 0 <= i < j < |s| ==> s[i] != s[j]
    ensures |s| == |members|
  {
    if s == [] {
      assert members == {};
    } else {
      var init, last := s[..|s| - 1], s[|s| - 1];
      assert s == init + [last];
      DistinctCount(init, members - {last});
    }
  }

  // Row order -------------------------------------------------------------------------------

  lemma {:induction false} TimesMultiset(orders: seq<Order>, customer: string, t: real)
    ensures multiset(TimesOf(orders, customer))[t] ==
      if customer != "" then multiset(orders)[Order(Some(customer), Some(t))] else 0
  {
    if orders != [] {
      var init, o := orders[..|orders| - 1], orders[|orders| - 1];
      TimesMultiset(init, customer, t);
      assert orders == init + [o];
      if IsOrderOf(o, customer) {
        OneMoreTime(TimesOf(init, customer), o.timestamp.value, t);
      }
    }
  }

  lemma OneMoreTime(ts: seq<real>, last: real, t: real)
    ensures multiset(ts + [last])[t] == multiset(ts)[t] + if last == t then 1 else 0
  {
  }

  /** The statistics do not depend on the order of the rows. */
  lemma RowOrderIrrelevant(a: seq<Order>, b: seq<Order>)
    requires multiset(a) == multiset(b)
    ensures RepeatCustomers(a) == RepeatCustomers(b) && Customers(a) == Customers(b)
  {
    forall o ensures o in a <==> o in b {
      assert o in a <==> o in multiset(a);
    }
    forall c ensures HasRepeat(a, c) <==> HasRepeat(b, c) {
      forall t ensures multiset(TimesOf(a, c))[t] == multiset(TimesOf(b, c))[t] {
        TimesMultiset(a, c, t);
        TimesMultiset(b, c, t);
      }
      assert multiset(TimesOf(a, c)) == multiset(TimesOf(b, c));
      PairsAreRepeats(a, c);
      PairsAreRepeats(b, c);
      if ClosePair(TimesOf(a, c)) {
        ClosePairPermutes(TimesOf(a, c), TimesOf(b, c));
      }
      if ClosePair(TimesOf(b, c)) {
        ClosePairPermutes(TimesOf(b, c), TimesOf(a, c));
      }
    }
  }
}
