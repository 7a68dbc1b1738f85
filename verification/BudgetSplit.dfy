/** CapitalEngineV2.allocate_budget (core/capital_engine.py). */
module BudgetSplit {
  import opened Reals
  import opened Wrappers
  import opened Pods

  datatype Entry = Entry(id: Id, view: View)

  function Roas(e: Entry): real {
    e.view.metrics.roas
  }

  function ActiveOnly(pods: seq<Entry>): seq<Entry> {
    if pods == [] then []
    else ActiveOnly(pods[..|pods| - 1]) + if pods[|pods| - 1].view.status != Killed then [pods[|pods| - 1]] else []
  }

  ghost predicate Descending(pods: seq<Entry>) {
    forall i, j :: 0 <= i < j < |pods| ==> Roas(pods[i]) >= Roas(pods[j])
  }

  /** The place of e in a stable descending order: after every entry that is not worse. */
  function Insert(sorted: seq<Entry>, e: Entry): (r: seq<Entry>)
    ensures |r| == |sorted| + 1
  {
    if sorted == [] then [e]
    else
      var last := sorted[|sorted| - 1];
      if Roas(last) >= Roas(e) then sorted + [e] else Insert(sorted[..|sorted| - 1], e) + [last]
  }

  /** active.sort(key=roas, reverse=True) */
  function Sorted(pods: seq<Entry>): (r: seq<Entry>)
    ensures |r| == |pods|
  {
    if pods == [] then [] else Insert(Sorted(pods[..|pods| - 1]), pods[|pods| - 1])
  }

  lemma {:induction false} InsertAtLeast(sorted: seq<Entry>, e: Entry, bound: real)
    requires Roas(e) >= bound && forall i :: 0 <= i < |sorted| ==> Roas(sorted[i]) >= bound
    ensures forall i :: 0 <= i < |Insert(sorted, e)| ==> Roas(Insert(sorted, e)[i]) >= bound
  {
    if sorted != [] {
      InsertAtLeast(sorted[..|sorted| - 1], e, bound);
    }
  }

  lemma {:induction false} InsertDescends(sorted: seq<Entry>, e: Entry)
    requires Descending(sorted)
    ensures Descending(Insert(sorted, e))
  {
    if sorted != [] {
      var last := sorted[|sorted| - 1];
      InsertDescends(sorted[..|sorted| - 1], e);
      if Roas(last) < Roas(e) {
        InsertAtLeast(sorted[..|sorted| - 1], e, Roas(last));
      }
    }
  }

  lemma {:induction false} InsertMultiset(sorted: seq<Entry>, e: Entry)
    ensures multiset(Insert(sorted, e)) == multiset(sorted) + multiset{e}
  {
    if sorted != [] {
      InsertMultiset(sorted[..|sorted| - 1], e);
      assert sorted == sorted[..|sorted| - 1] + [sorted[|sorted| - 1]];
    }
  }

  lemma {:induction false} SortedDescends(pods: seq<Entry>)
    ensures Descending(Sorted(pods))
  {
    if pods != [] {
      SortedDescends(pods[..|pods| - 1]);
      InsertDescends(Sorted(pods[..|pods| - 1]), pods[|pods| - 1]);
    }
  }

  lemma {:induction false} SortedMultiset(pods: seq<Entry>)
    ensures multiset(Sorted(pods)) == multiset(pods)
  {
    if pods != [] {
      var init, last := pods[..|pods| - 1], pods[|pods| - 1];
      SortedMultiset(init);
      InsertMultiset(Sorted(init), last);
      assert pods == init + [last];
    }
  }

  /** The sort is a descending permutation. */
  lemma SortedKeeps(pods: seq<Entry>)
    ensures Descending(Sorted(pods)) && multiset(Sorted(pods)) == multiset(pods)
  {
    SortedDescends(pods);
    SortedMultiset(pods);
  }

  /** Python's s[:m], which counts from the end when m is negative. */
  function Slice(s: seq<Entry>, m: int): seq<Entry> {
    if m >= 0 then s[..if m <= |s| then m else |s|] else if -m <= |s| then s[..|s| + m] else []
  }

  /** The pods with exactly this ROAS, in order. */
  function WithRoas(pods: seq<Entry>, x: real): seq<Entry> {
    if pods == [] then []
    else
      var prior, last := WithRoas(pods[..|pods| - 1], x), pods[|pods| - 1];
      if Roas(last) == x then prior + [last] else prior
  }

  lemma WithRoasNext(pods: seq<Entry>, e: Entry, x: real)
    ensures WithRoas(pods + [e], x) == if Roas(e) == x then WithRoas(pods, x) + [e] else WithRoas(pods, x)
  {
    assert (pods + [e])[..|pods|] == pods;
  }

  lemma {:induction false} InsertStable(sorted: seq<Entry>, e: Entry, x: real)
    ensures WithRoas(Insert(sorted, e), x) == if Roas(e) == x then WithRoas(sorted, x) + [e] else WithRoas(sorted, x)
  {
    if sorted == [] || Roas(sorted[|sorted| - 1]) >= Roas(e) {
      WithRoasNext(sorted, e, x);
      assert sorted == [] ==> sorted + [e] == [e];
    } else {
      var init, last := sorted[..|sorted| - 1], sorted[|sorted| - 1];
      InsertStable(init, e, x);
      WithRoasNext(Insert(init, e), last, x);
    }
  }

  /** The sort is stable: pods with the same ROAS keep their order. */
  lemma {:induction false} SortedStable(pods: seq<Entry>, x: real)
    ensures WithRoas(Sorted(pods), x) == WithRoas(pods, x)
  {
    if pods != [] {
      SortedStable(pods[..|pods| - 1], x);
      InsertStable(Sorted(pods[..|pods| - 1]), pods[|pods| - 1], x);
    }
  }

  /** The pods that receive a share. */
  function Chosen(pods: seq<Entry>, max: int): seq<Entry> {
    Slice(Sorted(ActiveOnly(pods)), max)
  }

  /** How many pods are chosen: all active ones up to the maximum; a negative maximum counts from the
      end, as Python's slices do. Each active pod is there as often as it was given. */
  lemma ChosenCount(pods: seq<Entry>, max: int)
    ensures var active := |ActiveOnly(pods)|;
      |Chosen(pods, max)| ==
        if max >= 0 then (if max <= active then max else active) else if -max <= active then active + max else 0
    ensures Chosen(pods, max) <= Sorted(ActiveOnly(pods))
  {
  }

  lemma {:induction false} ActiveMultiset(pods: seq<Entry>, e: Entry)
    ensures multiset(ActiveOnly(pods))[e] == if e.view.status == Killed then 0 else multiset(pods)[e]
  {
    if pods != [] {
      ActiveMultiset(pods[..|pods| - 1], e);
      assert pods == pods[..|pods| - 1] + [pods[|pods| - 1]];
    }
  }

  /** What rounding yields: a multiple of 0.0001, the even one if two are equally near. */
  lemma Round4Exactly(x: real) returns (n: int)
    ensures Round4(x) == n as real / 10000.0
    ensures x - Round4(x) == 0.00005 || Round4(x) - x == 0.00005 ==> n % 2 == 0
  {
    var f := (10000.0 * x).Floor;
    var d := 10000.0 * x - f as real;
    n := if d < 0.5 || (d == 0.5 && f % 2 == 0) then f else f + 1;
    TenThousandths(x, n);
  }

  lemma TenThousandths(x: real, n: int)
    ensures 10000.0 * (x - n as real / 10000.0) == 10000.0 * x - n as real
  {
  }

  /** round(x, 4): to the nearest multiple of 0.0001, ties to the even one. */
  function Round4(x: real): (r: real)
    ensures x - 0.00005 <= r <= x + 0.00005
  {
    var y := 10000.0 * x;
    var f := y.Floor;
    var d := y - f as real;
    (if d < 0.5 || (d == 0.5 && f % 2 == 0) then f else f + 1) as real / 10000.0
  }

  /** What is left after i allocations. */
  function Remaining(total: real, n: nat, cap: real, i: nat): real
    requires n > 0
    decreases i, 0
  {
    if i == 0 then total else Remaining(total, n, cap, i - 1) - Allocation(total, n, cap, i - 1)
  }

  /** The i-th allocation as the loop computes it, clamped to what is left. */
  function Allocation(total: real, n: nat, cap: real, i: nat): real
    requires n > 0
    decreases i, 1
  {
    Min(Min(total / Real(n), cap), Remaining(total, n, cap, i))
  }

  /** The share of the closed form. */
  function Share(total: real, n: nat, cap: real): real
    requires n > 0
  {
    Min(total / Real(n), cap)
  }

  ghost predicate NeverClamped(total: real, n: nat, cap: real) {
    n > 0 && forall i {:trigger Allocation(total, n, cap, i)} :: 0 <= i < n ==>
      Allocation(total, n, cap, i) == Share(total, n, cap)
  }

  /** The exact condition for the clamp never to bind: there is money, there is one pod, or the cap
      is at most the (negative) total. */
  predicate ClampIdle(total: real, n: nat, cap: real) {
    total >= 0.0 || n == 1 || cap <= total
  }

  /** n equal parts make the whole. */
  lemma PartsOfWhole(total: real, n: nat)
    requires n > 0
    ensures Mul(Real(n), total / Real(n)) == total
    ensures total >= 0.0 ==> 0.0 <= total / Real(n) <= total
    ensures total <= 0.0 ==> total <= total / Real(n) <= 0.0
    ensures total < 0.0 && n > 1 ==> total < total / Real(n)
  {
    var q := total / Real(n);
    assert q * Real(n) == total;
    if total >= 0.0 {
      assert q >= 0.0;
      MulMonotone(q, 1.0, Real(n));
    } else {
      assert q < 0.0;
      MulMonotone(-q, 1.0, Real(n));
      if n > 1 {
        MulMonotone(-q, 2.0, Real(n));
      }
    }
  }

  /** As long as the clamp is idle, every allocation is the share. */
  lemma {:induction false} RemainingIsEnough(total: real, n: nat, cap: real, i: nat)
    requires n > 0 && i < n && ClampIdle(total, n, cap)
    ensures Remaining(total, n, cap, i) == total - Mul(Real(i), Share(total, n, cap))
    ensures Allocation(total, n, cap, i) == Share(total, n, cap)
  {
    var e := Share(total, n, cap);
    PartsOfWhole(total, n);
    if i == 0 {
      MulSucc(0, e);
      if n == 1 {
        MulSucc(0, total / Real(n));
      }
    } else {
      RemainingIsEnough(total, n, cap, i - 1);
      MulSucc(i - 1, e);
      ShareFits(total, n, cap, i);
    }
  }

  /** What is left after i > 0 shares still covers one. */
  lemma ShareFits(total: real, n: nat, cap: real, i: nat)
    requires 0 < i < n && ClampIdle(total, n, cap)
    ensures Share(total, n, cap) <= total - Mul(Real(i), Share(total, n, cap))
  {
    var e, part := Share(total, n, cap), total / Real(n);
    PartsOfWhole(total, n);
    if total >= 0.0 {
      MulMonotone(Real(i + 1), e, part);
      MulMonotone(part, Real(i + 1), Real(n));
      MulSucc(i, e);
      assert Mul(Real(n), part) == Mul(part, Real(n)) && Mul(Real(i + 1), part) == Mul(part, Real(i + 1));
    } else {
      MulSign(Real(i), -e);
      assert Mul(Real(i), -e) == -Mul(Real(i), e);
    }
  }

  /** The remaining clamp never binds if and only if the total is not negative, there is a single
      pod, or the cap is no higher than the total. */
  lemma NeverClampedIff(total: real, n: nat, cap: real)
    requires n > 0
    ensures NeverClamped(total, n, cap) <==> ClampIdle(total, n, cap)
  {
    if ClampIdle(total, n, cap) {
      forall i | 0 <= i < n ensures Allocation(total, n, cap, i) == Share(total, n, cap) {
        RemainingIsEnough(total, n, cap, i);
      }
    } else {
      PartsOfWhole(total, n);
      assert Allocation(total, n, cap, 0) == total;
    }
  }

  /** Every allocation for every input: the share, except that a clamp that does bind gives the whole
      negative total to the first pod. */
  lemma {:induction false} AllocationExactly(total: real, n: nat, cap: real, i: nat)
    requires i < n
    ensures Allocation(total, n, cap, i) == if i == 0 && !ClampIdle(total, n, cap) then total else Share(total, n, cap)
    ensures !ClampIdle(total, n, cap) && i > 0 ==>
      Remaining(total, n, cap, i) == -Mul(Real(i - 1), Share(total, n, cap)) && Share(total, n, cap) < 0.0
  {
    var e := Share(total, n, cap);
    if ClampIdle(total, n, cap) {
      RemainingIsEnough(total, n, cap, i);
    } else {
      PartsOfWhole(total, n);
      MulSucc(0, e);
      if i > 0 {
        AllocationExactly(total, n, cap, i - 1);
        DebtGrows(total, n, i, e);
      }
    }
  }

  lemma DebtGrows(total: real, n: nat, i: nat, e: real)
    requires n > 0 && 0 < i && total < 0.0 && e <= total / Real(n)
    ensures e < 0.0 && e <= -Mul(Real(i - 1), e)
    ensures i > 1 ==> -Mul(Real(i - 2), e) - e == -Mul(Real(i - 1), e)
  {
    PartsOfWhole(total, n);
    QuotientNegative(total, n);
    MulSign(Real(i - 1), -e);
    assert Mul(Real(i - 1), -e) == -Mul(Real(i - 1), e);
    if i > 1 {
      MulSucc(i - 2, e);
    }
  }

  lemma QuotientNegative(total: real, n: nat)
    requires total < 0.0 && n > 0
    ensures total / Real(n) < 0.0
  {
    var q := total / Real(n);
    assert q * Real(n) == total;
  }

  /** What each chosen pod is allotted, for every input, if no pod is listed twice. */
  lemma AllottedEach(active: seq<Entry>, total: real, cap: real, k: nat)
    requires k < |active| && forall i, j :: 0 <= i < j < |active| ==> active[i].id != active[j].id
    ensures var n, allotted := |active|, Allotted(active, total, cap, |active|);
      active[k].id in allotted && allotted[active[k].id] ==
        Round4(if k == 0 && !ClampIdle(total, n, cap) then total else Share(total, n, cap))
  {
    AllocationExactly(total, |active|, cap, k);
    AllottedAt(active, total, cap, |active|, k);
  }

  lemma {:induction false} AllottedAt(active: seq<Entry>, total: real, cap: real, i: nat, k: nat)
    requires k < i <= |active| && forall a, b :: 0 <= a < b < |active| ==> active[a].id != active[b].id
    ensures var allotted := Allotted(active, total, cap, i);
      active[k].id in allotted && allotted[active[k].id] == Round4(Allocation(total, |active|, cap, k))
  {
    if k < i - 1 {
      AllottedAt(active, total, cap, i - 1, k);
    }
  }

  /** The unrounded shares sum to the total or to n caps, whichever is less. */
  lemma SharesSum(total: real, n: nat, cap: real)
    requires n > 0
    ensures Mul(Real(n), Share(total, n, cap)) == Min(total, Mul(Real(n), cap))
  {
    PartsOfWhole(total, n);
    MulMonotone(Real(n), Share(total, n, cap), total / Real(n));
    MulMonotone(Real(n), Share(total, n, cap), cap);
  }

  /** Python's ZeroDivisionError, here Err, when pods are active but none may be chosen. */
  method AllocateBudget(pods: seq<Entry>, total: real, cap: real, max: int) returns (r: Result<map<Id, real>, string>)
    ensures r.Err? <==> ActiveOnly(pods) != [] && Chosen(pods, max) == []
    ensures r.Ok? && Chosen(pods, max) == [] ==> r.value == map[]
    ensures r.Ok? && Chosen(pods, max) != [] ==> r.value == Allotted(Chosen(pods, max), total, cap, |Chosen(pods, max)|)
    ensures r.Ok? && total >= 0.0 ==> forall id :: id in r.value ==>
      Chosen(pods, max) != [] && r.value[id] == Round4(Share(total, |Chosen(pods, max)|, cap))
  {
    var active := ActiveOnly(pods);
    if active == [] {
      return Ok(map[]);
    }
    active := Slice(Sorted(active), max);
    if active == [] {
      return Err("division by zero");
    }
    var n := |active|;
    var perPod := total / Real(n);
    var allocation: map<Id, real> := map[];
    var remaining := total;
    for i := 0 to n
      invariant remaining == Remaining(total, n, cap, i)
      invariant allocation == Allotted(active, total, cap, i)
    {
      var alloc := Min(Min(perPod, cap), remaining);
      allocation := allocation[active[i].id := Round4(alloc)];
      remaining := remaining - alloc;
    }
    if total >= 0.0 {
      AllottedShares(active, total, cap, n);
    }
    r := Ok(allocation);
  }

  /** The dict after i turns: pod identifiers to rounded allocations. */
  function Allotted(active: seq<Entry>, total: real, cap: real, i: nat): map<Id, real>
    requires i <= |active|
  {
    if i == 0 then map[]
    else Allotted(active, total, cap, i - 1)[active[i - 1].id := Round4(Allocation(total, |active|, cap, i - 1))]
  }

  /** With money to split, every chosen pod gets the rounded share and nobody else anything. */
  lemma {:induction false} AllottedShares(active: seq<Entry>, total: real, cap: real, i: nat)
    requires total >= 0.0 && i <= |active|
    ensures forall id :: id in Allotted(active, total, cap, i) <==> exists k :: 0 <= k < i && active[k].id == id
    ensures forall id :: id in Allotted(active, total, cap, i) ==>
      active != [] && Allotted(active, total, cap, i)[id] == Round4(Share(total, |active|, cap))
  {
    if i > 0 {
      AllottedShares(active, total, cap, i - 1);
      RemainingIsEnough(total, |active|, cap, i - 1);
    }
  }

  /** The rounded shares of n pods exceed the money by at most n * 0.00005. */
  lemma RoundedSharesBounded(total: real, n: nat, cap: real)
    requires n > 0
    ensures Mul(Real(n), Round4(Share(total, n, cap))) <= Min(total, Mul(Real(n), cap)) + Mul(Real(n), 0.00005)
  {
    var e := Share(total, n, cap);
    SharesSum(total, n, cap);
    MulMonotone(Real(n), Round4(e), e + 0.00005);
    assert Mul(Real(n), e + 0.00005) == Mul(Real(n), e) + Mul(Real(n), 0.00005);
  }

  lemma {:induction false} ActiveMembers(pods: seq<Entry>, e: Entry)
    ensures e in ActiveOnly(pods) <==> e in pods && e.view.status != Killed
  {
    if pods != [] {
      ActiveMembers(pods[..|pods| - 1], e);
      assert pods == pods[..|pods| - 1] + [pods[|pods| - 1]];
    }
  }

  /** Winners first: no active pod left out has a higher ROAS than one that was chosen, and only
      active pods are chosen. */
  lemma ChosenAreBest(pods: seq<Entry>, max: int, chosen: Entry, other: Entry)
    requires chosen in Chosen(pods, max) && other in pods && other.view.status != Killed && other !in Chosen(pods, max)
    ensures chosen in pods && chosen.view.status != Killed && Roas(other) <= Roas(chosen)
  {
    var active := ActiveOnly(pods);
    SortedKeeps(active);
    SortedMembers(active, other);
    SortedMembers(active, chosen);
    ActiveMembers(pods, other);
    ActiveMembers(pods, chosen);
    PrefixIsBest(Sorted(active), |Chosen(pods, max)|, chosen, other);
  }

  lemma SortedMembers(pods: seq<Entry>, e: Entry)
    ensures e in Sorted(pods) <==> e in pods
  {
    SortedKeeps(pods);
    assert e in Sorted(pods) <==> e in multiset(Sorted(pods));
  }

  lemma PrefixIsBest(s: seq<Entry>, k: nat, chosen: Entry, other: Entry)
    requires Descending(s) && k <= |s| && chosen in s[..k] && other in s && other !in s[..k]
    ensures chosen in s && Roas(other) <= Roas(chosen)
  {
    var i :| 0 <= i < k && s[i] == chosen;
    var j :| 0 <= j < |s| && s[j] == other;
    assert forall x :: 0 <= x < k ==> s[x] in s[..k];
  }
}
