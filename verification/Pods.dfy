/** The shared pod registry of core/pods.py and its cap under concurrent creation. */
module Pods {
  import opened Wrappers

  type Id = nat

  datatype Status = Testing | Scaling | Killed

  datatype Metrics = Metrics(roas: real, spend: real, revenue: real)

  /** What a pod's fields hold. */
  datatype View = View(budget: real, status: Status, metrics: Metrics)

  type Table = map<Id, View>

  const NEW_METRICS := Metrics(0.0, 0.0, 0.0)

  function ActiveIds(pods: Table): set<Id> {
    set id | id in pods && pods[id].status != Killed
  }

  /** sum(1 for p in _pods.values() if p.status != "killed") */
  function Active(pods: Table): nat {
    |ActiveIds(pods)|
  }

  lemma OneMoreCounted(pods: Table, todo: set<Id>, id: Id)
    requires id in todo && todo <= pods.Keys
    ensures |ActiveIds(pods) - (todo - {id})| == |ActiveIds(pods) - todo| + (if pods[id].status != Killed then 1 else 0)
  {
    var rest := ActiveIds(pods) - (todo - {id});
    if id in ActiveIds(pods) {
      assert rest == (ActiveIds(pods) - todo) + {id};
    } else {
      assert rest == ActiveIds(pods) - todo;
    }
  }

  // The registry ----------------------------------------------------------------------------

  class Pod {
    const id: Id
    var budget: real
    var status: Status
    var metrics: Metrics

    constructor (id: Id, budget: real)
      ensures this.id == id && this.budget == budget && status == Testing && metrics == NEW_METRICS
    {
      this.id, this.budget, status, metrics := id, budget, Testing, NEW_METRICS;
    }

    function AsView(): View
      reads this
    {
      View(budget, status, metrics)
    }
  }

  /** _pods with the operations on it; each method is one critical section of _pods_lock, except
      Create, which is the sequential composition of two. */
  class PodManager {
    const maxConcurrentPods: int
    var pods: map<Id, Pod>

    constructor (max: int)
      ensures maxConcurrentPods == max && pods == map[]
    {
      maxConcurrentPods, pods := max, map[];
    }

    /** Pods are filed under their own identifiers, so no two entries share an object. */
    ghost predicate Valid()
      reads this, pods.Values
    {
      forall id :: id in pods ==> pods[id].id == id
    }

    function Contents(): Table
      reads this, pods.Values
    {
      map id | id in pods :: pods[id].AsView()
    }

    method ActiveCount() returns (count: nat)
      ensures count == Active(Contents())
    {
      count := 0;
      var todo := pods.Keys;
      ghost var table := Contents();
      while todo != {}
        invariant todo <= table.Keys && count == |ActiveIds(table) - todo|
        decreases todo
      {
        var id :| id in todo;
        OneMoreCounted(table, todo, id);
        todo := todo - {id};
        if pods[id].status != Killed {
          count := count + 1;
        }
      }
      assert ActiveIds(table) - todo == ActiveIds(table);
    }

    /** The first critical section of create. */
    method CheckCapacity() returns (ok: bool)
      ensures ok <==> Active(Contents()) < maxConcurrentPods
    {
      var active := ActiveCount();
      ok := active < maxConcurrentPods;
    }

    /** The second critical section of create; identifiers are universally unique. */
    method Insert(pod: Pod)
      requires Valid() && pod.id !in pods
      modifies this`pods
      ensures Valid() && pods == old(pods)[pod.id := pod]
      ensures Contents() == old(Contents())[pod.id := pod.AsView()]
    {
      pods := pods[pod.id := pod];
    }

    /** With one thread the cap is exact: a pod is created if and only if there is room. */
    method Create(id: Id, budget: real) returns (r: Result<Pod, string>)
      requires Valid() && id !in pods
      modifies this`pods
      ensures Valid() && (r.Ok? <==> Active(old(Contents())) < maxConcurrentPods)
      ensures r.Ok? ==> Contents() == old(Contents())[id := View(budget, Testing, Metrics(0.0, 0.0, 0.0))]
      ensures r.Ok? ==> Active(Contents()) == Active(old(Contents())) + 1 <= maxConcurrentPods
      ensures r.Err? ==> Contents() == old(Contents())
    {
      var ok := CheckCapacity();
      if !ok {
        return Err("max_concurrent_pods reached");
      }
      var pod := new Pod(id, budget);
      InsertCounts(Contents(), id, pod.AsView());
      Insert(pod);
      r := Ok(pod);
    }

    /** A KeyError, here Err, when there is no such pod. */
    method Kill(id: Id) returns (r: Result<Pod, string>)
      requires Valid()
      modifies pods.Values
      ensures Valid() && pods == old(pods) && (r.Ok? <==> id in pods)
      ensures r.Ok? ==> Contents() == old(Contents())[id := old(Contents())[id].(status := Killed)]
      ensures r.Err? ==> Contents() == old(Contents())
    {
      if id !in pods {
        return Err("pod not found");
      }
      var pod := pods[id];
      pod.status := Killed;
      r := Ok(pod);
    }

    method UpdateMetrics(id: Id, m: Metrics) returns (r: Result<Pod, string>)
      requires Valid()
      modifies pods.Values
      ensures Valid() && pods == old(pods) && (r.Ok? <==> id in pods)
      ensures r.Ok? ==> Contents() == old(Contents())[id := old(Contents())[id].(metrics := m)]
      ensures r.Err? ==> Contents() == old(Contents())
    {
      if id !in pods {
        return Err("pod not found");
      }
      var pod := pods[id];
      pod.metrics := m;
      r := Ok(pod);
    }
  }

  // N threads -------------------------------------------------------------------------------

  datatype Phase = Outside | Admitted

  /** The table and, per thread, whether it is between the two critical sections of create. */
  datatype State = State(pods: Table, threads: seq<Phase>)

  datatype Step =
    | Check(t: nat)                    // the first critical section
    | InsertNew(t: nat, id: Id, budget: real)
    | KillPod(id: Id)
    | SetMetrics(id: Id, m: Metrics)
    | SetStatus(id: Id, status: Status) // update(status=...), never from killed to anything else
    | Clear

  predicate Enabled(s: State, step: Step) {
    match step
    case Check(t) => t < |s.threads| && s.threads[t] == Outside
    case InsertNew(t, id, _) => t < |s.threads| && s.threads[t] == Admitted && id !in s.pods
    case KillPod(id) => id in s.pods
    case SetMetrics(id, _) => id in s.pods
    case SetStatus(id, status) => id in s.pods && (s.pods[id].status == Killed ==> status == Killed)
    case Clear => true
  }

  function Apply(s: State, step: Step, max: int): State
    requires Enabled(s, step)
  {
    match step
    case Check(t) => if Active(s.pods) >= max then s else s.(threads := s.threads[t := Admitted])
    case InsertNew(t, id, budget) =>
      State(s.pods[id := View(budget, Testing, NEW_METRICS)], s.threads[t := Outside])
    case KillPod(id) => s.(pods := s.pods[id := s.pods[id].(status := Killed)])
    case SetMetrics(id, m) => s.(pods := s.pods[id := s.pods[id].(metrics := m)])
    case SetStatus(id, status) => s.(pods := s.pods[id := s.pods[id].(status := status)])
    case Clear => s.(pods := map[])
  }

  function Initial(n: nat): State {
    State(map[], seq(n, _ => Outside))
  }

  ghost predicate Next(s: State, s': State, max: int) {
    exists step :: Enabled(s, step) && s' == Apply(s, step, max)
  }

  ghost predicate StepAt(run: seq<State>, i: nat, max: int) {
    0 < i < |run| ==> Next(run[i - 1], run[i], max)
  }

  ghost predicate Execution(run: seq<State>, n: nat, max: int) {
    run != [] && run[0] == Initial(n) && forall i: nat :: StepAt(run, i, max)
  }

  /** Threads that have been admitted and have not inserted. */
  function Pending(threads: seq<Phase>): nat {
    if threads == [] then 0
    else Pending(threads[..|threads| - 1]) + if threads[|threads| - 1] == Admitted then 1 else 0
  }

  lemma {:induction false} PendingBound(threads: seq<Phase>)
    ensures Pending(threads) <= |threads|
  {
    if threads != [] {
      PendingBound(threads[..|threads| - 1]);
    }
  }

  lemma {:induction false} PendingUpdate(threads: seq<Phase>, t: nat, phase: Phase)
    requires t < |threads|
    ensures Pending(threads[t := phase]) ==
      Pending(threads) - (if threads[t] == Admitted then 1 else 0) + (if phase == Admitted then 1 else 0)
  {
    var last := |threads| - 1;
    if t < last {
      PendingUpdate(threads[..last], t, phase);
      assert threads[t := phase][..last] == threads[..last][t := phase];
    } else {
      assert threads[t := phase][..last] == threads[..last];
    }
  }

  lemma InsertCounts(pods: Table, id: Id, v: View)
    requires id !in pods && v.status != Killed
    ensures Active(pods[id := v]) == Active(pods) + 1
  {
    assert ActiveIds(pods[id := v]) == ActiveIds(pods) + {id};
  }

  lemma FewerActive(pods: Table, other: Table)
    requires ActiveIds(other) <= ActiveIds(pods)
    ensures Active(other) <= Active(pods)
  {
    assert ActiveIds(pods) == ActiveIds(other) + (ActiveIds(pods) - ActiveIds(other));
  }

  /** The cap that creation under n threads really has. */
  function ConcurrentCap(n: nat, max: int): nat {
    if max >= 1 && n >= 1 then max + n - 1 else 0
  }

  predicate Inv(s: State, n: nat, max: int) {
    |s.threads| == n && Active(s.pods) + Pending(s.threads) <= ConcurrentCap(n, max)
  }

  lemma StepKeepsInv(s: State, step: Step, n: nat, max: int)
    requires Inv(s, n, max) && Enabled(s, step)
    ensures Inv(Apply(s, step, max), n, max)
  {
    var s' := Apply(s, step, max);
    match step
    case Check(t) =>
      PendingUpdate(s.threads, t, Admitted);
      PendingBound(s.threads[t := Admitted]);
    case InsertNew(t, id, budget) =>
      PendingUpdate(s.threads, t, Outside);
      InsertCounts(s.pods, id, View(budget, Testing, NEW_METRICS));
    case _ =>
      FewerActive(s.pods, s'.pods);
  }

  /** In every reachable state, with n threads creating pods and any kills and updates between,
      at most max + n - 1 pods are active; for one thread that is max itself. */
  lemma {:induction false} ActivePodsBounded(run: seq<State>, i: nat, n: nat, max: int)
    requires Execution(run, n, max) && i < |run|
    ensures Inv(run[i], n, max) && Active(run[i].pods) <= ConcurrentCap(n, max)
    ensures n == 1 && max >= 0 ==> Active(run[i].pods) <= max
  {
    if i == 0 {
      NobodyPending(n);
    } else {
      ActivePodsBounded(run, i - 1, n, max);
      assert StepAt(run, i, max);
      var step :| Enabled(run[i - 1], step) && run[i] == Apply(run[i - 1], step, max);
      StepKeepsInv(run[i - 1], step, n, max);
    }
  }

  lemma {:induction false} NobodyPending(n: nat)
    ensures Pending(seq(n, _ => Outside)) == 0
  {
    if n > 0 {
      NobodyPending(n - 1);
      assert seq(n, _ => Outside)[..n - 1] == seq(n - 1, _ => Outside);
    }
  }

  // The bound is reached --------------------------------------------------------------------

  function Fresh(): View {
    View(0.0, Testing, NEW_METRICS)
  }

  /** Pods 0 to k - 1, all new. */
  function Filled(k: nat): (pods: Table)
    ensures forall id: Id :: id in pods <==> id < k
  {
    if k == 0 then map[] else Filled(k - 1)[k - 1 := Fresh()]
  }

  /** Of n threads, those from lo to hi - 1 have been admitted. */
  function Threads(n: nat, lo: nat, hi: nat): seq<Phase> {
    seq(n, t => if lo <= t < hi then Admitted else Outside)
  }

  lemma {:induction false} FilledActive(k: nat)
    ensures Active(Filled(k)) == k
  {
    if k == 0 {
      assert ActiveIds(Filled(0)) == {};
    } else {
      FilledActive(k - 1);
      assert Filled(k) == Filled(k - 1)[k - 1 := Fresh()];
      InsertCounts(Filled(k - 1), k - 1, Fresh());
    }
  }

  lemma Extend(run: seq<State>, step: Step, n: nat, max: int) returns (longer: seq<State>)
    requires Execution(run, n, max) && Enabled(run[|run| - 1], step)
    ensures Execution(longer, n, max) && longer[|longer| - 1] == Apply(run[|run| - 1], step, max)
  {
    longer := run + [Apply(run[|run| - 1], step, max)];
    forall i: nat ensures StepAt(longer, i, max) {
      if 0 < i < |run| {
        assert StepAt(run, i, max);
      }
    }
  }

  /** Thread 0 alone creates k pods. */
  lemma {:induction false} FillUp(k: nat, n: nat, max: int) returns (run: seq<State>)
    requires n >= 1 && k <= max
    ensures Execution(run, n, max) && run[|run| - 1] == State(Filled(k), Threads(n, 0, 0))
  {
    if k == 0 {
      run := [Initial(n)];
      assert Filled(0) == map[] && Threads(n, 0, 0) == Initial(n).threads;
    } else {
      run := FillUp(k - 1, n, max);
      FilledActive(k - 1);
      run := Extend(run, Check(0), n, max);
      assert Threads(n, 0, 0)[0 := Admitted] == Threads(n, 0, 1);
      run := Extend(run, InsertNew(0, k - 1, 0.0), n, max);
      assert Threads(n, 0, 1)[0 := Outside] == Threads(n, 0, 0);
      assert Filled(k) == Filled(k - 1)[k - 1 := Fresh()];
    }
  }

  /** One slot short of the cap, every thread in turn is admitted. */
  lemma {:induction false} AdmitAll(j: nat, n: nat, max: int) returns (run: seq<State>)
    requires n >= 1 && max >= 1 && j <= n
    ensures Execution(run, n, max) && run[|run| - 1] == State(Filled(max - 1), Threads(n, 0, j))
  {
    if j == 0 {
      run := FillUp(max - 1, n, max);
    } else {
      run := AdmitAll(j - 1, n, max);
      FilledActive(max - 1);
      run := Extend(run, Check(j - 1), n, max);
      assert Threads(n, 0, j - 1)[j - 1 := Admitted] == Threads(n, 0, j);
    }
  }

  /** And every thread in turn inserts. */
  lemma {:induction false} InsertAll(j: nat, n: nat, max: int) returns (run: seq<State>)
    requires n >= 1 && max >= 1 && j <= n
    ensures Execution(run, n, max) && run[|run| - 1] == State(Filled(max - 1 + j), Threads(n, j, n))
  {
    if j == 0 {
      run := AdmitAll(n, n, max);
    } else {
      run := InsertAll(j - 1, n, max);
      run := Extend(run, InsertNew(j - 1, max - 2 + j, 0.0), n, max);
      assert Threads(n, j - 1, n)[j - 1 := Outside] == Threads(n, j, n);
      assert Filled(max - 1 + j) == Filled(max - 2 + j)[max - 2 + j := Fresh()];
    }
  }

  /** No smaller bound holds: max + n - 1 active pods can be reached. */
  lemma BoundIsReached(n: nat, max: int) returns (run: seq<State>)
    requires n >= 1 && max >= 1
    ensures Execution(run, n, max) && Active(run[|run| - 1].pods) == ConcurrentCap(n, max)
  {
    run := InsertAll(n, n, max);
    FilledActive(max - 1 + n);
  }

  /** The cap the constructor is given holds in every run if and only if there is no race: at most
      one thread, or nothing can be created at all. */
  lemma CapHoldsIff(n: nat, max: int)
    requires max >= 0
    ensures (n <= 1 || max == 0) <==>
      forall run: seq<State>, i: nat :: Execution(run, n, max) && i < |run| ==> Active(run[i].pods) <= max
  {
    if n <= 1 || max == 0 {
      forall run: seq<State>, i: nat | Execution(run, n, max) && i < |run| ensures Active(run[i].pods) <= max {
        ActivePodsBounded(run, i, n, max);
      }
    } else {
      var run := BoundIsReached(n, max);
      assert Active(run[|run| - 1].pods) > max;
    }
  }
}
