/** SignalEngine.get (core/signals.py) under every interleaving of any number of callers.

    Each shared read and write of the method is a step of its own, except that what happens
    between acquiring the lock and releasing it on the early returns is one step: only the lock
    holder writes the cache. The list and its timestamp are two separate stores. */
module SignalCache {

  type Signal = map<string, string>
  type Tid = nat

  datatype Pc =
    | Idle        // not called yet
    | Called      // clock read
    | SawList     // the cached list was not empty
    | Fresh       // the timestamp was recent enough; the list is about to be copied
    | Missed      // no usable list; the generation is about to be read
    | Waiting     // generation read; the lock is about to be acquired
    | Holding     // lock acquired
    | Fetching    // the re-check failed too: refreshing, lock held
    | ListStored  // _cached_signals assigned, _cache_updated_at not yet
    | StampStored // both assigned, lock still held
    | Copying     // lock released on an early return; the list is about to be copied
    | Done

  datatype Outcome = Pending | FastHit | LockedHit | Reused | Refreshed

  /** One caller. The fields from began on are history: nothing in the protocol reads them. */
  datatype Caller = Caller(
    force: bool,          // force_refresh
    pc: Pc,
    now: real,            // first clock reading
    generation: real,     // refresh_generation
    lockedNow: real,      // clock reading under the lock
    result: seq<Signal>,
    outcome: Outcome,
    began: nat,           // lists stored before the call
    beganMid: bool,       // the call began between a list store and its timestamp store
    genIndex: nat,        // timestamps stored before the generation was read
    index: nat)           // which stored list the result is

  /** A stored list: who fetched it, the generation it replaced and when its fetch started. */
  datatype Refresh = Refresh(owner: Tid, generation: real, started: real, items: seq<Signal>)

  datatype State = State(
    ttl: real,
    clock: real,
    cached: seq<Signal>,
    stamp: real,
    holder: Tid,             // meaningful while locked
    locked: bool,
    refreshCount: nat,
    callers: seq<Caller>,
    log: seq<Refresh>,       // history: every list ever stored
    published: nat)          // history: the number of timestamps stored

  datatype Action =
    | Begin(force: bool, time: real)
    | CheckList
    | CheckStamp
    | CopyFresh
    | ReadGeneration
    | Acquire
    | Recheck(time: real)
    | StoreList(items: seq<Signal>)
    | StoreStamp
    | Finish
    | CopyReleased

  function Newcomer(): Caller {
    Caller(false, Idle, 0.0, 0.0, 0.0, [], Pending, 0, false, 0, 0)
  }

  predicate Init(s: State) {
    && s.ttl >= 0.0 && s.clock >= 0.0 && s.cached == [] && s.stamp == 0.0 && !s.locked
    && s.refreshCount == 0 && s.log == [] && s.published == 0
    && forall t :: 0 <= t < |s.callers| ==> s.callers[t] == Newcomer()
  }

  /** A list has been stored whose timestamp has not. */
  predicate MidPublish(s: State) {
    s.published < |s.log|
  }

  predicate Enabled(s: State, t: Tid, a: Action) {
    && t < |s.callers|
    && var c := s.callers[t];
    match a
    case Begin(_, time) => c.pc == Idle && time > s.clock
    case CheckList => c.pc == Called
    case CheckStamp => c.pc == SawList
    case CopyFresh => c.pc == Fresh
    case ReadGeneration => c.pc == Missed
    case Acquire => c.pc == Waiting && !s.locked
    case Recheck(time) => c.pc == Holding && time > s.clock
    case StoreList(items) => c.pc == Fetching && items != []
    case StoreStamp => c.pc == ListStored
    case Finish => c.pc == StampStored && c.index < |s.log|
    case CopyReleased => c.pc == Copying
  }

  /** What caller t does next, and what that does to the shared state. */
  function Move(s: State, t: Tid, a: Action): (State, Caller)
    requires Enabled(s, t, a)
  {
    var c := s.callers[t];
    match a
    case Begin(force, time) =>
      (s.(clock := time),
       Newcomer().(force := force, pc := Called, now := time, began := |s.log|, beganMid := MidPublish(s)))
    case CheckList =>
      (s, c.(pc := if !c.force && s.cached != [] then SawList else Missed))
    case CheckStamp =>
      (s, c.(pc := if c.now - s.stamp < s.ttl then Fresh else Missed))
    case CopyFresh =>
      (s, Copied(s, c).(outcome := FastHit))
    case ReadGeneration =>
      (s, c.(pc := Waiting, generation := s.stamp, genIndex := s.published))
    case Acquire =>
      (s.(locked := true, holder := t), c.(pc := Holding))
    case Recheck(time) =>
      var s' := s.(clock := time);
      var c' := c.(lockedNow := time);
      if s.cached != [] && s.stamp != c.generation then
        (s'.(locked := false), c'.(pc := Copying, outcome := Reused))
      else if !c.force && s.cached != [] && time - s.stamp < s.ttl then
        (s'.(locked := false), c'.(pc := Copying, outcome := LockedHit))
      else
        (s', c'.(pc := Fetching))
    case StoreList(items) =>
      (s.(cached := items, log := s.log + [Refresh(t, c.generation, c.lockedNow, items)]),
       c.(pc := ListStored, index := |s.log|))
    case StoreStamp =>
      (s.(stamp := c.lockedNow, published := s.published + 1), c.(pc := StampStored))
    case Finish =>
      (s.(locked := false, refreshCount := s.refreshCount + 1),
       c.(pc := Done, result := s.log[c.index].items, outcome := Refreshed))
    case CopyReleased =>
      (s, Copied(s, c))
  }

  function Copied(s: State, c: Caller): Caller {
    c.(pc := Done, result := s.cached, index := if s.log == [] then 0 else |s.log| - 1)
  }

  function Apply(s: State, t: Tid, a: Action): State
    requires Enabled(s, t, a)
  {
    var (s', c') := Move(s, t, a);
    s'.(callers := s.callers[t := c'])
  }

  ghost predicate Next(s: State, s': State) {
    exists t: Tid, a: Action :: Enabled(s, t, a) && s' == Apply(s, t, a)
  }

  ghost predicate StepAt(run: seq<State>, i: nat) {
    0 < i < |run| ==> Next(run[i - 1], run[i])
  }

  /** A run is a sequence of states, each following from the one before. */
  ghost predicate Run(run: seq<State>) {
    run != [] && forall i: nat :: StepAt(run, i)
  }

  ghost predicate Execution(run: seq<State>) {
    Run(run) && Init(run[0])
  }

  // The invariant ---------------------------------------------------------------------------

  /** The k-th generation: 0.0 before any refresh, then the start of each one. */
  function Generation(log: seq<Refresh>, k: nat): real
    requires k <= |log|
  {
    if k == 0 then 0.0 else log[k - 1].started
  }

  predicate InLock(pc: Pc) {
    pc.Holding? || pc.Fetching? || pc.ListStored? || pc.StampStored?
  }

  /** Each refresh replaced the generation before it, so generations strictly increase. */
  predicate Chain(log: seq<Refresh>) {
    forall i {:trigger log[i].generation} :: 0 <= i < |log| ==>
      log[i].generation == Generation(log, i) < log[i].started
  }

  predicate LogInv(s: State) {
    && Chain(s.log)
    && (forall i {:trigger s.log[i].items} :: 0 <= i < |s.log| ==> s.log[i].items != [])
    && s.cached == (if s.log == [] then [] else s.log[|s.log| - 1].items)
    && s.published <= |s.log| <= s.published + 1
    && s.stamp == Generation(s.log, s.published)
    && 0.0 <= s.stamp <= s.clock && s.ttl >= 0.0
  }

  /** The holder's program counter decides whether the log is ahead of the timestamp, and the
      timestamp ahead of the counter. */
  predicate HolderInv(s: State) {
    && (s.locked ==> s.holder < |s.callers|)
    && var pc := if s.locked then s.callers[s.holder].pc else Idle;
    && (MidPublish(s) <==> pc == ListStored)
    && s.published == s.refreshCount + (if pc == StampStored then 1 else 0)
  }

  /** The generation this caller read was the stamp at that time. */
  predicate ReadInv(s: State, c: Caller) {
    && c.genIndex <= s.published && c.genIndex <= |s.log| && c.generation == Generation(s.log, c.genIndex)
    && c.began <= c.genIndex + Slack(c)
  }

  function Slack(c: Caller): nat {
    if c.beganMid then 1 else 0
  }

  /** What an early return under the lock has established. */
  predicate EarlyInv(s: State, c: Caller) {
    && (c.outcome == Reused ==> c.genIndex < s.published)
    && (c.outcome == LockedHit ==> !c.force && 0 < c.genIndex && c.now - c.generation < s.ttl)
  }

  /** A result is one of the stored lists. */
  predicate ResultInv(s: State, t: Tid, c: Caller) {
    && c.index < |s.log| && c.result == s.log[c.index].items
    && (c.outcome == FastHit ==> !c.force && c.now - s.log[c.index].started < s.ttl)
    && (c.outcome == LockedHit ==> c.lockedNow - s.log[c.index].started < s.ttl)
    && (c.outcome == Reused ==> c.genIndex <= c.index)
    && (c.outcome == Refreshed ==> OwnEntry(s, t, c))
  }

  /** The list this caller stored itself. */
  predicate OwnEntry(s: State, t: Tid, c: Caller) {
    && c.index < |s.log| && c.genIndex == c.index && c.began <= c.index
    && s.log[c.index].owner == t && s.log[c.index].started == c.lockedNow
  }

  predicate CallerInv(s: State, t: Tid)
    requires t < |s.callers|
  {
    var c := s.callers[t];
    && (InLock(c.pc) <==> s.locked && s.holder == t)
    && c.began <= |s.log| && (c.pc != Idle ==> c.now <= s.clock)
    && match c.pc
       case Idle => true
       case Called | Missed => c.began <= s.published + Slack(c)
       case SawList => c.began <= s.published + Slack(c) && !c.force && s.log != []
       case Fresh => !c.force && s.log != [] && c.now - s.stamp < s.ttl
       case Waiting | Holding => ReadInv(s, c)
       case Fetching => ReadInv(s, c) && c.genIndex == s.published && s.stamp < c.lockedNow <= s.clock
       case ListStored => ReadInv(s, c) && OwnEntry(s, t, c) && c.index == s.published && c.lockedNow <= s.clock
       case StampStored => ReadInv(s, c) && OwnEntry(s, t, c)
       case Copying =>
         ReadInv(s, c) && EarlyInv(s, c) && s.log != [] && (c.outcome == Reused || c.outcome == LockedHit)
         && (c.outcome == LockedHit ==> c.lockedNow - s.stamp < s.ttl)
       case Done =>
         ResultInv(s, t, c) && c.outcome != Pending && (c.outcome != FastHit ==> ReadInv(s, c) && EarlyInv(s, c))
  }

  predicate Inv(s: State) {
    LogInv(s) && HolderInv(s) && forall t {:trigger CallerInv(s, t)} :: 0 <= t < |s.callers| ==> CallerInv(s, t)
  }

  lemma InitEstablishesInv(s: State)
    requires Init(s)
    ensures Inv(s)
  {
  }

  lemma {:induction false} GenerationsIncrease(log: seq<Refresh>, i: nat, j: nat)
    requires Chain(log) && i <= j <= |log|
    ensures i < j ==> Generation(log, i) < Generation(log, j)
  {
    if i < j {
      GenerationsIncrease(log, i, j - 1);
      assert log[j - 1].generation == Generation(log, j - 1);
    }
  }

  /** What any step leaves intact of what the other callers rely on. */
  predicate Grows(s: State, s': State) {
    && s'.ttl == s.ttl && s.clock <= s'.clock && s.stamp <= s'.stamp
    && s.published <= s'.published && |s.log| <= |s'.log|
    && forall k :: 0 <= k < |s.log| ==> s'.log[k] == s.log[k]
  }

  lemma ChainExtends(log: seq<Refresh>, r: Refresh)
    requires Chain(log) && r.generation == Generation(log, |log|) < r.started
    ensures Chain(log + [r])
    ensures forall k :: 0 <= k <= |log| ==> Generation(log + [r], k) == Generation(log, k)
  {
  }

  lemma AppendKeepsLogInv(s: State, s': State, r: Refresh)
    requires LogInv(s) && s.published == |s.log|
    requires r.generation == Generation(s.log, |s.log|) < r.started && r.items != []
    requires s'.log == s.log + [r] && s'.cached == r.items && s'.published == s.published
    requires s'.stamp == s.stamp && s'.clock == s.clock && s'.ttl == s.ttl
    ensures LogInv(s') && Grows(s, s')
  {
    ChainExtends(s.log, r);
    assert s'.log[|s.log|] == r && forall k :: 0 <= k < |s.log| ==> s'.log[k] == s.log[k];
  }

  lemma StoreListKeepsLogInv(s: State, t: Tid, items: seq<Signal>)
    requires Inv(s) && Enabled(s, t, StoreList(items))
    ensures LogInv(Apply(s, t, StoreList(items))) && Grows(s, Apply(s, t, StoreList(items)))
  {
    assert CallerInv(s, t);
    var c := s.callers[t];
    AppendKeepsLogInv(s, Apply(s, t, StoreList(items)), Refresh(t, c.generation, c.lockedNow, items));
  }

  lemma StoreStampKeepsLogInv(s: State, t: Tid)
    requires Inv(s) && Enabled(s, t, StoreStamp)
    ensures LogInv(Apply(s, t, StoreStamp)) && Grows(s, Apply(s, t, StoreStamp))
  {
    assert CallerInv(s, t);
    StampCatchesUp(s, Apply(s, t, StoreStamp));
  }

  lemma StampCatchesUp(s: State, s': State)
    requires LogInv(s) && MidPublish(s) && s.log[s.published].started <= s.clock
    requires s' == s.(stamp := s.log[s.published].started, published := s.published + 1, callers := s'.callers)
    ensures LogInv(s') && Grows(s, s')
  {
    StampLags(s);
  }

  /** Between the two stores of a refresh, the last list's start is the stamp to come. */
  lemma StampLags(s: State)
    requires LogInv(s) && MidPublish(s)
    ensures s.stamp < s.log[s.published].started == Generation(s.log, s.published + 1)
  {
    assert s.log[s.published].generation == s.stamp;
  }

  lemma OthersKeepLogInv(s: State, s': State)
    requires LogInv(s) && s'.log == s.log && s'.cached == s.cached && s'.stamp == s.stamp
    requires s'.published == s.published && s'.ttl == s.ttl && s'.clock >= s.clock
    ensures LogInv(s') && Grows(s, s')
  {
  }

  lemma StepKeepsLogInv(s: State, t: Tid, a: Action)
    requires Inv(s) && Enabled(s, t, a)
    ensures LogInv(Apply(s, t, a)) && Grows(s, Apply(s, t, a))
  {
    match a
    case StoreList(items) => StoreListKeepsLogInv(s, t, items);
    case StoreStamp => StoreStampKeepsLogInv(s, t);
    case _ => OthersKeepLogInv(s, Apply(s, t, a));
  }

  lemma StepKeepsHolderInv(s: State, t: Tid, a: Action)
    requires Inv(s) && Enabled(s, t, a)
    ensures HolderInv(Apply(s, t, a))
  {
    assert CallerInv(s, t);
  }

  lemma StepKeepsOthers(s: State, s': State, u: Tid)
    requires u < |s.callers| == |s'.callers| && s'.callers[u] == s.callers[u]
    requires CallerInv(s, u) && Grows(s, s') && LogInv(s')
    requires InLock(s.callers[u].pc) ==> s'.published == s.published && s'.stamp == s.stamp
    requires (s'.locked && s'.holder == u) <==> (s.locked && s.holder == u)
    ensures CallerInv(s', u)
  {
    var c := s.callers[u];
    if ReadInv(s, c) {
      ReadStays(s, s', c);
    }
    if ResultInv(s, u, c) {
      ResultStays(s, s', u, c);
    }
  }

  lemma ReadStays(s: State, s': State, c: Caller)
    requires ReadInv(s, c) && Grows(s, s')
    ensures ReadInv(s', c)
  {
    assert Generation(s'.log, c.genIndex) == Generation(s.log, c.genIndex);
  }

  lemma ResultStays(s: State, s': State, t: Tid, c: Caller)
    requires ResultInv(s, t, c) && Grows(s, s')
    ensures ResultInv(s', t, c)
  {
    assert s'.log[c.index] == s.log[c.index];
  }

  lemma ActorLooks(s: State, t: Tid, a: Action)
    requires Inv(s) && Enabled(s, t, a) && (a.Begin? || a.CheckList? || a.CheckStamp?)
    requires LogInv(Apply(s, t, a)) && Grows(s, Apply(s, t, a))
    ensures CallerInv(Apply(s, t, a), t)
  {
    assert CallerInv(s, t);
  }

  lemma ActorWaits(s: State, t: Tid, a: Action)
    requires Inv(s) && Enabled(s, t, a) && (a.ReadGeneration? || a.Acquire?)
    requires LogInv(Apply(s, t, a)) && Grows(s, Apply(s, t, a))
    ensures CallerInv(Apply(s, t, a), t)
  {
    assert CallerInv(s, t);
  }

  /** The latest list was fetched no earlier than the timestamp says. */
  lemma LatestIsRecent(s: State)
    requires LogInv(s) && s.log != []
    ensures s.stamp <= s.log[|s.log| - 1].started
  {
    assert s.log[|s.log| - 1].generation == Generation(s.log, |s.log| - 1);
  }

  lemma ActorCopiesFresh(s: State, t: Tid)
    requires Inv(s) && Enabled(s, t, CopyFresh)
    ensures CallerInv(Apply(s, t, CopyFresh), t)
  {
    assert CallerInv(s, t);
    FreshResult(s, t, s.callers[t]);
  }

  lemma FreshResult(s: State, t: Tid, c: Caller)
    requires LogInv(s) && s.log != [] && !c.force && c.now - s.stamp < s.ttl
    ensures ResultInv(s, t, Copied(s, c).(outcome := FastHit))
  {
    LatestIsRecent(s);
  }

  lemma CopiedResult(s: State, t: Tid, c: Caller)
    requires LogInv(s) && s.log != [] && ReadInv(s, c) && EarlyInv(s, c)
    requires c.outcome == Reused || c.outcome == LockedHit
    requires c.outcome == LockedHit ==> c.lockedNow - s.stamp < s.ttl
    ensures ResultInv(s, t, Copied(s, c)) && ReadInv(s, Copied(s, c)) && EarlyInv(s, Copied(s, c))
  {
    LatestIsRecent(s);
  }

  lemma ActorCopiesReleased(s: State, t: Tid)
    requires Inv(s) && Enabled(s, t, CopyReleased)
    ensures CallerInv(Apply(s, t, CopyReleased), t)
  {
    assert CallerInv(s, t);
    var c, s' := s.callers[t], Apply(s, t, CopyReleased);
    CopiedResult(s, t, c);
    assert s'.callers[t] == Copied(s, c);
    assert ResultInv(s', t, Copied(s, c)) && ReadInv(s', Copied(s, c)) && EarlyInv(s', Copied(s, c));
  }

  lemma ActorRechecks(s: State, t: Tid, a: Action)
    requires Inv(s) && Enabled(s, t, a) && (a.Recheck?)
    requires LogInv(Apply(s, t, a)) && Grows(s, Apply(s, t, a))
    ensures CallerInv(Apply(s, t, a), t)
  {
    assert CallerInv(s, t);
    SameStampIff(s, s.callers[t]);
  }

  /** The stamp is the one this caller read exactly if none has been stored since. */
  lemma SameStampIff(s: State, c: Caller)
    requires LogInv(s) && ReadInv(s, c)
    ensures c.generation == s.stamp <==> c.genIndex == s.published
    ensures s.published > 0 ==> s.stamp > 0.0
  {
    GenerationsIncrease(s.log, c.genIndex, s.published);
    GenerationsIncrease(s.log, 0, s.published);
  }

  lemma ActorStores(s: State, t: Tid, a: Action)
    requires Inv(s) && Enabled(s, t, a) && (a.StoreList? || a.StoreStamp?)
    requires LogInv(Apply(s, t, a)) && Grows(s, Apply(s, t, a))
    ensures CallerInv(Apply(s, t, a), t)
  {
    assert CallerInv(s, t);
  }

  lemma ActorFinishes(s: State, t: Tid, a: Action)
    requires Inv(s) && Enabled(s, t, a) && (a.Finish?)
    requires LogInv(Apply(s, t, a)) && Grows(s, Apply(s, t, a))
    ensures CallerInv(Apply(s, t, a), t)
  {
    assert CallerInv(s, t);
  }

  lemma StepKeepsActor(s: State, t: Tid, a: Action)
    requires Inv(s) && Enabled(s, t, a)
    ensures CallerInv(Apply(s, t, a), t)
  {
    StepKeepsLogInv(s, t, a);
    match a
    case CopyFresh => ActorCopiesFresh(s, t);
    case CopyReleased => ActorCopiesReleased(s, t);
    case Recheck(_) => ActorRechecks(s, t, a);
    case StoreList(_) | StoreStamp => ActorStores(s, t, a);
    case Finish => ActorFinishes(s, t, a);
    case ReadGeneration | Acquire => ActorWaits(s, t, a);
    case _ => ActorLooks(s, t, a);
  }

  /** An action touches the lock and the stores only through its own caller. */
  lemma StepSparesOthers(s: State, t: Tid, a: Action, u: Tid)
    requires Inv(s) && Enabled(s, t, a) && u < |s.callers| && u != t
    ensures var s' := Apply(s, t, a);
      && s'.callers[u] == s.callers[u]
      && (InLock(s.callers[u].pc) ==> s'.published == s.published && s'.stamp == s.stamp)
      && ((s'.locked && s'.holder == u) <==> (s.locked && s.holder == u))
  {
    assert CallerInv(s, t) && CallerInv(s, u);
  }

  lemma StepKeepsInv(s: State, t: Tid, a: Action)
    requires Inv(s) && Enabled(s, t, a)
    ensures Inv(Apply(s, t, a)) && Grows(s, Apply(s, t, a))
  {
    var s' := Apply(s, t, a);
    StepKeepsLogInv(s, t, a);
    StepKeepsHolderInv(s, t, a);
    forall u | 0 <= u < |s'.callers| ensures CallerInv(s', u) {
      if u == t {
        StepKeepsActor(s, t, a);
      } else {
        assert CallerInv(s, u);
        StepSparesOthers(s, t, a, u);
        StepKeepsOthers(s, s', u);
      }
    }
  }

  // Main results ----------------------------------------------------------------------------

  lemma StepTaken(run: seq<State>, i: nat) returns (t: Tid, a: Action)
    requires Run(run) && 0 < i < |run|
    ensures Enabled(run[i - 1], t, a) && run[i] == Apply(run[i - 1], t, a)
  {
    assert StepAt(run, i);
    t, a :| Enabled(run[i - 1], t, a) && run[i] == Apply(run[i - 1], t, a);
  }

  lemma StepAtKeepsInv(run: seq<State>, i: nat)
    requires Run(run) && 0 < i < |run| && Inv(run[i - 1])
    ensures Inv(run[i])
  {
    var t, a := StepTaken(run, i);
    StepKeepsInv(run[i - 1], t, a);
  }

  lemma {:induction false} RunKeepsInv(run: seq<State>, i: nat)
    requires Run(run) && Inv(run[0]) && i < |run|
    ensures Inv(run[i])
  {
    if i > 0 {
      RunKeepsInv(run, i - 1);
      StepAtKeepsInv(run, i);
    }
  }

  lemma ReachableInv(run: seq<State>, i: nat)
    requires Execution(run) && i < |run|
    ensures Inv(run[i])
  {
    InitEstablishesInv(run[0]);
    RunKeepsInv(run, i);
  }

  lemma ExecutionKeepsInv(run: seq<State>)
    requires Execution(run)
    ensures forall i :: 0 <= i < |run| ==> Inv(run[i])
  {
    forall i | 0 <= i < |run| ensures Inv(run[i]) {
      ReachableInv(run, i);
    }
  }

  /** The caller has decided to refresh, is refreshing or has refreshed. */
  predicate Refreshes(c: Caller) {
    c.pc.Fetching? || c.pc.ListStored? || c.pc.StampStored? || (c.pc.Done? && c.outcome == Refreshed)
  }

  predicate Refreshing(c: Caller) {
    Refreshes(c) && !c.pc.Done?
  }

  /** In every interleaving at most one caller is refreshing, the completed refreshes are counted
      exactly, and no two callers ever refresh from the same generation. */
  lemma SingleFlight(run: seq<State>, s: State, t: Tid, u: Tid)
    requires Execution(run) && s in run && t < |s.callers| && u < |s.callers|
    ensures Refreshing(s.callers[t]) && Refreshing(s.callers[u]) ==> t == u
    ensures s.refreshCount <= |s.log| <= s.refreshCount + 1 && (!s.locked ==> s.refreshCount == |s.log|)
    ensures (Refreshes(s.callers[t]) && Refreshes(s.callers[u])
             && s.callers[t].generation == s.callers[u].generation) ==> t == u
  {
    ExecutionKeepsInv(run);
    SingleFlightState(s, t, u);
  }

  lemma SingleFlightState(s: State, t: Tid, u: Tid)
    requires Inv(s) && t < |s.callers| && u < |s.callers|
    ensures Refreshing(s.callers[t]) && Refreshing(s.callers[u]) ==> t == u
    ensures s.refreshCount <= |s.log| <= s.refreshCount + 1 && (!s.locked ==> s.refreshCount == |s.log|)
    ensures (Refreshes(s.callers[t]) && Refreshes(s.callers[u])
             && s.callers[t].generation == s.callers[u].generation) ==> t == u
  {
    assert CallerInv(s, t) && CallerInv(s, u);
    var c, d := s.callers[t], s.callers[u];
    if Refreshes(c) && Refreshes(d) && c.generation == d.generation {
      SameGenerationSameIndex(s, c.genIndex, d.genIndex);
    }
  }

  /** A timestamp has been stored since this caller read its generation (or it has already
      returned because of that). */
  predicate Overtaken(s: State, c: Caller) {
    || ((c.pc.Waiting? || c.pc.Holding?) && c.generation != s.stamp)
    || ((c.pc.Copying? || c.pc.Done?) && c.outcome == Reused)
  }

  lemma StepKeepsOvertaken(s: State, t: Tid, a: Action, u: Tid)
    requires Inv(s) && Enabled(s, t, a) && u < |s.callers| && Overtaken(s, s.callers[u])
    ensures Overtaken(Apply(s, t, a), Apply(s, t, a).callers[u])
  {
    StepKeepsLogInv(s, t, a);
    assert CallerInv(s, u);
    var c := s.callers[u];
    if c.pc.Waiting? || c.pc.Holding? {
      GenerationsIncrease(s.log, c.genIndex, s.published);
      GenerationsIncrease(s.log, 0, c.genIndex);
    }
  }

  lemma {:induction false} OvertakenPersists(run: seq<State>, i: nat, j: nat, u: Tid)
    requires Execution(run) && i <= j < |run|
    requires u < |run[i].callers| && Overtaken(run[i], run[i].callers[u])
    ensures u < |run[j].callers| && Overtaken(run[j], run[j].callers[u])
  {
    if i < j {
      OvertakenPersists(run, i, j - 1, u);
      OvertakenAt(run, j, u);
    }
  }

  lemma OvertakenAt(run: seq<State>, j: nat, u: Tid)
    requires Execution(run) && 0 < j < |run| && u < |run[j - 1].callers| && Overtaken(run[j - 1], run[j - 1].callers[u])
    ensures u < |run[j].callers| && Overtaken(run[j], run[j].callers[u])
  {
    ReachableInv(run, j - 1);
    var t, a := StepTaken(run, j);
    StepKeepsOvertaken(run[j - 1], t, a, u);
  }

  /** A caller overtaken at step i never runs its own refresh at any later step. */
  lemma OvertakenNeverRefreshes(run: seq<State>, i: nat, j: nat, u: Tid)
    requires Execution(run) && i <= j < |run|
    requires u < |run[i].callers| && Overtaken(run[i], run[i].callers[u])
    ensures u < |run[j].callers| && !Refreshes(run[j].callers[u])
    ensures run[j].callers[u].pc.Done? ==> run[j].callers[u].outcome == Reused
  {
    OvertakenPersists(run, i, j, u);
  }

  /** Storing a timestamp overtakes everyone else who has read a generation and is waiting. */
  lemma StoreOvertakesWaiting(run: seq<State>, s: State, t: Tid, u: Tid)
    requires Execution(run) && s in run && Enabled(s, t, StoreStamp)
    requires u < |s.callers| && s.callers[u].pc.Waiting?
    ensures Overtaken(Apply(s, t, StoreStamp), s.callers[u])
  {
    ExecutionKeepsInv(run);
    assert CallerInv(s, t) && CallerInv(s, u);
    assert s.log[s.published].generation == s.stamp;
    GenerationsIncrease(s.log, s.callers[u].genIndex, s.published);
  }

  /** Nothing the caller read could have spared it a refresh: it was forced, the cache was empty,
      or the generation it read had expired by its first clock reading. */
  predicate NeedsRefresh(s: State, c: Caller) {
    c.force || c.generation == 0.0 || c.now - c.generation >= s.ttl
  }

  /** A burst that reads one generation and needs a refresh causes exactly one: once the members
      have returned, one stored list replaced that generation and all but its owner reused. */
  lemma BurstRefreshesOnce(run: seq<State>, s: State, burst: set<Tid>, g: real) returns (i: nat)
    requires Execution(run) && s in run && burst != {}
    requires forall t <- burst :: t < |s.callers| && s.callers[t].pc.Done? && s.callers[t].outcome != FastHit
                                  && s.callers[t].generation == g && NeedsRefresh(s, s.callers[t])
    ensures i < |s.log| && s.log[i].generation == g
    ensures forall j :: 0 <= j < |s.log| && s.log[j].generation == g ==> j == i
    ensures forall t <- burst ::
      s.callers[t].outcome == (if t == s.log[i].owner then Refreshed else Reused)
  {
    ExecutionKeepsInv(run);
    var t0 :| t0 in burst;
    assert CallerInv(s, t0);
    i := s.callers[t0].genIndex;
    forall t | t in burst ensures s.callers[t].genIndex == i && i < |s.log| {
      assert CallerInv(s, t);
      SameGenerationSameIndex(s, s.callers[t].genIndex, i);
      BurstMemberOutcome(s, t);
    }
    assert s.log[i].generation == g;
    forall j | 0 <= j < |s.log| && s.log[j].generation == g ensures j == i {
      SameGenerationSameIndex(s, i, j);
    }
    forall t | t in burst ensures s.callers[t].outcome == (if t == s.log[i].owner then Refreshed else Reused) {
      BurstMemberOutcome(s, t);
      OwnerRefreshed(run, s, i);
    }
  }

  lemma SameGenerationSameIndex(s: State, i: nat, j: nat)
    requires LogInv(s) && i <= |s.log| && j <= |s.log| && Generation(s.log, i) == Generation(s.log, j)
    ensures i == j
  {
    if i < j {
      GenerationsIncrease(s.log, i, j);
    } else {
      GenerationsIncrease(s.log, j, i);
    }
  }

  lemma BurstMemberOutcome(s: State, t: Tid)
    requires Inv(s) && t < |s.callers| && s.callers[t].pc.Done? && s.callers[t].outcome != FastHit
    requires NeedsRefresh(s, s.callers[t])
    ensures var c := s.callers[t];
      c.genIndex < |s.log| && (c.outcome == Reused || (c.outcome == Refreshed && s.log[c.genIndex].owner == t))
  {
    assert CallerInv(s, t);
    var c := s.callers[t];
    if c.outcome == LockedHit {
      GenerationsIncrease(s.log, 0, c.genIndex);
      assert false;
    }
  }

  /** Whoever owns a stored list is a refresher whose entry it is. */
  predicate OwnersInv(s: State) {
    forall i {:trigger Owned(s, i)} :: 0 <= i < |s.log| ==> Owned(s, i)
  }

  predicate Owned(s: State, i: nat)
    requires i < |s.log|
  {
    var owner := s.log[i].owner;
    && owner < |s.callers| && Refreshes(s.callers[owner])
    && !s.callers[owner].pc.Fetching? && s.callers[owner].index == i
  }

  lemma {:induction false} RunKeepsOwners(run: seq<State>, k: nat)
    requires Execution(run) && k < |run|
    ensures OwnersInv(run[k])
  {
    if k > 0 {
      RunKeepsOwners(run, k - 1);
      OwnersAt(run, k);
    }
  }

  lemma OwnersAt(run: seq<State>, k: nat)
    requires Execution(run) && 0 < k < |run| && OwnersInv(run[k - 1])
    ensures OwnersInv(run[k])
  {
    ReachableInv(run, k - 1);
    var t, a := StepTaken(run, k);
    StepKeepsOwners(run[k - 1], t, a);
  }

  lemma StepKeepsOwners(s: State, t: Tid, a: Action)
    requires Inv(s) && OwnersInv(s) && Enabled(s, t, a)
    ensures OwnersInv(Apply(s, t, a))
  {
    var s' := Apply(s, t, a);
    forall i | 0 <= i < |s'.log| ensures Owned(s', i) {
      if i < |s.log| {
        assert Owned(s, i);
        OwnerStays(s, t, a, i);
      } else {
        OwnerAppears(s, t, a);
      }
    }
  }

  lemma OwnerStays(s: State, t: Tid, a: Action, i: nat)
    requires Inv(s) && Enabled(s, t, a) && i < |s.log| && Owned(s, i)
    ensures i < |Apply(s, t, a).log| && Owned(Apply(s, t, a), i)
  {
    assert CallerInv(s, t);
    assert Apply(s, t, a).log[i] == s.log[i];
  }

  lemma OwnerAppears(s: State, t: Tid, a: Action)
    requires Enabled(s, t, a) && |Apply(s, t, a).log| > |s.log|
    ensures |Apply(s, t, a).log| == |s.log| + 1 && Owned(Apply(s, t, a), |s.log|)
  {
    assert a.StoreList?;
  }

  lemma OwnerRefreshed(run: seq<State>, s: State, i: nat)
    requires Execution(run) && s in run && i < |s.log|
    ensures s.log[i].owner < |s.callers| && Refreshes(s.callers[s.log[i].owner])
  {
    var k :| 0 <= k < |run| && run[k] == s;
    RunKeepsOwners(run, k);
    assert Owned(s, i);
  }

  /** Every result is a stored list, and a cache hit's list was fetched from less than the TTL
      before the clock reading of the hit. */
  lemma HitsAreFresh(run: seq<State>, s: State, t: Tid)
    requires Execution(run) && s in run && t < |s.callers| && s.callers[t].pc.Done?
    ensures var c := s.callers[t];
      && c.index < |s.log| && c.result == s.log[c.index].items && c.result != []
      && (c.outcome == FastHit ==> !c.force && c.now - s.log[c.index].started < s.ttl)
      && (c.outcome == LockedHit ==> !c.force && c.lockedNow - s.log[c.index].started < s.ttl)
      && (c.force ==> c.outcome == Reused || c.outcome == Refreshed)
  {
    ExecutionKeepsInv(run);
    assert CallerInv(s, t);
    assert s.log[s.callers[t].index].items != [];
  }

  /** Every early return copies the list stored last. */
  lemma CopiesTheLatestList(run: seq<State>, s: State, t: Tid, a: Action)
    requires Execution(run) && s in run && Enabled(s, t, a) && (a.CopyFresh? || a.CopyReleased?)
    ensures s.log != [] && Apply(s, t, a).callers[t].result == s.log[|s.log| - 1].items
  {
    ExecutionKeepsInv(run);
    assert CallerInv(s, t);
  }

  /** No deadlock: whenever some call is under way, some caller can take its next step. */
  lemma SomebodyCanMove(run: seq<State>, s: State, t: Tid)
    requires Execution(run) && s in run && t < |s.callers| && !s.callers[t].pc.Idle? && !s.callers[t].pc.Done?
    ensures exists u: Tid, a: Action :: Enabled(s, u, a) && !a.Begin?
  {
    ExecutionKeepsInv(run);
    assert CallerInv(s, t);
    var u := if s.callers[t].pc.Waiting? && s.locked then s.holder else t;
    assert CallerInv(s, u);
    var a := NextAction(s, u);
    assert Enabled(s, u, a);
  }

  /** The step a caller is at, with some clock reading and some fetched list. */
  function NextAction(s: State, t: Tid): Action
    requires t < |s.callers|
  {
    match s.callers[t].pc
    case Idle => Begin(false, s.clock + 1.0)
    case Called => CheckList
    case SawList => CheckStamp
    case Fresh => CopyFresh
    case Missed => ReadGeneration
    case Waiting => Acquire
    case Holding => Recheck(s.clock + 1.0)
    case Fetching => StoreList([map[]])
    case ListStored => StoreStamp
    case StampStored => Finish
    case Copying | Done => CopyReleased
  }

  // The cache is used -------------------------------------------------------------------------

  /** An unforced call that found the cache fresh when it began, on its way to a hit. */
  predicate OnHitPath(s: State, c: Caller) {
    && !c.force && s.cached != []
    && match c.pc
       case Called | SawList => c.now - s.stamp < s.ttl
       case Fresh => true
       case Done => c.outcome == FastHit
       case _ => false
  }

  lemma StepKeepsHitPath(s: State, t: Tid, a: Action, u: Tid)
    requires Inv(s) && Enabled(s, t, a) && u < |s.callers| && OnHitPath(s, s.callers[u])
    ensures OnHitPath(Apply(s, t, a), Apply(s, t, a).callers[u])
  {
    StepKeepsLogInv(s, t, a);
    CallersAfter(s, t, a);
  }

  /** Step i of the run is the beginning of an unforced call at a time when the cache is fresh. */
  ghost predicate BeginsFresh(run: seq<State>, i: nat, u: Tid, time: real) {
    && 0 < i < |run| && Enabled(run[i - 1], u, Begin(false, time)) && run[i] == Apply(run[i - 1], u, Begin(false, time))
    && run[i - 1].cached != [] && time - run[i - 1].stamp < run[i - 1].ttl
  }

  /** A fresh cache is used: in every interleaving such a call never waits for the lock and never
      refreshes, and if it has returned, it returned a fast hit. */
  lemma {:induction false} FreshCacheIsHit(run: seq<State>, i: nat, j: nat, u: Tid, time: real)
    requires Execution(run) && BeginsFresh(run, i, u, time) && i <= j < |run|
    ensures u < |run[j].callers| && OnHitPath(run[j], run[j].callers[u])
    ensures run[j].callers[u].pc.Done? ==> run[j].callers[u].outcome == FastHit
    ensures !Refreshes(run[j].callers[u]) && !run[j].callers[u].pc.Waiting?
  {
    if i < j {
      FreshCacheIsHit(run, i, j - 1, u, time);
      HitPathAt(run, j, u);
    } else {
      BeginsOnHitPath(run, i, u, time);
    }
  }

  lemma BeginsOnHitPath(run: seq<State>, i: nat, u: Tid, time: real)
    requires BeginsFresh(run, i, u, time)
    ensures u < |run[i].callers| && OnHitPath(run[i], run[i].callers[u])
  {
  }

  lemma HitPathAt(run: seq<State>, j: nat, u: Tid)
    requires Execution(run) && 0 < j < |run| && u < |run[j - 1].callers| && OnHitPath(run[j - 1], run[j - 1].callers[u])
    ensures u < |run[j].callers| && OnHitPath(run[j], run[j].callers[u])
  {
    ReachableInv(run, j - 1);
    var t, a := StepTaken(run, j);
    StepKeepsHitPath(run[j - 1], t, a, u);
  }

  /** An unforced caller fetches only when the stamp is at least the TTL old. */
  predicate FetchDue(s: State, t: Tid)
    requires t < |s.callers|
  {
    var c := s.callers[t];
    c.pc.Fetching? && !c.force && s.log != [] ==> c.lockedNow - s.stamp >= s.ttl
  }

  /** The list at i was fetched by a forced call or at least the TTL after the one before. */
  predicate ListDue(s: State, i: nat)
    requires 0 < i < |s.log|
  {
    && s.log[i].owner < |s.callers|
    && (!s.callers[s.log[i].owner].force ==> s.log[i].started - s.log[i - 1].started >= s.ttl)
  }

  predicate DueInv(s: State) {
    && (forall t {:trigger FetchDue(s, t)} :: 0 <= t < |s.callers| ==> FetchDue(s, t))
    && (forall i {:trigger ListDue(s, i)} :: 0 < i < |s.log| ==> ListDue(s, i))
  }

  lemma StepKeepsFetchDue(s: State, t: Tid, a: Action, u: Tid)
    requires Inv(s) && Enabled(s, t, a) && u < |s.callers| && FetchDue(s, u)
    ensures FetchDue(Apply(s, t, a), u)
  {
    assert CallerInv(s, t) && CallerInv(s, u);
    CallersAfter(s, t, a);
  }

  lemma StepKeepsListDue(s: State, t: Tid, a: Action, i: nat)
    requires Inv(s) && OwnersInv(s) && Enabled(s, t, a) && 0 < i < |s.log| && ListDue(s, i)
    ensures i < |Apply(s, t, a).log| && ListDue(Apply(s, t, a), i)
  {
    assert Owned(s, i);
    CallersAfter(s, t, a);
    assert Apply(s, t, a).log[i] == s.log[i] && Apply(s, t, a).log[i - 1] == s.log[i - 1];
  }

  lemma StoredListDue(s: State, t: Tid, a: Action)
    requires Inv(s) && Enabled(s, t, a) && FetchDue(s, t) && a.StoreList? && s.log != []
    ensures |Apply(s, t, a).log| == |s.log| + 1 && ListDue(Apply(s, t, a), |s.log|)
  {
    assert CallerInv(s, t);
    CallersAfter(s, t, a);
    assert s.stamp == Generation(s.log, |s.log|);
  }

  lemma StepKeepsFetchesDue(s: State, t: Tid, a: Action)
    requires Inv(s) && DueInv(s) && Enabled(s, t, a)
    ensures var s' := Apply(s, t, a); forall u :: 0 <= u < |s'.callers| ==> FetchDue(s', u)
  {
    CallersAfter(s, t, a);
    forall u | 0 <= u < |s.callers| ensures FetchDue(Apply(s, t, a), u) {
      assert FetchDue(s, u);
      StepKeepsFetchDue(s, t, a, u);
    }
  }

  lemma StepKeepsListsDue(s: State, t: Tid, a: Action)
    requires Inv(s) && OwnersInv(s) && DueInv(s) && Enabled(s, t, a)
    ensures var s' := Apply(s, t, a); forall i :: 0 < i < |s'.log| ==> ListDue(s', i)
  {
    var s' := Apply(s, t, a);
    forall i | 0 < i < |s'.log| ensures ListDue(s', i) {
      StepKeepsListsDueAt(s, t, a, i);
    }
  }

  lemma StepKeepsListsDueAt(s: State, t: Tid, a: Action, i: nat)
    requires Inv(s) && OwnersInv(s) && DueInv(s) && Enabled(s, t, a) && 0 < i < |Apply(s, t, a).log|
    ensures ListDue(Apply(s, t, a), i)
  {
    if i < |s.log| {
      assert ListDue(s, i);
      StepKeepsListDue(s, t, a, i);
    } else {
      assert a.StoreList? && FetchDue(s, t);
      StoredListDue(s, t, a);
    }
  }

  lemma StepKeepsDue(s: State, t: Tid, a: Action)
    requires Inv(s) && OwnersInv(s) && DueInv(s) && Enabled(s, t, a)
    ensures DueInv(Apply(s, t, a))
  {
    StepKeepsFetchesDue(s, t, a);
    StepKeepsListsDue(s, t, a);
  }

  lemma {:induction false} RunKeepsDue(run: seq<State>, k: nat)
    requires Execution(run) && k < |run|
    ensures DueInv(run[k])
  {
    if k > 0 {
      RunKeepsDue(run, k - 1);
      DueAt(run, k);
    }
  }

  lemma DueAt(run: seq<State>, k: nat)
    requires Execution(run) && 0 < k < |run| && DueInv(run[k - 1])
    ensures DueInv(run[k])
  {
    ReachableInv(run, k - 1);
    RunKeepsOwners(run, k - 1);
    var t, a := StepTaken(run, k);
    StepKeepsDue(run[k - 1], t, a);
  }

  /** No needless refresh, in any interleaving: a list fetched by an unforced call started at least
      the TTL after the list it replaced. */
  lemma RefreshesAreDue(run: seq<State>, s: State, i: nat)
    requires Execution(run) && s in run && 0 < i < |s.log|
    ensures s.log[i].owner < |s.callers|
    ensures !s.callers[s.log[i].owner].force ==> s.log[i].started - s.log[i - 1].started >= s.ttl
  {
    var k :| 0 <= k < |run| && run[k] == s;
    RunKeepsDue(run, k);
    assert ListDue(s, i);
  }

  // Progress --------------------------------------------------------------------------------

  /** An upper bound on the steps a caller has left. */
  function StepsLeft(pc: Pc): nat {
    match pc
    case Idle => 9 case Called => 8 case SawList => 7 case Missed => 6 case Waiting => 5 case Holding => 4
    case Fetching => 3 case ListStored => 2 case StampStored => 1 case Fresh => 1 case Copying => 1 case Done => 0
  }

  function Work(callers: seq<Caller>): nat {
    if callers == [] then 0 else Work(callers[..|callers| - 1]) + StepsLeft(callers[|callers| - 1].pc)
  }

  lemma {:induction false} WorkUpdate(callers: seq<Caller>, t: nat, c: Caller)
    requires t < |callers|
    ensures Work(callers[t := c]) + StepsLeft(callers[t].pc) == Work(callers) + StepsLeft(c.pc)
  {
    var last := |callers| - 1;
    var updated := callers[t := c];
    if t < last {
      WorkUpdate(callers[..last], t, c);
      assert updated[..last] == callers[..last][t := c];
    } else {
      assert updated[..last] == callers[..last];
    }
  }

  lemma MoveLowers(s: State, t: Tid, a: Action)
    requires Enabled(s, t, a)
    ensures StepsLeft(Move(s, t, a).1.pc) < StepsLeft(s.callers[t].pc)
  {
  }

  lemma StepLowersWork(s: State, s': State)
    requires Next(s, s')
    ensures Work(s'.callers) < Work(s.callers) && |s'.callers| == |s.callers|
  {
    var t: Tid, a: Action :| Enabled(s, t, a) && s' == Apply(s, t, a);
    MoveLowers(s, t, a);
    CallersAfter(s, t, a);
    WorkUpdate(s.callers, t, Move(s, t, a).1);
  }

  lemma CallersAfter(s: State, t: Tid, a: Action)
    requires Enabled(s, t, a)
    ensures Apply(s, t, a).callers == s.callers[t := Move(s, t, a).1]
  {
  }

  lemma {:induction false} WorkBound(callers: seq<Caller>)
    ensures Work(callers) <= 9 * |callers|
  {
    if callers != [] {
      WorkBound(callers[..|callers| - 1]);
    }
  }

  /** No livelock either: every step, whoever takes it, uses up work, so a run of n calls has at
      most 9n steps. */
  lemma {:induction false} RunsAreFinite(run: seq<State>, i: nat)
    requires Run(run) && i < |run|
    ensures i + Work(run[i].callers) <= Work(run[0].callers) <= 9 * |run[0].callers|
  {
    WorkBound(run[0].callers);
    if i > 0 {
      RunsAreFinite(run, i - 1);
      assert StepAt(run, i);
      StepLowersWork(run[i - 1], run[i]);
    }
  }

  /** Every call that was begun completes: a run that nobody can continue, and by RunsAreFinite
      every run gets there, has returned from all of them. */
  lemma CallsComplete(run: seq<State>, s: State, t: Tid)
    requires Execution(run) && s in run && t < |s.callers|
    requires forall u: Tid, a: Action :: Enabled(s, u, a) ==> a.Begin?
    ensures s.callers[t].pc.Idle? || s.callers[t].pc.Done?
  {
    if !s.callers[t].pc.Idle? && !s.callers[t].pc.Done? {
      SomebodyCanMove(run, s, t);
    }
  }

  // Forced refreshes ------------------------------------------------------------------------

  /** Caller f begins a forced call in run[0] and the run ends with its return. */
  ghost predicate ForcedCall(run: seq<State>, f: Tid) {
    && Run(run) && |run| > 1
    && (exists time: real :: Enabled(run[0], f, Begin(true, time)) && run[1] == Apply(run[0], f, Begin(true, time)))
    && var s := run[|run| - 1]; f < |s.callers| && s.callers[f].pc.Done?
  }

  /** The call returned a list that had been stored before the call began. */
  predicate ReturnedStale(before: State, after: State, f: Tid) {
    f < |after.callers| && after.callers[f].index < |before.log|
  }

  lemma NextFixesHistory(s: State, s': State, f: Tid)
    requires Next(s, s') && f < |s.callers| && !s.callers[f].pc.Idle?
    ensures f < |s'.callers| && !s'.callers[f].pc.Idle?
    ensures s'.callers[f].began == s.callers[f].began && s'.callers[f].beganMid == s.callers[f].beganMid
    ensures s'.callers[f].force == s.callers[f].force
  {
    var t: Tid, a: Action :| Enabled(s, t, a) && s' == Apply(s, t, a);
    CallersAfter(s, t, a);
    if t == f {
      MoveFixesHistory(s, t, a);
    }
  }

  lemma MoveFixesHistory(s: State, t: Tid, a: Action)
    requires Enabled(s, t, a) && !s.callers[t].pc.Idle?
    ensures var c, c' := s.callers[t], Move(s, t, a).1;
      !c'.pc.Idle? && c'.began == c.began && c'.beganMid == c.beganMid && c'.force == c.force
  {
  }

  lemma {:induction false} HistoryIsFixed(run: seq<State>, f: Tid, k: nat)
    requires Run(run) && 1 <= k < |run| && f < |run[1].callers| && !run[1].callers[f].pc.Idle?
    ensures f < |run[k].callers| && !run[k].callers[f].pc.Idle?
    ensures run[k].callers[f].began == run[1].callers[f].began
    ensures run[k].callers[f].beganMid == run[1].callers[f].beganMid
    ensures run[k].callers[f].force == run[1].callers[f].force
  {
    if k > 1 {
      HistoryIsFixed(run, f, k - 1);
      assert StepAt(run, k);
      NextFixesHistory(run[k - 1], run[k], f);
    }
  }

  /** A forced call that does not begin between another caller's two stores never returns a list
      stored before it began. */
  lemma ForcedCallIsFresh(run: seq<State>, f: Tid)
    requires ForcedCall(run, f) && Inv(run[0]) && !MidPublish(run[0])
    ensures !ReturnedStale(run[0], run[|run| - 1], f)
  {
    var last := |run| - 1;
    RunKeepsInv(run, last);
    HistoryIsFixed(run, f, last);
    assert CallerInv(run[last], f);
  }

  /** f begins a forced call and reads the generation; nobody else moves. */
  lemma ReadsOldGeneration(s: State, f: Tid) returns (s1: State, s2: State, s3: State)
    requires f < |s.callers| && s.callers[f].pc.Idle?
    ensures Enabled(s, f, Begin(true, s.clock + 1.0)) && s1 == Apply(s, f, Begin(true, s.clock + 1.0))
    ensures Next(s, s1) && Next(s1, s2) && Next(s2, s3)
    ensures s3 == s.(clock := s.clock + 1.0, callers := s.callers[f := s3.callers[f]])
    ensures s3.callers[f].pc.Waiting? && s3.callers[f].generation == s.stamp
  {
    s1 := Apply(s, f, Begin(true, s.clock + 1.0));
    s2 := Apply(s1, f, CheckList);
    s3 := Apply(s2, f, ReadGeneration);
  }

  /** The holder h stores its timestamp and releases the lock. */
  lemma FinishesPublishing(s: State, h: Tid) returns (s4: State, s5: State)
    requires h < |s.callers| && s.callers[h].pc.ListStored? && s.callers[h].index < |s.log|
    ensures Next(s, s4) && Next(s4, s5) && !s5.locked && s5.stamp == s.callers[h].lockedNow
    ensures s5.log == s.log && s5.cached == s.cached && s5.callers == s.callers[h := s5.callers[h]]
  {
    s4 := Apply(s, h, StoreStamp);
    s5 := Apply(s4, h, Finish);
  }

  /** f acquires the lock, finds the timestamp changed and returns the latest list. */
  lemma ReusesLateStamp(s: State, f: Tid) returns (s6: State, s7: State, s8: State)
    requires f < |s.callers| && s.callers[f].pc.Waiting? && !s.locked
    requires s.cached != [] && s.callers[f].generation != s.stamp && s.log != []
    ensures Next(s, s6) && Next(s6, s7) && Next(s7, s8)
    ensures f < |s8.callers| && s8.callers[f].pc.Done? && s8.callers[f].index == |s.log| - 1
  {
    s6 := Apply(s, f, Acquire);
    s7 := Apply(s6, f, Recheck(s6.clock + 1.0));
    s8 := Apply(s7, f, CopyReleased);
  }

  lemma StaleRun(s: State, h: Tid, f: Tid) returns (run: seq<State>)
    requires h != f && h < |s.callers| && f < |s.callers| && s.callers[f].pc.Idle?
    requires s.callers[h].pc.ListStored? && s.callers[h].index < |s.log| && s.cached != []
    requires s.stamp != s.callers[h].lockedNow
    ensures ForcedCall(run, f) && run[0] == s && ReturnedStale(s, run[|run| - 1], f)
  {
    var s1, s2, s3 := ReadsOldGeneration(s, f);
    var s4, s5 := FinishesPublishing(s3, h);
    var s6, s7, s8 := ReusesLateStamp(s5, f);
    run := [s, s1, s2, s3, s4, s5, s6, s7, s8];
  }

  /** One that does can: the other caller stores its timestamp after f has read the old one. */
  lemma ForcedCallCanBeStale(s: State, f: Tid) returns (run: seq<State>)
    requires Inv(s) && f < |s.callers| && s.callers[f].pc.Idle? && MidPublish(s)
    ensures ForcedCall(run, f) && run[0] == s && ReturnedStale(s, run[|run| - 1], f)
  {
    assert CallerInv(s, s.holder);
    assert s.log[s.published].generation == s.stamp;
    run := StaleRun(s, s.holder, f);
  }

  /** The exact condition, checkable before the call: a forced call can return a list stored
      before it began if and only if it begins while some list is stored but not its timestamp. */
  lemma ForcedCallStaleIff(s: State, f: Tid)
    requires Inv(s) && f < |s.callers| && s.callers[f].pc.Idle?
    ensures MidPublish(s) <==>
      exists run: seq<State> :: ForcedCall(run, f) && run[0] == s && ReturnedStale(s, run[|run| - 1], f)
    ensures MidPublish(s) <==> exists t: Tid :: t < |s.callers| && s.callers[t].pc.ListStored?
  {
    if MidPublish(s) {
      var run := ForcedCallCanBeStale(s, f);
    }
    if run: seq<State> :| ForcedCall(run, f) && run[0] == s && ReturnedStale(s, run[|run| - 1], f) {
      if !MidPublish(s) {
        ForcedCallIsFresh(run, f);
      }
    }
    if t: Tid :| t < |s.callers| && s.callers[t].pc.ListStored? {
      assert CallerInv(s, t);
    }
  }

  /** Two callers with an empty cache. */
  function TwoCallers(): State {
    State(1.0, 0.0, [], 0.0, 0, false, 0, [Newcomer(), Newcomer()], [], 0)
  }

  lemma Continue(run: seq<State>, t: Tid, a: Action) returns (longer: seq<State>)
    requires Run(run) && Enabled(run[|run| - 1], t, a)
    ensures Run(longer) && longer[0] == run[0] && longer[|longer| - 1] == Apply(run[|run| - 1], t, a)
  {
    longer := run + [Apply(run[|run| - 1], t, a)];
    forall i: nat ensures StepAt(longer, i) {
      if 0 < i < |run| {
        assert StepAt(run, i);
      }
    }
  }

  /** Caller 0 refreshes up to its list store; caller 1 has not been called. */
  lemma ReachesMidPublish() returns (run: seq<State>)
    ensures Execution(run) && MidPublish(run[|run| - 1])
    ensures |run[|run| - 1].callers| == 2 && run[|run| - 1].callers[1].pc.Idle?
  {
    run := [TwoCallers()];
    run := Continue(run, 0, Begin(false, 1.0));
    run := Continue(run, 0, CheckList);
    run := Continue(run, 0, ReadGeneration);
    run := Continue(run, 0, Acquire);
    run := Continue(run, 0, Recheck(2.0));
    run := Continue(run, 0, StoreList([map[]]));
  }

  /** The failure does happen: an execution from the initial state, and a forced call that begins
      where it ends and returns a list stored before. */
  lemma ForcedCallGoesStale() returns (before: seq<State>, call: seq<State>)
    ensures Execution(before) && call != [] && call[0] == before[|before| - 1]
    ensures ForcedCall(call, 1) && ReturnedStale(call[0], call[|call| - 1], 1)
  {
    before := ReachesMidPublish();
    ExecutionKeepsInv(before);
    call := ForcedCallCanBeStale(before[|before| - 1], 1);
  }
}
