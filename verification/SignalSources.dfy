/** The source-collection loop of SignalEngine.get (core/signals.py), run under the refresh lock. */
module SignalSources {
  import opened Wrappers
  import SignalCache

  type Signal = SignalCache.Signal

  /** What one source does within its timeout. */
  datatype Fetch = Fetched(signals: seq<Signal>) | Raised(message: string) | TimedOut

  datatype Source = Source(name: string, fetch: Fetch)

  /** str(source.get("name") or "unknown") */
  function DisplayName(s: Source): string {
    if s.name == "" then "unknown" else s.name
  }

  /** signal.setdefault("source", name) */
  function Attribute(signal: Signal, name: string): Signal {
    if "source" in signal then signal else signal["source" := name]
  }

  /** The signals and the error text fetch_source hands back. */
  function FetchSource(s: Source): (seq<Signal>, string) {
    match s.fetch
    case Fetched(signals) =>
      (seq(|signals|, i requires 0 <= i < |signals| => Attribute(signals[i], DisplayName(s))), "")
    case Raised(message) => ([], message)
    case TimedOut => ([], "source timeout")
  }

  /** The collector tests the error text for truth, so an exception without a message passes. */
  predicate Failed(s: Source) {
    FetchSource(s).1 != ""
  }

  function Gathered(sources: seq<Source>): seq<Signal> {
    if sources == [] then []
    else
      var last := sources[|sources| - 1];
      Gathered(sources[..|sources| - 1]) + if Failed(last) then [] else FetchSource(last).0
  }

  function Count(counts: map<string, nat>, name: string): nat {
    if name in counts then counts[name] else 0
  }

  /** How many of the sources called name failed, or did not. */
  function Tally(sources: seq<Source>, name: string, failed: bool): nat {
    if sources == [] then 0
    else
      var last := sources[|sources| - 1];
      Tally(sources[..|sources| - 1], name, failed)
      + if DisplayName(last) == name && Failed(last) == failed then 1 else 0
  }

  function Named(sources: seq<Source>, name: string): nat {
    if sources == [] then 0
    else Named(sources[..|sources| - 1], name) + if DisplayName(sources[|sources| - 1]) == name then 1 else 0
  }

  /** Every name's count has grown by its tally. */
  ghost predicate Tallied(before: map<string, nat>, now: map<string, nat>, sources: seq<Source>, failed: bool) {
    forall name :: Count(now, name) == Count(before, name) + Tally(sources, name, failed)
  }

  lemma TallyNext(sources: seq<Source>, i: nat, name: string, failed: bool)
    requires i < |sources|
    ensures Tally(sources[..i + 1], name, failed) == Tally(sources[..i], name, failed)
      + if DisplayName(sources[i]) == name && Failed(sources[i]) == failed then 1 else 0
  {
    assert sources[..i + 1][..i] == sources[..i];
  }

  lemma TalliedNext(before: map<string, nat>, now: map<string, nat>, sources: seq<Source>, i: nat, failed: bool)
    requires i < |sources| && Tallied(before, now, sources[..i], failed)
    ensures var name := DisplayName(sources[i]);
      var next := if Failed(sources[i]) == failed then now[name := Count(now, name) + 1] else now;
      Tallied(before, next, sources[..i + 1], failed)
  {
    forall name {
      TallyNext(sources, i, name, failed);
    }
  }

  lemma GatheredNext(sources: seq<Source>, i: nat)
    requires i < |sources|
    ensures Gathered(sources[..i + 1]) ==
      Gathered(sources[..i]) + if Failed(sources[i]) then [] else FetchSource(sources[i]).0
  {
    assert sources[..i + 1][..i] == sources[..i];
  }

  class SourceLedger {
    var failures: map<string, nat>
    var successes: map<string, nat>

    constructor ()
      ensures failures == map[] && successes == map[]
    {
      failures, successes := map[], map[];
    }

    /** Every source is counted once, under its name, and the successful ones' signals are kept in
        registration order. */
    method Collect(sources: seq<Source>) returns (all: seq<Signal>)
      modifies this
      ensures all == Gathered(sources)
      ensures Tallied(old(failures), failures, sources, true)
      ensures Tallied(old(successes), successes, sources, false)
    {
      all := [];
      for i := 0 to |sources|
        invariant all == Gathered(sources[..i])
        invariant Tallied(old(failures), failures, sources[..i], true)
        invariant Tallied(old(successes), successes, sources[..i], false)
      {
        var name := DisplayName(sources[i]);
        var (signals, error) := FetchSource(sources[i]);
        GatheredNext(sources, i);
        TalliedNext(old(failures), failures, sources, i, true);
        TalliedNext(old(successes), successes, sources, i, false);
        if error != "" {
          failures := failures[name := Count(failures, name) + 1];
          continue;
        }
        successes := successes[name := Count(successes, name) + 1];
        all := all + signals;
      }
      assert sources[..|sources|] == sources;
    }

    /** The list a refresh stores: the mock signals stand in when nothing was gathered. */
    method Refresh(sources: seq<Source>, mock: seq<Signal>) returns (signals: seq<Signal>)
      requires mock != []
      modifies this
      ensures signals != []
      ensures signals == if Gathered(sources) == [] then mock else Gathered(sources)
      ensures Tallied(old(failures), failures, sources, true)
      ensures Tallied(old(successes), successes, sources, false)
    {
      if sources == [] {
        return mock;
      }
      var all := Collect(sources);
      signals := if all != [] then all else mock;
    }
  }

  /** Conservation: a collection counts each source exactly once, as a failure or a success. */
  lemma {:induction false} EverySourceCountedOnce(sources: seq<Source>, name: string)
    ensures Tally(sources, name, true) + Tally(sources, name, false) == Named(sources, name)
  {
    if sources != [] {
      EverySourceCountedOnce(sources[..|sources| - 1], name);
    }
  }

  /** Signals come only from sources that returned, and every one is attributed. */
  lemma {:induction false} GatheredAttributed(sources: seq<Source>, signal: Signal)
    requires signal in Gathered(sources)
    ensures "source" in signal
    ensures exists s, raw ::
      s in sources && s.fetch.Fetched? && raw in s.fetch.signals && signal == Attribute(raw, DisplayName(s))
  {
    var last := sources[|sources| - 1];
    if signal in Gathered(sources[..|sources| - 1]) {
      GatheredAttributed(sources[..|sources| - 1], signal);
    } else {
      var i :| 0 <= i < |FetchSource(last).0| && FetchSource(last).0[i] == signal;
      var raw := last.fetch.signals[i];
      assert last in sources && raw in last.fetch.signals && signal == Attribute(raw, DisplayName(last));
    }
  }

  // What a source amounts to, without reference to the collector -------------------------------

  /** A signal keeps its own source and is otherwise only given one. */
  lemma AttributeOnlyAdds(signal: Signal, name: string)
    ensures "source" in signal ==> Attribute(signal, name) == signal
    ensures "source" !in signal ==> Attribute(signal, name)["source"] == name
    ensures "source" in Attribute(signal, name) && Attribute(signal, name).Keys == signal.Keys + {"source"}
    ensures forall key :: key in signal ==> Attribute(signal, name)[key] == signal[key]
  {
  }

  /** A source fails if it is late or raises with a message; a nameless one is called unknown. */
  lemma FailedIff(s: Source)
    ensures Failed(s) <==> s.fetch.TimedOut? || (s.fetch.Raised? && s.fetch.message != "")
    ensures s.name == "" ==> DisplayName(s) == "unknown"
    ensures s.name != "" ==> DisplayName(s) == s.name
  {
  }

  /** Where the signals of the first i sources end. */
  function Offset(sources: seq<Source>, i: nat): nat
    requires i <= |sources|
  {
    if i == 0 then 0
    else Offset(sources, i - 1) + if sources[i - 1].fetch.Fetched? then |sources[i - 1].fetch.signals| else 0
  }

  /** Nothing is lost or reordered: every signal of every source that returned is gathered, attributed
      to it, at its place after all signals of the sources registered before. */
  lemma {:induction false} GatheredInOrder(sources: seq<Source>, i: nat, j: nat)
    requires i < |sources| && sources[i].fetch.Fetched? && j < |sources[i].fetch.signals|
    ensures |Gathered(sources)| == Offset(sources, |sources|) && Offset(sources, i) + j < |Gathered(sources)|
    ensures Gathered(sources)[Offset(sources, i) + j] == Attribute(sources[i].fetch.signals[j], DisplayName(sources[i]))
  {
    var last := |sources| - 1;
    GatheredLength(sources[..last]);
    OffsetPrefix(sources, last, last);
    OffsetPrefix(sources, last, i);
    if i < last {
      GatheredInOrder(sources[..last], i, j);
    }
  }

  lemma {:induction false} GatheredLength(sources: seq<Source>)
    ensures |Gathered(sources)| == Offset(sources, |sources|)
  {
    if sources != [] {
      GatheredLength(sources[..|sources| - 1]);
      OffsetPrefix(sources, |sources| - 1, |sources| - 1);
    }
  }

  lemma {:induction false} OffsetPrefix(sources: seq<Source>, n: nat, i: nat)
    requires i <= n <= |sources|
    ensures Offset(sources[..n], i) == Offset(sources, i)
  {
    if i > 0 {
      OffsetPrefix(sources, n, i - 1);
    }
  }

  /** A name that was never counted stands at zero. */
  lemma CountExactly(counts: map<string, nat>, name: string)
    ensures name in counts ==> Count(counts, name) == counts[name]
    ensures name !in counts ==> Count(counts, name) == 0
  {
  }
}
