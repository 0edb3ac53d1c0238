/**
 * The TTL cache both collectors wrap around their scrape. Each `Collect`
 * runs under the collector's mutex, so one call is one atomic transition of
 * the state (cached samples, time of the last successful scrape).
 *
 * The cache is reset only once a store client exists: when the client
 * cannot be created the previous samples stay and a success=0 sample is
 * appended after them; after the reset, a failing store call leaves the
 * samples appended so far (the previous samples are gone). The last-scrape
 * time moves only when the whole scrape succeeds.
 */
module Cache {
  import opened Base
  import opened Metrics
  import opened Redis

  /** One second of Go's `time.Duration` (nanoseconds). */
  const Second: int := 1_000_000_000

  /** `cacheDuration`: 15 seconds. */
  const Ttl: int := 15 * Second

  /**
   * The collector's cache: the samples it serves, and the clock reading of
   * the last successful scrape (None for Go's zero time: never scraped).
   */
  datatype State = State(cached: seq<Sample>, last: Option<int>)

  /** A collector as constructed: nothing cached, never scraped. */
  const Initial := State([], None)

  /** `time.Since(lastScrapeTime) < cacheDuration`; the zero time is always stale. */
  predicate Hit(st: State, now: int)
  {
    st.last.Some? && now - st.last.value < Ttl
  }

  /**
   * What one call of `scrapeMetrics` did to the cache: either the client
   * could not be created (nothing was reset), or the cache was reset and
   * `out` appended, ending with `err` (None on full success). `released` is
   * the client after its deferred Close.
   */
  datatype Scrape =
    | NoClient(msg: string)
    | Ran(out: seq<Sample>, err: Option<string>, sent: seq<Command>, released: Client)

  /**
   * The running state of one sub-collection of a scrape: the client with the
   * handles opened so far, the samples appended, the error that stopped it
   * (None if it ran to the end) and the commands it sent.
   */
  datatype Pass = Pass(client: Client, out: seq<Sample>, err: Option<string>, sent: seq<Command>)

  predicate Succeeded(r: Scrape)
  {
    r.Ran? && r.err.None?
  }

  /**
   * Everything outside the collector that one `Collect` observes: the
   * configuration read by NewClient, the store, the float parser, the order
   * in which Go iterates each fetched hash, the clock reading taken when a
   * scrape finishes, and the measured scrape duration in seconds.
   */
  datatype World = World(
    env: Result<Config>,
    store: Store,
    parse: string -> Option<real>,
    order: (string, map<string, string>) -> seq<string>,
    finishedAt: int,
    elapsed: real)

  /** The state after a `Collect`, the samples it sent on the channel, and the store commands it issued. */
  datatype Emitted = Emitted(state: State, out: seq<Sample>, sent: seq<Command>)

  /** The `collector_success` gauge: 1 for a successful scrape, 0 otherwise. */
  function SuccessSample(d: Desc, ok: bool): (s: Sample)
    requires |d.labelNames| == 0
    ensures s.desc == d && s.labels == [] && WellFormed(s)
    ensures s.value == 1.0 <==> ok
    ensures s.value == 0.0 <==> !ok
  {
    ConstMetric(d, if ok then 1.0 else 0.0, [])
  }

  /** A cache hit: the cached samples, unchanged state, no store command. */
  function Serve(st: State): (e: Emitted)
    ensures e.state == st && e.out == st.cached && e.sent == []
  {
    Emitted(st, st.cached, [])
  }

  /**
   * A cache miss after the scrape ran (hw_collector.go:113-124 with
   * the assignments of scrapeMetrics): append collector_success to whatever
   * the cache holds now and send the whole cache.
   */
  function Settle(st: State, r: Scrape, success: Desc, finishedAt: int): (e: Emitted)
    requires |success.labelNames| == 0
    ensures e.out == e.state.cached
    ensures |e.out| > 0 && e.out[|e.out| - 1] == SuccessSample(success, Succeeded(r))
    ensures r.NoClient? ==> e.state == State(st.cached + [SuccessSample(success, false)], st.last)
    ensures r.NoClient? ==> e.sent == []
    ensures r.Ran? && r.err.Some? ==> e.state == State(r.out + [SuccessSample(success, false)], st.last)
    ensures Succeeded(r) ==> e.state == State(r.out + [SuccessSample(success, true)], Some(finishedAt))
    ensures r.Ran? ==> e.sent == r.sent
  {
    match r
    case NoClient(_) =>
      var cached := st.cached + [SuccessSample(success, false)];
      Emitted(State(cached, st.last), cached, [])
    case Ran(out, err, sent, _) =>
      var last := if err.None? then Some(finishedAt) else st.last;
      var cached := out + [SuccessSample(success, err.None?)];
      Emitted(State(cached, last), cached, sent)
  }

  /** A successful scrape ending in `last` caches its samples, then success=1, stamped with `finishedAt`. */
  lemma SettleSuccess(st: State, r: Scrape, success: Desc, finishedAt: int, body: seq<Sample>, last: Sample)
    requires |success.labelNames| == 0
    requires Succeeded(r) && r.out == body + [last]
    ensures Settle(st, r, success, finishedAt).state ==
      State(body + [last, SuccessSample(success, true)], Some(finishedAt))
  {
    assert r.out + [SuccessSample(success, true)] == body + [last, SuccessSample(success, true)];
  }

  /**
   * A failed scrape leaves the last-scrape time alone, so once a call missed
   * the cache and failed, every later call misses again and scrapes again.
   */
  lemma FailureRetries(st: State, now: int, r: Scrape, success: Desc, finishedAt: int, later: int)
    requires |success.labelNames| == 0
    requires !Hit(st, now) && !Succeeded(r) && now <= later
    ensures !Hit(Settle(st, r, success, finishedAt).state, later)
  {
  }

  /**
   * After a successful scrape finishing at `finishedAt`, a call is served
   * from the cache exactly when it comes less than the TTL later.
   */
  lemma SuccessIsFresh(st: State, r: Scrape, success: Desc, finishedAt: int, later: int)
    requires |success.labelNames| == 0
    requires Succeeded(r)
    ensures Hit(Settle(st, r, success, finishedAt).state, later) <==> later - finishedAt < Ttl
  {
  }

  /** Number of samples of `ss` reported under `d`. */
  function CountDesc(ss: seq<Sample>, d: Desc): (n: nat)
    ensures n <= |ss|
    ensures n == 0 <==> forall j :: 0 <= j < |ss| ==> ss[j].desc != d
  {
    if |ss| == 0 then 0
    else (if ss[0].desc == d then 1 else 0) + CountDesc(ss[1..], d)
  }

  lemma {:induction false} CountDescAppend(a: seq<Sample>, b: seq<Sample>, d: Desc)
    ensures CountDesc(a + b, d) == CountDesc(a, d) + CountDesc(b, d)
    decreases |a|
  {
    if |a| > 0 {
      assert (a + b)[0] == a[0];
      assert (a + b)[1..] == a[1..] + b;
      CountDescAppend(a[1..], b, d);
    } else {
      assert a + b == b;
    }
  }

  /**
   * As written, a client failure appends collector_success to a cache that
   * may already hold one: after a scrape that ran (whose own samples carry
   * no success gauge) and then a client failure, two collector_success
   * samples with the same (empty) label set are sent, which the Prometheus
   * registry rejects as a duplicate series.
   */
  lemma DuplicateSuccessAfterClientFailure(st: State, ran: Scrape, success: Desc, t1: int, msg: string, t2: int)
    requires |success.labelNames| == 0
    requires ran.Ran? && CountDesc(ran.out, success) == 0
    ensures var first := Settle(st, ran, success, t1);
      CountDesc(Settle(first.state, NoClient(msg), success, t2).out, success) == 2
  {
    var first := Settle(st, ran, success, t1);
    var s1 := SuccessSample(success, Succeeded(ran));
    var s0 := SuccessSample(success, false);
    assert first.state.cached == ran.out + [s1];
    CountDescAppend(ran.out, [s1], success);
    CountDescAppend(ran.out + [s1], [s0], success);
    assert CountDesc([s1], success) == 1 && CountDesc([s0], success) == 1;
  }

  /**
   * As written, two client failures in a row on a fresh collector send
   * success=0 twice: the second failure appends to the first one's cache.
   */
  lemma RepeatedClientFailure(success: Desc, m1: string, t1: int, m2: string, t2: int)
    requires |success.labelNames| == 0
    ensures var first := Settle(Initial, NoClient(m1), success, t1);
      var second := Settle(first.state, NoClient(m2), success, t2);
      second.out == [SuccessSample(success, false), SuccessSample(success, false)]
      && CountDesc(second.out, success) == 2
  {
  }

  /** The samples of `ss` not reported under `d`, in order. */
  function WithoutDesc(ss: seq<Sample>, d: Desc): (r: seq<Sample>)
    ensures CountDesc(r, d) == 0
    ensures |r| == |ss| - CountDesc(ss, d)
    ensures forall s {:trigger s in r} :: s in r <==> s in ss && s.desc != d
    ensures forall s: Sample {:trigger multiset(r)[s]} :: s.desc != d ==> multiset(r)[s] == multiset(ss)[s]
  {
    if |ss| == 0 then []
    else
      var head: seq<Sample> := if ss[0].desc == d then [] else [ss[0]];
      var rest := WithoutDesc(ss[1..], d);
      CountDescAppend(head, rest, d);
      assert ss == [ss[0]] + ss[1..];
      head + rest
  }

  /** Filtering one sample keeps it exactly when it is of another descriptor. */
  lemma WithoutDescSingle(s: Sample, d: Desc)
    ensures WithoutDesc([s], d) == (if s.desc == d then [] else [s])
  {
    assert [s][1..] == [];
  }

  /** One unfolding of the filter: its first sample's part, then the rest's. */
  lemma WithoutDescHead(a: seq<Sample>, d: Desc)
    requires |a| > 0
    ensures WithoutDesc(a, d) == WithoutDesc([a[0]], d) + WithoutDesc(a[1..], d)
  {
    WithoutDescSingle(a[0], d);
  }

  /** The filter of a concatenation, unfolded at the left part's first sample. */
  lemma WithoutDescCons(a: seq<Sample>, b: seq<Sample>, d: Desc)
    requires |a| > 0
    ensures WithoutDesc(a + b, d) == WithoutDesc([a[0]], d) + WithoutDesc(a[1..] + b, d)
  {
    ConsTail(a, b);
    WithoutDescHead(a + b, d);
  }

  /**
   * Filtering distributes over concatenation; with `WithoutDescSingle` this
   * fixes `WithoutDesc` as the order-preserving filter.
   */
  lemma {:induction false} WithoutDescAppend(a: seq<Sample>, b: seq<Sample>, d: Desc)
    ensures WithoutDesc(a + b, d) == WithoutDesc(a, d) + WithoutDesc(b, d)
    decreases |a|
  {
    if |a| == 0 {
      assert a + b == b;
    } else {
      var h, x, y := WithoutDesc([a[0]], d), WithoutDesc(a[1..], d), WithoutDesc(b, d);
      WithoutDescAppend(a[1..], b, d);
      WithoutDescCons(a, b, d);
      WithoutDescHead(a, d);
      ConcatAssoc(h, x, y);
    }
  }

  /**
   * Settle as evidently intended: on a client failure keep the previous
   * samples but replace their success gauge by the new one.
   */
  function SettleFixed(st: State, r: Scrape, success: Desc, finishedAt: int): (e: Emitted)
    requires |success.labelNames| == 0
    ensures e.out == e.state.cached
    ensures |e.out| > 0 && e.out[|e.out| - 1] == SuccessSample(success, Succeeded(r))
    ensures r.NoClient? ==> e.state.last == st.last && e.sent == []
    ensures r.NoClient? ==> e.out == WithoutDesc(st.cached, success) + [SuccessSample(success, false)]
    ensures r.NoClient? ==> forall s :: s in e.out[..|e.out| - 1] <==> s in st.cached && s.desc != success
    ensures r.Ran? ==> e == Settle(st, r, success, finishedAt)
  {
    match r
    case NoClient(_) =>
      var cached := WithoutDesc(st.cached, success) + [SuccessSample(success, false)];
      assert cached[..|cached| - 1] == WithoutDesc(st.cached, success);
      Emitted(State(cached, st.last), cached, [])
    case Ran(_, _, _, _) => Settle(st, r, success, finishedAt)
  }

  /**
   * With the fix, a cache whose scrapes never emit the success gauge
   * themselves always sends exactly one collector_success sample.
   */
  lemma SettleFixedSingleSuccess(st: State, r: Scrape, success: Desc, finishedAt: int)
    requires |success.labelNames| == 0
    requires r.Ran? ==> CountDesc(r.out, success) == 0
    ensures CountDesc(SettleFixed(st, r, success, finishedAt).out, success) == 1
  {
    var e := SettleFixed(st, r, success, finishedAt);
    var last := SuccessSample(success, Succeeded(r));
    assert e.out == e.out[..|e.out| - 1] + [last];
    CountDescAppend(e.out[..|e.out| - 1], [last], success);
    assert CountDesc([last], success) == 1;
    if r.NoClient? {
      assert e.out[..|e.out| - 1] == WithoutDesc(st.cached, success);
    } else {
      assert e.out[..|e.out| - 1] == r.out;
    }
  }
}
