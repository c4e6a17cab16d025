/** The fixed-window rate limiter of both backends, over timed runs. */
module RateLimits {
  import opened Options

  type Key = string

  /** Go starts a new window strictly after the end of the old one, Python from its end on. */
  datatype Boundary = GoAfter | PythonFrom

  datatype Config = Config(max: int, window: real, boundary: Boundary)

  datatype Window = Window(count: int, end: real)

  type Entries = map<Key, Window>

  predicate Expired(cfg: Config, w: Window, now: real) {
    match cfg.boundary
    case GoAfter => now > w.end
    case PythonFrom => now >= w.end
  }

  predicate Open(cfg: Config, e: Entries, key: Key, now: real) {
    key in e && !Expired(cfg, e[key], now)
  }

  datatype Request = Request(key: Key, now: real)

  /** The entry a request leaves for its key. */
  function Entered(cfg: Config, e: Entries, r: Request): Window {
    if Open(cfg, e, r.key, r.now) then e[r.key].(count := e[r.key].count + 1)
    else Window(1, r.now + cfg.window)
  }

  function Admit(cfg: Config, e: Entries, r: Request): Entries {
    e[r.key := Entered(cfg, e, r)]
  }

  /** The first request of a window passes whatever the maximum is. */
  predicate Allowed(cfg: Config, e: Entries, r: Request) {
    Open(cfg, e, r.key, r.now) ==> e[r.key].count + 1 <= cfg.max
  }

  function Evicted(cfg: Config, e: Entries, now: real): Entries {
    map k | k in e && !Expired(cfg, e[k], now) :: e[k]
  }

  function NonNegative(n: int): nat {
    if n < 0 then 0 else n
  }

  // ---------- what a response tells the client ----------

  /** Requests that would still pass, the end of the window in whole seconds, and on
      a refusal how many seconds to wait. */
  datatype Headers = Headers(remaining: nat, reset: int, retryAfter: Option<int>)

  function Seconds(t: real): int {
    t.Floor
  }

  /** Go rounds the time left towards zero and adds a second. Python subtracts the
      whole seconds of both clocks, and asks for one second at least. */
  function RetryAfter(cfg: Config, end: real, now: real): int {
    match cfg.boundary
    case GoAfter => (if end >= now then (end - now).Floor else -((now - end).Floor)) + 1
    case PythonFrom => if Seconds(end) - Seconds(now) < 1 then 1 else Seconds(end) - Seconds(now)
  }

  function Reported(cfg: Config, w: Window, allowed: bool, later: real): Headers {
    Headers(NonNegative(cfg.max - w.count), Seconds(w.end),
            if allowed then None else Some(RetryAfter(cfg, w.end, later)))
  }

  /** Waiting as told always reaches the next window in Go. In Python it does exactly
      when the window ends in the current second, or no later within its second than
      now within this one; otherwise the client comes back up to a second too early. */
  lemma RetrySufficesIff(cfg: Config, w: Window, now: real)
    requires now <= w.end
    ensures Expired(cfg, w, now + RetryAfter(cfg, w.end, now) as real) <==>
              cfg.boundary.GoAfter?
              || Seconds(w.end) == Seconds(now)
              || w.end - Seconds(w.end) as real <= now - Seconds(now) as real
  {
    assert Seconds(now) <= Seconds(w.end);
  }

  // ---------- the limiter object ----------

  class RateLimiter {
    const cfg: Config
    var entries: Entries

    constructor (cfg: Config)
      ensures this.cfg == cfg && entries == map[]
    {
      this.cfg := cfg;
      entries := map[];
    }

    /** Allow, in both backends. */
    method Allow(key: Key, now: real) returns (allowed: bool)
      modifies this
      ensures entries == Admit(cfg, old(entries), Request(key, now))
      ensures allowed == Allowed(cfg, old(entries), Request(key, now))
    {
      if key !in entries || Expired(cfg, entries[key], now) {
        entries := entries[key := Window(1, now + cfg.window)];
        return true;
      }
      var w := entries[key];
      w := w.(count := w.count + 1);
      entries := entries[key := w];
      return w.count <= cfg.max;
    }

    /** The Go middleware: decides by the sign of what remains, and reports it in a
        header. `later` is the clock when a refusal is written. */
    method Handle(key: Key, now: real, later: real) returns (allowed: bool, headers: Headers)
      modifies this
      ensures entries == Admit(cfg, old(entries), Request(key, now))
      ensures allowed == Allowed(cfg, old(entries), Request(key, now))
      ensures headers == Reported(cfg, entries[key], allowed, later)
    {
      if key !in entries || Expired(cfg, entries[key], now) {
        entries := entries[key := Window(1, now + cfg.window)];
        return true, Headers(NonNegative(cfg.max - 1), Seconds(now + cfg.window), None);
      }
      var w := entries[key];
      entries := entries[key := w.(count := w.count + 1)];
      var remaining := cfg.max - (w.count + 1);
      if remaining < 0 {
        return false, Headers(0, Seconds(w.end), Some(RetryAfter(cfg, w.end, later)));
      }
      return true, Headers(remaining, Seconds(w.end), None);
    }

    /** The Python middleware: as Handle, but a table over the size limit is first rid of expired entries. */
    method Check(key: Key, now: real, later: real, maxEntries: nat) returns (allowed: bool, headers: Headers)
      modifies this
      ensures var before := if |old(entries)| > maxEntries then Evicted(cfg, old(entries), now) else old(entries);
              && entries == Admit(cfg, before, Request(key, now))
              && allowed == Allowed(cfg, before, Request(key, now))
      ensures headers == Reported(cfg, entries[key], allowed, later)
    {
      if |entries| > maxEntries {
        Cleanup(now);
      }
      allowed, headers := Handle(key, now, later);
    }

    /** Drop every expired entry, one by one. */
    method Cleanup(now: real)
      modifies this
      ensures entries == Evicted(cfg, old(entries), now)
    {
      var todo := entries.Keys;
      while todo != {}
        invariant todo <= entries.Keys <= old(entries).Keys
        invariant forall k :: k in entries ==> entries[k] == old(entries)[k]
        invariant forall k :: k in old(entries) && k !in todo ==>
              (k in entries <==> !Expired(cfg, old(entries)[k], now))
      {
        var k :| k in todo;
        if Expired(cfg, entries[k], now) {
          entries := entries - {k};
        }
        todo := todo - {k};
      }
    }
  }

  // ---------- runs ----------

  /** Requests interleaved with evictions, as both backends run them. */
  datatype Event = Ask(request: Request) | Evict(now: real)

  function Time(e: Event): real {
    if e.Ask? then e.request.now else e.now
  }

  /** The clock never runs backwards, starting from t. */
  predicate Ordered(t: real, es: seq<Event>)
    decreases |es|
  {
    es != [] ==> t <= Time(es[0]) && Ordered(Time(es[0]), es[1..])
  }

  function Step(cfg: Config, e: Entries, ev: Event): Entries {
    if ev.Ask? then Admit(cfg, e, ev.request) else Evicted(cfg, e, ev.now)
  }

  /** The decisions taken on a run, in order. */
  function Decisions(cfg: Config, e: Entries, es: seq<Event>): seq<bool>
    decreases |es|
  {
    if es == [] then []
    else (if es[0].Ask? then [Allowed(cfg, e, es[0].request)] else []) + Decisions(cfg, Step(cfg, e, es[0]), es[1..])
  }

  /** The same run without its evictions. */
  function Requests(es: seq<Event>): seq<Event> {
    if es == [] then [] else (if es[0].Ask? then [es[0]] else []) + Requests(es[1..])
  }

  /** e lacks only entries that were already expired at time t. */
  predicate LacksOnlyExpired(cfg: Config, e: Entries, full: Entries, t: real) {
    && (forall k :: k in e ==> k in full && e[k] == full[k])
    && (forall k :: k in full && k !in e ==> Expired(cfg, full[k], t))
  }

  lemma {:induction false} EvictionSimulation(cfg: Config, e: Entries, full: Entries, t: real, es: seq<Event>)
    requires LacksOnlyExpired(cfg, e, full, t) && Ordered(t, es)
    ensures Decisions(cfg, e, es) == Decisions(cfg, full, Requests(es))
    decreases |es|
  {
    if es != [] {
      var ev, t' := es[0], Time(es[0]);
      if ev.Ask? {
        var rs := Requests(es);
        assert rs[0] == ev && rs[1..] == Requests(es[1..]);
        EvictionSimulation(cfg, Step(cfg, e, ev), Step(cfg, full, ev), t', es[1..]);
      } else {
        assert Requests(es) == Requests(es[1..]);
        EvictionSimulation(cfg, Step(cfg, e, ev), full, t', es[1..]);
      }
    }
  }

  /** Eviction cannot be observed: with a clock that does not run backwards, any
      run with any placement of evictions takes the decisions of a limiter that never evicts. */
  lemma EvictionUnobservable(cfg: Config, es: seq<Event>, t: real)
    requires Ordered(t, es)
    ensures Decisions(cfg, map[], es) == Decisions(cfg, map[], Requests(es))
  {
    EvictionSimulation(cfg, map[], map[], t, es);
  }

  // ---------- one key ----------

  function OfKey(es: seq<Event>, key: Key): seq<Event> {
    if es == [] then []
    else (if es[0].Ask? && es[0].request.key != key then [] else [es[0]]) + OfKey(es[1..], key)
  }

  /** How many requests of the key are allowed at times in [lo, hi]. */
  function AllowedIn(cfg: Config, e: Entries, es: seq<Event>, key: Key, lo: real, hi: real): nat
    decreases |es|
  {
    if es == [] then 0
    else
      (if es[0].Ask? && es[0].request.key == key && lo <= es[0].request.now <= hi
          && Allowed(cfg, e, es[0].request) then 1 else 0)
      + AllowedIn(cfg, Step(cfg, e, es[0]), es[1..], key, lo, hi)
  }

  /** Two tables that agree on a key. */
  predicate SameFor(a: Entries, b: Entries, key: Key) {
    (key in a <==> key in b) && (key in a ==> a[key] == b[key])
  }

  /** Other keys' traffic changes nothing: each key sees a limiter of its own. */
  lemma {:induction false} KeysAreIndependent(cfg: Config, a: Entries, b: Entries, es: seq<Event>, key: Key, lo: real,
                                              hi: real)
    requires SameFor(a, b, key)
    ensures AllowedIn(cfg, a, es, key, lo, hi) == AllowedIn(cfg, b, OfKey(es, key), key, lo, hi)
    decreases |es|
  {
    if es != [] {
      var ev := es[0];
      if ev.Ask? && ev.request.key != key {
        assert OfKey(es, key) == OfKey(es[1..], key);
        KeysAreIndependent(cfg, Step(cfg, a, ev), b, es[1..], key, lo, hi);
      } else {
        var rs := OfKey(es, key);
        assert rs[0] == ev && rs[1..] == OfKey(es[1..], key);
        KeysAreIndependent(cfg, Step(cfg, a, ev), Step(cfg, b, ev), es[1..], key, lo, hi);
      }
    }
  }

  // ---------- the burst bound ----------

  /** How many requests one window admits: its first one always passes. */
  function PerWindow(cfg: Config): nat {
    if cfg.max < 1 then 1 else cfg.max
  }

  /** How many requests of one key can pass in a closed interval of one window length. */
  function Burst(cfg: Config): nat {
    match cfg.boundary
    case GoAfter => 2 * PerWindow(cfg) - 1
    case PythonFrom => 2 * PerWindow(cfg)
  }

  function Left(cfg: Config, w: Window): nat {
    NonNegative(cfg.max - w.count)
  }

  /** No new window of the key can start up to and including time hi. */
  predicate OutlastsInterval(cfg: Config, e: Entries, key: Key, hi: real) {
    key in e && !Expired(cfg, e[key], hi)
  }

  lemma {:induction false} OneWindowBound(cfg: Config, e: Entries, es: seq<Event>, key: Key, lo: real, hi: real,
                                          t: real)
    requires Ordered(t, es) && OutlastsInterval(cfg, e, key, hi)
    ensures AllowedIn(cfg, e, es, key, lo, hi) <= Left(cfg, e[key])
    decreases |es|
  {
    if es != [] {
      var ev := es[0];
      if Time(ev) > hi {
        NothingAfter(cfg, e, es, key, lo, hi, t);
      } else {
        OneWindowBound(cfg, Step(cfg, e, ev), es[1..], key, lo, hi, Time(ev));
      }
    }
  }

  lemma {:induction false} NothingAfter(cfg: Config, e: Entries, es: seq<Event>, key: Key, lo: real, hi: real, t: real)
    requires Ordered(t, es) && (es != [] ==> Time(es[0]) > hi)
    ensures AllowedIn(cfg, e, es, key, lo, hi) == 0
    decreases |es|
  {
    if es != [] {
      NothingAfter(cfg, Step(cfg, e, es[0]), es[1..], key, lo, hi, Time(es[0]));
    }
  }

  predicate CountsPositive(e: Entries) {
    forall k :: k in e ==> e[k].count >= 1
  }

  /** From a window that is open at some time t in the interval: what it has left, plus one more window. */
  lemma {:induction false} OpenWindowBound(cfg: Config, e: Entries, es: seq<Event>, key: Key, lo: real, hi: real,
                                           t: real)
    requires cfg.window > 0.0 && hi == lo + cfg.window && lo <= t
    requires CountsPositive(e) && Ordered(t, es) && Open(cfg, e, key, t)
    ensures AllowedIn(cfg, e, es, key, lo, hi) <= Left(cfg, e[key]) + PerWindow(cfg)
    decreases |es|
  {
    if es != [] {
      var ev, t' := es[0], Time(es[0]);
      var e' := Step(cfg, e, ev);
      if t' > hi {
        NothingAfter(cfg, e, es, key, lo, hi, t);
      } else if Open(cfg, e, key, t') {
        OpenWindowBound(cfg, e', es[1..], key, lo, hi, t');
      } else if ev.Ask? && ev.request.key == key {
        // the new window starts after lo, so it outlasts the interval
        assert t' > lo || cfg.boundary.PythonFrom?;
        OneWindowBound(cfg, e', es[1..], key, lo, hi, t');
      } else {
        ClosedWindowBound(cfg, e', es[1..], key, lo, hi, t');
      }
    }
  }

  /** From a time after lo at which the key's window is over: at most one more window fits. */
  lemma {:induction false} ClosedWindowBound(cfg: Config, e: Entries, es: seq<Event>, key: Key, lo: real, hi: real,
                                             t: real)
    requires cfg.window > 0.0 && hi == lo + cfg.window && lo < t
    requires Ordered(t, es) && !Open(cfg, e, key, t)
    ensures AllowedIn(cfg, e, es, key, lo, hi) <= PerWindow(cfg)
    decreases |es|
  {
    if es != [] {
      var ev, t' := es[0], Time(es[0]);
      var e' := Step(cfg, e, ev);
      if t' > hi {
        NothingAfter(cfg, e, es, key, lo, hi, t);
      } else if ev.Ask? && ev.request.key == key {
        OneWindowBound(cfg, e', es[1..], key, lo, hi, t');
      } else {
        ClosedWindowBound(cfg, e', es[1..], key, lo, hi, t');
      }
    }
  }

  /** Before and at lo: the whole run. */
  lemma {:induction false} BurstFrom(cfg: Config, e: Entries, es: seq<Event>, key: Key, lo: real, hi: real, t: real)
    requires cfg.window > 0.0 && hi == lo + cfg.window
    requires CountsPositive(e) && Ordered(t, es)
    ensures AllowedIn(cfg, e, es, key, lo, hi) <= Burst(cfg)
    decreases |es|
  {
    if es != [] {
      var ev, t' := es[0], Time(es[0]);
      var e' := Step(cfg, e, ev);
      if t' < lo {
        BurstFrom(cfg, e', es[1..], key, lo, hi, t');
      } else if Open(cfg, e, key, t') {
        OpenWindowBound(cfg, e, es, key, lo, hi, t');
      } else if ev.Ask? && ev.request.key == key {
        if OutlastsInterval(cfg, e', key, hi) {
          OneWindowBound(cfg, e', es[1..], key, lo, hi, t');
        } else {
          OpenWindowBound(cfg, e', es[1..], key, lo, hi, t');
        }
      } else {
        BurstFrom(cfg, e', es[1..], key, lo, hi, t');
      }
    }
  }

  /** In any run and any closed interval of one window length, at most 2 * Max
      requests of one key are allowed in Python, and at most 2 * Max - 1 in Go. */
  lemma BurstBound(cfg: Config, es: seq<Event>, key: Key, lo: real, t: real)
    requires cfg.window > 0.0 && Ordered(t, es)
    ensures AllowedIn(cfg, map[], es, key, lo, lo + cfg.window) <= Burst(cfg)
  {
    BurstFrom(cfg, map[], es, key, lo, lo + cfg.window, t);
  }

  // ---------- what a window admits, exactly ----------

  function Asks(key: Key, times: seq<real>): seq<Event> {
    if times == [] then [] else [Ask(Request(key, times[0]))] + Asks(key, times[1..])
  }

  /** While the window is open, exactly its first Max requests pass; so the
      reported remainder is exactly how many more would. */
  lemma {:induction false} WindowAdmitsExactly(cfg: Config, e: Entries, key: Key, times: seq<real>)
    requires key in e && forall t :: t in times ==> !Expired(cfg, e[key], t)
    ensures var d := Decisions(cfg, e, Asks(key, times));
            |d| == |times| && forall i :: 0 <= i < |d| ==> (d[i] <==> i < Left(cfg, e[key]))
    decreases |times|
  {
    if times != [] {
      var ask := Ask(Request(key, times[0]));
      var asks := Asks(key, times);
      assert asks[0] == ask && asks[1..] == Asks(key, times[1..]);
      assert times[0] in times && forall t :: t in times[1..] ==> t in times;
      WindowAdmitsExactly(cfg, Step(cfg, e, ask), key, times[1..]);
    }
  }

  /** The remainder in a response is exact: of the requests that follow within the
      window, that many pass and no more. */
  lemma RemainingIsExact(cfg: Config, e: Entries, r: Request, later: real, times: seq<real>)
    requires forall t :: t in times ==> !Expired(cfg, Entered(cfg, e, r), t)
    ensures var after := Admit(cfg, e, r);
            var headers := Reported(cfg, after[r.key], Allowed(cfg, e, r), later);
            var d := Decisions(cfg, after, Asks(r.key, times));
            |d| == |times| && forall i :: 0 <= i < |d| ==> (d[i] <==> i < headers.remaining)
  {
    WindowAdmitsExactly(cfg, Admit(cfg, e, r), r.key, times);
  }

  /** Whether a response tells the client to wait, how long, and the second in which
      the window ends. In Go the delay is the first whole number of seconds beyond the
      time left; in Python it is within a second of the time left, and one at least. */
  lemma ResponseIsRight(cfg: Config, e: Entries, r: Request, later: real)
    requires later <= Entered(cfg, e, r).end
    ensures var w := Admit(cfg, e, r)[r.key];
            var headers := Reported(cfg, w, Allowed(cfg, e, r), later);
            && headers.reset as real <= w.end < headers.reset as real + 1.0
            && (headers.retryAfter.Some? <==> r.key in e && !Expired(cfg, e[r.key], r.now) && e[r.key].count >= cfg.max)
            && (headers.retryAfter.Some? ==>
                  var delay, left := headers.retryAfter.value, w.end - later;
                  && delay >= 1
                  && (cfg.boundary.GoAfter? ==> delay as real - 1.0 <= left < delay as real)
                  && (cfg.boundary.PythonFrom? ==> delay == 1 || delay as real - 1.0 < left < delay as real + 1.0)
                  && (cfg.boundary.PythonFrom? && delay == 1 ==> left < 2.0)
                  && (later + delay as real < w.end ==>
                        cfg.boundary.PythonFrom? && w.end - w.end.Floor as real > later - later.Floor as real))
  {
    var w := Admit(cfg, e, r)[r.key];
    RetrySufficesIff(cfg, w, later);
  }

  // ---------- the bound is reached ----------

  function Repeat(key: Key, t: real, n: nat): seq<Event> {
    if n == 0 then [] else [Ask(Request(key, t))] + Repeat(key, t, n - 1)
  }

  function Min(a: nat, b: nat): nat {
    if a < b then a else b
  }

  lemma {:induction false} RepeatedRequests(cfg: Config, e: Entries, key: Key, t: real, n: nat, rest: seq<Event>,
                                            lo: real, hi: real)
    requires Open(cfg, e, key, t) && lo <= t <= hi
    ensures AllowedIn(cfg, e, Repeat(key, t, n) + rest, key, lo, hi)
         == Min(n, Left(cfg, e[key])) + AllowedIn(cfg, e[key := e[key].(count := e[key].count + n)], rest, key, lo, hi)
    decreases n
  {
    if n == 0 {
      assert Repeat(key, t, n) + rest == rest;
      assert e[key := e[key]] == e;
    } else {
      var ask := Ask(Request(key, t));
      var e' := Step(cfg, e, ask);
      var es := Repeat(key, t, n) + rest;
      assert es[0] == ask && es[1..] == Repeat(key, t, n - 1) + rest;
      RepeatedRequests(cfg, e', key, t, n - 1, rest, lo, hi);
      assert e'[key := e'[key].(count := e'[key].count + (n - 1))] == e[key := e[key].(count := e[key].count + n)];
    }
  }

  lemma FirstOfWindow(cfg: Config, e: Entries, key: Key, t: real, rest: seq<Event>, lo: real, hi: real)
    requires lo <= t <= hi && !Open(cfg, e, key, t)
    ensures AllowedIn(cfg, e, [Ask(Request(key, t))] + rest, key, lo, hi)
         == 1 + AllowedIn(cfg, e[key := Window(1, t + cfg.window)], rest, key, lo, hi)
  {
    assert ([Ask(Request(key, t))] + rest)[1..] == rest;
  }

  /** As many requests at once as a window admits, when none is open: all pass. */
  lemma FullWindow(cfg: Config, e: Entries, key: Key, t: real, rest: seq<Event>, lo: real, hi: real)
    requires cfg.window > 0.0 && lo <= t <= hi && !Open(cfg, e, key, t)
    ensures var n := PerWindow(cfg);
            AllowedIn(cfg, e, Repeat(key, t, n) + rest, key, lo, hi) ==
            n + AllowedIn(cfg, e[key := Window(n, t + cfg.window)], rest, key, lo, hi)
  {
    var n := PerWindow(cfg);
    var more := Repeat(key, t, n - 1) + rest;
    assert Repeat(key, t, n) + rest == [Ask(Request(key, t))] + more;
    FirstOfWindow(cfg, e, key, t, more, lo, hi);
    RepeatedRequests(cfg, e[key := Window(1, t + cfg.window)], key, t, n - 1, rest, lo, hi);
    assert e[key := Window(1, t + cfg.window)][key := Window(n, t + cfg.window)] == e[key := Window(n, t + cfg.window)];
  }

  /** A run reaching the bound: Python fills a window at lo and the next at lo +
      window; in Go the first request must come earlier, so it does not count. */
  function WorstRun(cfg: Config, key: Key, lo: real): seq<Event> {
    var n := PerWindow(cfg);
    var second := Repeat(key, lo + cfg.window, n);
    match cfg.boundary
    case PythonFrom => Repeat(key, lo, n) + (second + [])
    case GoAfter => [Ask(Request(key, lo - cfg.window / 2.0))] + (Repeat(key, lo, n - 1) + (second + []))
  }

  /** The burst bound is exact for every maximum and every positive window. */
  lemma BurstReached(cfg: Config, key: Key, lo: real)
    requires cfg.window > 0.0
    ensures Ordered(lo - cfg.window, WorstRun(cfg, key, lo))
    ensures AllowedIn(cfg, map[], WorstRun(cfg, key, lo), key, lo, lo + cfg.window) == Burst(cfg)
  {
    RepeatOrdered(key, lo + cfg.window, lo + cfg.window, PerWindow(cfg), []);
    match cfg.boundary
    case PythonFrom => PythonBurst(cfg, key, lo);
    case GoAfter => GoBurst(cfg, key, lo);
  }

  lemma PythonBurst(cfg: Config, key: Key, lo: real)
    requires cfg.window > 0.0 && cfg.boundary.PythonFrom?
    requires Ordered(lo + cfg.window, Repeat(key, lo + cfg.window, PerWindow(cfg)) + [])
    ensures Ordered(lo - cfg.window, WorstRun(cfg, key, lo))
    ensures AllowedIn(cfg, map[], WorstRun(cfg, key, lo), key, lo, lo + cfg.window) == 2 * PerWindow(cfg)
  {
    var n, hi := PerWindow(cfg), lo + cfg.window;
    var none: seq<Event> := [];
    var empty: Entries := map[];
    var second := Repeat(key, hi, n) + none;
    FullWindow(cfg, empty, key, lo, second, lo, hi);
    FullWindow(cfg, empty[key := Window(n, hi)], key, hi, none, lo, hi);
    RepeatOrdered(key, lo - cfg.window, lo, n, second);
  }

  lemma GoBurst(cfg: Config, key: Key, lo: real)
    requires cfg.window > 0.0 && cfg.boundary.GoAfter?
    requires Ordered(lo + cfg.window, Repeat(key, lo + cfg.window, PerWindow(cfg)) + [])
    ensures Ordered(lo - cfg.window, WorstRun(cfg, key, lo))
    ensures AllowedIn(cfg, map[], WorstRun(cfg, key, lo), key, lo, lo + cfg.window) == 2 * PerWindow(cfg) - 1
  {
    var n, hi, early := PerWindow(cfg), lo + cfg.window, lo - cfg.window / 2.0;
    var none: seq<Event> := [];
    var first := Ask(Request(key, early));
    var begun: Entries := Step(cfg, map[], first);
    var second := Repeat(key, hi, n) + none;
    var run := Repeat(key, lo, n - 1) + second;
    assert ([first] + run)[1..] == run;
    RepeatedRequests(cfg, begun, key, lo, n - 1, second, lo, hi);
    FullWindow(cfg, begun[key := Window(n, early + cfg.window)], key, hi, none, lo, hi);
    RepeatOrdered(key, early, lo, n - 1, second);
  }

  lemma {:induction false} RepeatOrdered(key: Key, t0: real, t: real, n: nat, rest: seq<Event>)
    requires t0 <= t && (rest == [] || (t <= Time(rest[0]) && Ordered(Time(rest[0]), rest)))
    ensures Ordered(t0, Repeat(key, t, n) + rest)
    decreases n
  {
    var es := Repeat(key, t, n) + rest;
    if n == 0 {
      assert es == rest;
    } else {
      assert es[0] == Ask(Request(key, t)) && es[1..] == Repeat(key, t, n - 1) + rest;
      RepeatOrdered(key, t, t, n - 1, rest);
    }
  }
}
