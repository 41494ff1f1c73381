/**
 * The sliding-window rate limiter of the backend's middleware: per client
 * address, a list of (timestamp, count) entries, swept of old entries at
 * most once per cleanup interval, and a request answered 429 when the
 * client's entries of the last 60 seconds add up to the limit.
 *
 * Time is a parameter: `time.time()` becomes the `now` argument of each
 * operation (the sweep and the request each read the clock once, so a
 * request takes two readings). Timestamps are reals; floating-point rounding
 * is not modelled, so `now - ts < 60` and `ts > now - 60` are the same test.
 */
module RateLimit {
  import opened Text

  /** One recorded request burst: when, and how many requests. */
  datatype Entry = Entry(ts: real, count: int)

  /** How `dispatch` answers: 429 with its retry delay, or the request handed on with its rate-limit headers. */
  datatype Decision =
    | Throttled(retryAfter: int)
    | Admitted(limit: int, remaining: int, reset: int)

  /** The entries newer than `cutoff`, in order. */
  function After(entries: seq<Entry>, cutoff: real): (r: seq<Entry>)
    ensures |r| <= |entries|
  {
    if entries == [] then []
    else
      After(entries[..|entries| - 1], cutoff)
      + (if entries[|entries| - 1].ts > cutoff then [entries[|entries| - 1]] else [])
  }

  /** `sum(count for _, count in entries)`. */
  function Total(entries: seq<Entry>): int {
    if entries == [] then 0 else Total(entries[..|entries| - 1]) + entries[|entries| - 1].count
  }

  /** The table after a sweep at `cutoff`: old entries dropped, addresses left without entries removed. */
  function Cleaned(counts: map<string, seq<Entry>>, cutoff: real): map<string, seq<Entry>> {
    map ip | ip in counts && After(counts[ip], cutoff) != [] :: After(counts[ip], cutoff)
  }

  /** The table after `_cleanup_old_entries` at `now`: swept only when more than `interval` has passed. */
  function Swept(counts: map<string, seq<Entry>>, lastCleanup: real, interval: real, now: real): map<string, seq<Entry>> {
    if now - lastCleanup > interval then Cleaned(counts, now - 60.0) else counts
  }

  /** A client's entries; a new client has none. */
  function EntriesOf(counts: map<string, seq<Entry>>, ip: string): seq<Entry> {
    if ip in counts then counts[ip] else []
  }

  /** Python's `int(x)` on a float: truncation toward zero. */
  function TruncInt(x: real): (r: int)
    ensures x >= 0.0 ==> r as real <= x < r as real + 1.0
    ensures x < 0.0 ==> r as real - 1.0 < x <= r as real
  {
    if x >= 0.0 then x.Floor else -((-x).Floor)
  }

  /** Every entry records a single request. */
  ghost predicate SingleCounts(counts: map<string, seq<Entry>>) {
    forall ip, i :: ip in counts && 0 <= i < |counts[ip]| ==> counts[ip][i].count == 1
  }

  class RateLimiter {
    const requestsPerMinute: int
    var requestCounts: map<string, seq<Entry>>
    const cleanupInterval: real
    var lastCleanup: real

    /** Entries are only ever recorded one request at a time. */
    ghost predicate Valid()
      reads this
    {
      SingleCounts(requestCounts)
    }

    /** `__init__`: an empty table, a 60-second cleanup interval, the last cleanup now. */
    constructor (requestsPerMinute: int, now: real)
      ensures this.requestsPerMinute == requestsPerMinute
      ensures requestCounts == map[] && cleanupInterval == 60.0 && lastCleanup == now
      ensures Valid()
    {
      this.requestsPerMinute := requestsPerMinute;
      requestCounts := map[];
      cleanupInterval := 60.0;
      lastCleanup := now;
    }

    /** `_cleanup_old_entries` run at `now`. */
    method CleanupOldEntries(now: real)
      modifies this
      ensures requestCounts == Swept(old(requestCounts), old(lastCleanup), cleanupInterval, now)
      ensures lastCleanup == if now - old(lastCleanup) > cleanupInterval then now else old(lastCleanup)
      ensures old(Valid()) ==> Valid()
    {
      ghost var counts0 := requestCounts;
      if now - lastCleanup > cleanupInterval {
        var cutoff := now - 60.0;
        var remaining := requestCounts.Keys;
        while remaining != {}
          invariant remaining <= counts0.Keys
          invariant requestCounts == SweptPart(counts0, cutoff, remaining)
          decreases |remaining|
        {
          var ip :| ip in remaining;
          SweepStep(counts0, cutoff, remaining, ip);
          requestCounts := requestCounts[ip := After(requestCounts[ip], cutoff)];
          if requestCounts[ip] == [] {
            requestCounts := requestCounts - {ip};
          }
          remaining := remaining - {ip};
        }
        SweptPartDone(counts0, cutoff);
        lastCleanup := now;
      }
      if old(Valid()) {
        CleanedSingle(counts0, now - 60.0);
      }
    }

    /**
     * `dispatch` for a request from `clientIp`: the sweep reads the clock
     * at `cleanupTime`, the request at `now`.
     */
    method Dispatch(clientIp: string, cleanupTime: real, now: real) returns (d: Decision)
      modifies this
      ensures var swept := Swept(old(requestCounts), old(lastCleanup), cleanupInterval, cleanupTime);
        var recent := After(EntriesOf(swept, clientIp), now - 60.0);
        && lastCleanup == (if cleanupTime - old(lastCleanup) > cleanupInterval then cleanupTime else old(lastCleanup))
        && (Total(recent) >= requestsPerMinute ==>
              d == Throttled(60) && requestCounts == swept[clientIp := EntriesOf(swept, clientIp)])
        && (Total(recent) < requestsPerMinute ==>
              && d == Admitted(requestsPerMinute, requestsPerMinute - Total(recent) - 1, TruncInt(now + 60.0))
              && requestCounts == swept[clientIp := recent + [Entry(now, 1)]])
      ensures old(Valid()) ==> Valid()
    {
      CleanupOldEntries(cleanupTime);
      d := Record(clientIp, now);
    }

    /** The part of `dispatch` after the sweep: count the window, then refuse or record the request. */
    method Record(clientIp: string, now: real) returns (d: Decision)
      modifies this
      ensures var recent := After(EntriesOf(old(requestCounts), clientIp), now - 60.0);
        && lastCleanup == old(lastCleanup)
        && (Total(recent) >= requestsPerMinute ==>
              d == Throttled(60) && requestCounts == old(requestCounts)[clientIp := EntriesOf(old(requestCounts), clientIp)])
        && (Total(recent) < requestsPerMinute ==>
              && d == Admitted(requestsPerMinute, requestsPerMinute - Total(recent) - 1, TruncInt(now + 60.0))
              && requestCounts == old(requestCounts)[clientIp := recent + [Entry(now, 1)]])
      ensures old(Valid()) ==> Valid()
    {
      if clientIp !in requestCounts {
        requestCounts := requestCounts[clientIp := []];
      }
      var recentRequests := After(requestCounts[clientIp], now - 60.0);
      var totalRequests := Total(recentRequests);
      if totalRequests >= requestsPerMinute {
        d := Throttled(60);
        return;
      }
      if Valid() {
        AfterSingle(requestCounts[clientIp], now - 60.0);
      }
      requestCounts := requestCounts[clientIp := recentRequests + [Entry(now, 1)]];
      d := Admitted(requestsPerMinute, requestsPerMinute - totalRequests - 1, TruncInt(now + 60.0));
    }
  }

  /** The table partway through the sweep: the addresses in `remaining` are not swept yet. */
  function SweptPart(counts: map<string, seq<Entry>>, cutoff: real, remaining: set<string>): map<string, seq<Entry>> {
    map ip | ip in counts && (ip in remaining || After(counts[ip], cutoff) != []) ::
      if ip in remaining then counts[ip] else After(counts[ip], cutoff)
  }

  /** Sweeping one more address moves the partial table one step. */
  lemma SweepStep(counts: map<string, seq<Entry>>, cutoff: real, remaining: set<string>, ip: string)
    requires ip in remaining && remaining <= counts.Keys
    ensures var part := SweptPart(counts, cutoff, remaining);
      var next := part[ip := After(part[ip], cutoff)];
      SweptPart(counts, cutoff, remaining - {ip}) == if next[ip] == [] then next - {ip} else next
  {
    var part := SweptPart(counts, cutoff, remaining);
    var next := part[ip := After(part[ip], cutoff)];
    var want := if next[ip] == [] then next - {ip} else next;
    var got := SweptPart(counts, cutoff, remaining - {ip});
    assert part[ip] == counts[ip];
    forall k
      ensures k in got <==> k in want
      ensures k in got ==> got[k] == want[k]
    {
      if k != ip {
        assert k in want <==> k in part;
        assert k in part ==> want[k] == part[k];
      }
    }
    assert got == want;
  }

  lemma SweptPartDone(counts: map<string, seq<Entry>>, cutoff: real)
    ensures SweptPart(counts, cutoff, {}) == Cleaned(counts, cutoff)
  {
  }

  /** `After` keeps exactly the entries newer than the cutoff, in their order. */
  lemma {:induction false} AfterElements(entries: seq<Entry>, cutoff: real)
    ensures forall e :: e in After(entries, cutoff) <==> e in entries && e.ts > cutoff
  {
    if entries != [] {
      AfterElements(entries[..|entries| - 1], cutoff);
      assert entries == entries[..|entries| - 1] + [entries[|entries| - 1]];
    }
  }

  /** Filtering at a cutoff after filtering at an earlier one is filtering at the later one. */
  lemma {:induction false} AfterAfter(entries: seq<Entry>, c1: real, c2: real)
    requires c1 <= c2
    ensures After(After(entries, c1), c2) == After(entries, c2)
  {
    if entries != [] {
      var init, last := entries[..|entries| - 1], entries[|entries| - 1];
      AfterAfter(init, c1, c2);
      AfterSnoc(After(init, c1), last, c2);
      if last.ts > c1 {
        assert After(entries, c1) == After(init, c1) + [last];
      } else {
        assert After(entries, c1) == After(init, c1);
      }
    }
  }

  lemma AfterSnoc(entries: seq<Entry>, e: Entry, cutoff: real)
    ensures After(entries + [e], cutoff) == After(entries, cutoff) + (if e.ts > cutoff then [e] else [])
  {
    assert (entries + [e])[..|entries|] == entries;
  }

  lemma TotalSnoc(entries: seq<Entry>, e: Entry)
    ensures Total(entries + [e]) == Total(entries) + e.count
  {
    assert (entries + [e])[..|entries|] == entries;
  }

  /** With single counts, a total is the number of entries. */
  lemma {:induction false} TotalOfSingles(entries: seq<Entry>)
    requires forall i :: 0 <= i < |entries| ==> entries[i].count == 1
    ensures Total(entries) == |entries|
  {
    if entries != [] {
      TotalOfSingles(entries[..|entries| - 1]);
    }
  }

  /** Filtering keeps single counts. */
  lemma {:induction false} AfterSingle(entries: seq<Entry>, cutoff: real)
    requires forall i :: 0 <= i < |entries| ==> entries[i].count == 1
    ensures forall i :: 0 <= i < |After(entries, cutoff)| ==> After(entries, cutoff)[i].count == 1
  {
    AfterElements(entries, cutoff);
    forall i | 0 <= i < |After(entries, cutoff)| ensures After(entries, cutoff)[i].count == 1 {
      var e := After(entries, cutoff)[i];
      assert e in entries;
    }
  }

  lemma CleanedSingle(counts: map<string, seq<Entry>>, cutoff: real)
    requires SingleCounts(counts)
    ensures SingleCounts(Cleaned(counts, cutoff))
  {
    forall ip | ip in Cleaned(counts, cutoff) {
      AfterSingle(counts[ip], cutoff);
    }
  }

  /** After a sweep, a client's entries are its entries newer than the cutoff. */
  lemma EntriesOfCleaned(counts: map<string, seq<Entry>>, cutoff: real, ip: string)
    ensures EntriesOf(Cleaned(counts, cutoff), ip) == After(EntriesOf(counts, ip), cutoff)
  {
    if ip !in counts {
      assert EntriesOf(counts, ip) == [];
    }
  }

  /**
   * A sweep drops exactly the entries at or before the cutoff and the
   * addresses left without entries; it never leaves an empty list.
   */
  lemma CleanedProperties(counts: map<string, seq<Entry>>, cutoff: real, ip: string)
    ensures Cleaned(counts, cutoff).Keys <= counts.Keys
    ensures ip in Cleaned(counts, cutoff) ==> Cleaned(counts, cutoff)[ip] != []
    ensures forall e :: e in EntriesOf(Cleaned(counts, cutoff), ip) <==> e in EntriesOf(counts, ip) && e.ts > cutoff
  {
    EntriesOfCleaned(counts, cutoff, ip);
    AfterElements(EntriesOf(counts, ip), cutoff);
  }

  /**
   * A sweep at or before the request's clock reading never changes what the
   * request counts: it only drops entries outside the 60-second window.
   */
  lemma SweepKeepsWindow(counts: map<string, seq<Entry>>, lastCleanup: real, interval: real,
                         cleanupTime: real, now: real, ip: string)
    requires cleanupTime <= now
    ensures After(EntriesOf(Swept(counts, lastCleanup, interval, cleanupTime), ip), now - 60.0)
         == After(EntriesOf(counts, ip), now - 60.0)
  {
    if cleanupTime - lastCleanup > interval {
      EntriesOfCleaned(counts, cleanupTime - 60.0, ip);
      AfterAfter(EntriesOf(counts, ip), cleanupTime - 60.0, now - 60.0);
    }
  }

  /**
   * An admitted request is recorded inside the window: the client's windowed
   * total grows by one and stays within the limit, and the remaining count
   * the headers announce is what is left of it.
   */
  lemma AdmittedWindow(recent: seq<Entry>, now: real, limit: int)
    requires recent == After(recent, now - 60.0)
    requires Total(recent) < limit
    ensures After(recent + [Entry(now, 1)], now - 60.0) == recent + [Entry(now, 1)]
    ensures Total(recent + [Entry(now, 1)]) == Total(recent) + 1 <= limit
    ensures limit - Total(recent) - 1 == limit - Total(recent + [Entry(now, 1)]) >= 0
  {
    AfterSnoc(recent, Entry(now, 1), now - 60.0);
    TotalSnoc(recent, Entry(now, 1));
  }

  /** The entries of a window are already in it. */
  lemma AfterIdempotent(entries: seq<Entry>, cutoff: real)
    ensures After(After(entries, cutoff), cutoff) == After(entries, cutoff)
  {
    AfterAfter(entries, cutoff, cutoff);
  }

  /**
   * With single counts, a client is throttled exactly when it has made at
   * least `requests_per_minute` recorded requests in the last 60 seconds.
   */
  lemma ThrottledByCount(counts: map<string, seq<Entry>>, ip: string, now: real, limit: int)
    requires SingleCounts(counts)
    ensures Total(After(EntriesOf(counts, ip), now - 60.0)) >= limit
      <==> |After(EntriesOf(counts, ip), now - 60.0)| >= limit
  {
    if ip in counts {
      AfterSingle(counts[ip], now - 60.0);
      TotalOfSingles(After(counts[ip], now - 60.0));
    }
  }
}
