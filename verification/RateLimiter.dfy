/** The rate limiter: a counter per key whose time to live is renewed by every request,
    compared with a true sliding-window log of the same requests. */
module RateLimiter {
  import opened Common

  /** A stored counter; it is gone once `expiry` is reached. */
  datatype Counter = Counter(count: nat, expiry: int)

  /** INCR then EXPIRE at time `now`; `before` is None for a key that is not stored. */
  function Hit(before: Option<Counter>, now: int, window: int): Counter {
    if before.Some? && now < before.value.expiry then Counter(before.value.count + 1, now + window)
    else Counter(1, now + window)
  }

  /** The counter left by the requests of one key at times `ts`. */
  function CounterAfter(ts: seq<int>, window: int): Option<Counter> {
    if ts == [] then None
    else Some(Hit(CounterAfter(ts[..|ts| - 1], window), ts[|ts| - 1], window))
  }

  class Limiter {
    const limit: int
    const window: int
    var counters: map<string, Counter>
    ghost var log: map<string, seq<int>>   // every request of a key, accepted or not

    ghost predicate Valid()
      reads this
    {
      && counters.Keys == log.Keys
      && forall key | key in log :: CounterAfter(log[key], window) == Some(counters[key])
    }

    ghost function Requests(key: string): seq<int>
      reads this
    {
      if key in log then log[key] else []
    }

    constructor (limit: int, window: int)
      ensures Valid() && log == map[] && this.limit == limit && this.window == window
    {
      this.limit, this.window := limit, window;
      counters, log := map[], map[];
    }

    /** Count the request and renew the key; true when the count is within the limit. */
    method AllowRequest(key: string, now: int) returns (allowed: bool)
      requires Valid()
      modifies this
      ensures Valid() && log == old(log)[key := old(Requests(key)) + [now]]
      ensures allowed <==> Accepts(Requests(key), limit, window)
    {
      var stored := if key in counters then Some(counters[key]) else None;
      var counter := Hit(stored, now, window);
      ghost var before := Requests(key);
      counters := counters[key := counter];
      log := log[key := before + [now]];
      assert (before + [now])[..|before|] == before;
      assert CounterAfter(before, window) == stored;
      CounterIsBusyLength(before + [now], window);
      allowed := counter.count <= limit;
    }
  }

  // ---------- Busy periods ----------

  /** How many of the latest requests follow each other by less than a window. */
  function BusyLength(ts: seq<int>, window: int): (n: nat)
    ensures n <= |ts| && (ts != [] ==> n >= 1)
  {
    if ts == [] then 0
    else if |ts| > 1 && ts[|ts| - 1] - ts[|ts| - 2] < window then BusyLength(ts[..|ts| - 1], window) + 1
    else 1
  }

  /** The last request of `ts` is among the first `limit` of its busy period. */
  predicate Accepts(ts: seq<int>, limit: int, window: int) { BusyLength(ts, window) <= limit }

  lemma {:induction false} CounterIsBusyLength(ts: seq<int>, window: int)
    requires ts != []
    ensures CounterAfter(ts, window) == Some(Counter(BusyLength(ts, window), ts[|ts| - 1] + window))
  {
    if |ts| > 1 { CounterIsBusyLength(ts[..|ts| - 1], window); }
  }

  /** The busy period is maximal: inside it the gaps are shorter than the window, and the gap
      before it is not. */
  lemma {:induction false} BusyPeriodIsMaximal(ts: seq<int>, window: int)
    requires ts != []
    ensures var start := |ts| - BusyLength(ts, window);
            && (forall i | start < i < |ts| :: ts[i] - ts[i - 1] < window)
            && (start > 0 ==> ts[start] - ts[start - 1] >= window)
  {
    var rest := ts[..|ts| - 1];
    if |ts| > 1 && ts[|ts| - 1] - ts[|ts| - 2] < window {
      BusyPeriodIsMaximal(rest, window);
      var start := |ts| - BusyLength(ts, window);
      forall i | start < i < |ts| ensures ts[i] - ts[i - 1] < window {
        if i < |ts| - 1 { assert rest[i] - rest[i - 1] < window; }
      }
      if start > 0 { assert rest[start] - rest[start - 1] >= window; }
    }
  }

  /** Each request of a busy period is counted by its position in it, so the period accepts
      exactly its first `limit` requests. */
  lemma {:induction false} PositionInBusyPeriod(ts: seq<int>, limit: int, window: int, i: nat)
    requires |ts| - BusyLength(ts, window) <= i < |ts|
    ensures var start := |ts| - BusyLength(ts, window);
            Accepts(ts[..i + 1], limit, window) <==> i - start < limit
    decreases |ts|
  {
    if i == |ts| - 1 {
      assert ts[..i + 1] == ts;
    } else {
      var rest := ts[..|ts| - 1];
      assert rest[..i + 1] == ts[..i + 1];
      PositionInBusyPeriod(rest, limit, window, i);
    }
  }

  // ---------- The sliding-window log ----------

  predicate Ordered(ts: seq<int>) { forall i, j | 0 <= i < j < |ts| :: ts[i] <= ts[j] }

  /** Requests at times in (from, to]. */
  function CountIn(ts: seq<int>, from: int, to: int): (n: nat)
    ensures n <= |ts|
  {
    if ts == [] then 0
    else CountIn(ts[..|ts| - 1], from, to) + (if from < ts[|ts| - 1] <= to then 1 else 0)
  }

  lemma {:induction false} CountNone(ts: seq<int>, from: int, to: int)
    requires forall i | 0 <= i < |ts| :: ts[i] <= from
    ensures CountIn(ts, from, to) == 0
  {
    if ts != [] { CountNone(ts[..|ts| - 1], from, to); }
  }

  lemma {:induction false} CountSplit(ts: seq<int>, more: seq<int>, from: int, to: int)
    ensures CountIn(ts + more, from, to) == CountIn(ts, from, to) + CountIn(more, from, to)
  {
    if more == [] {
      assert ts + more == ts;
    } else {
      assert (ts + more)[..|ts + more| - 1] == ts + more[..|more| - 1];
      CountSplit(ts, more[..|more| - 1], from, to);
    }
  }

  /** Requests up to a gap of a whole window are not counted in the window. */
  lemma {:induction false} CountAfterGap(ts: seq<int>, start: nat, from: int, to: int)
    requires start <= |ts| && forall i | 0 <= i < start :: ts[i] <= from
    ensures CountIn(ts, from, to) == CountIn(ts[start..], from, to)
  {
    assert ts == ts[..start] + ts[start..];
    CountSplit(ts[..start], ts[start..], from, to);
    CountNone(ts[..start], from, to);
  }

  /** Everything in the window before the last request belongs to its busy period. */
  lemma {:induction false} WindowWithinBusyPeriod(ts: seq<int>, window: int)
    requires Ordered(ts) && ts != []
    ensures var now := ts[|ts| - 1]; CountIn(ts, now - window, now) <= BusyLength(ts, window)
  {
    hide CountIn;
    var now, start := ts[|ts| - 1], |ts| - BusyLength(ts, window);
    BusyPeriodIsMaximal(ts, window);
    hide BusyLength;
    if start > 0 {
      assert ts[start] <= now;
      assert forall i | 0 <= i < start :: ts[i] <= ts[start - 1];
    }
    CountAfterGap(ts, start, now - window, now);
  }

  /** Accepting a request at time t means at most `limit` requests arrived in
      (t - window, t]: the counter is at least as strict as a sliding-window log. */
  lemma {:induction false} AcceptedWithinLimit(ts: seq<int>, limit: int, window: int)
    requires Ordered(ts) && ts != [] && Accepts(ts, limit, window)
    ensures var now := ts[|ts| - 1]; CountIn(ts, now - window, now) <= limit
  {
    WindowWithinBusyPeriod(ts, window);
  }

  /** Of the requests `ts`, those accepted at times in (from, to]. */
  function AcceptedIn(ts: seq<int>, limit: int, window: int, from: int, to: int): nat {
    if ts == [] then 0
    else AcceptedIn(ts[..|ts| - 1], limit, window, from, to)
         + (if from < ts[|ts| - 1] <= to && Accepts(ts, limit, window) then 1 else 0)
  }

  lemma {:induction false} AcceptedAreRequests(ts: seq<int>, limit: int, window: int, from: int, to: int)
    ensures AcceptedIn(ts, limit, window, from, to) <= CountIn(ts, from, to)
  {
    if ts != [] { AcceptedAreRequests(ts[..|ts| - 1], limit, window, from, to); }
  }

  lemma {:induction false} CountShrinks(ts: seq<int>, from: int, to: int, from': int, to': int)
    requires from' <= from && forall i | 0 <= i < |ts| :: ts[i] <= to'
    ensures CountIn(ts, from, to) <= CountIn(ts, from', to')
  {
    if ts != [] { CountShrinks(ts[..|ts| - 1], from, to, from', to'); }
  }

  /** No half-open window of the configured length ever accepts more than `limit` requests. */
  lemma {:induction false} NoWindowExceedsLimit(ts: seq<int>, limit: nat, window: int, from: int)
    requires Ordered(ts)
    ensures AcceptedIn(ts, limit, window, from, from + window) <= limit
  {
    if ts != [] {
      var now := ts[|ts| - 1];
      if from < now <= from + window && Accepts(ts, limit, window) {
        AcceptedAreRequests(ts, limit, window, from, from + window);
        CountShrinks(ts, from, from + window, now - window, now);
        AcceptedWithinLimit(ts, limit, window);
      } else {
        NoWindowExceedsLimit(ts[..|ts| - 1], limit, window, from);
      }
    }
  }

  /** The busy period is what a sliding-window log counts exactly if it began inside the
      current window. */
  lemma {:induction false} BusyIsWindowIff(ts: seq<int>, window: int)
    requires Ordered(ts) && ts != []
    ensures var now := ts[|ts| - 1];
            CountIn(ts, now - window, now) == BusyLength(ts, window)
            <==> ts[|ts| - BusyLength(ts, window)] > now - window
  {
    hide CountIn, BusyLength;
    var now, start := ts[|ts| - 1], |ts| - BusyLength(ts, window);
    if ts[start] > now - window {
      WindowWithinBusyPeriod(ts, window);
      assert ts == ts[..start] + ts[start..];
      CountSplit(ts[..start], ts[start..], now - window, now);
      assert ts[start..][|ts| - start - 1] == now;
      CountAll(ts[start..], now - window, now);
    } else {
      assert forall i | 0 <= i < start + 1 :: ts[i] <= ts[start];
      CountAfterGap(ts, start + 1, now - window, now);
    }
  }

  /** The counter decides as a sliding-window log does, for every limit, exactly if the busy
      period began inside the current window. */
  lemma {:induction false} AgreesIff(ts: seq<int>, window: int)
    requires Ordered(ts) && ts != []
    ensures var now := ts[|ts| - 1];
            (forall limit :: Accepts(ts, limit, window) <==> CountIn(ts, now - window, now) <= limit)
            <==> ts[|ts| - BusyLength(ts, window)] > now - window
  {
    hide CountIn, BusyLength;
    var now := ts[|ts| - 1];
    var count, busy := CountIn(ts, now - window, now), BusyLength(ts, window);
    BusyIsWindowIff(ts, window);
    if forall limit :: Accepts(ts, limit, window) <==> count <= limit {
      assert Accepts(ts, count, window) && Accepts(ts, busy, window);
    }
  }

  lemma {:induction false} CountAll(ts: seq<int>, from: int, to: int)
    requires forall i | 0 <= i < |ts| :: from < ts[i] <= to
    ensures CountIn(ts, from, to) == |ts|
  {
    if ts != [] { CountAll(ts[..|ts| - 1], from, to); }
  }

  /** It can be stricter: steady traffic within the limit of every window is refused. */
  lemma {:induction false} StricterOnSteadyTraffic()
    ensures var ts := [0, 1, 2];
            && CountIn(ts, 0, 2) == 2
            && !Accepts(ts, 2, 2)
  {
    var ts := [0, 1, 2];
    assert ts[..2] == [0, 1] && [0, 1][..1] == [0] && [0][..0] == [];
    assert CountIn([0], 0, 2) == 0 && CountIn([0, 1], 0, 2) == 1;
    assert BusyLength([0], 2) == 1 && BusyLength([0, 1], 2) == 2;
  }
}
