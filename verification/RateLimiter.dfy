/** The in-memory sliding-window limiter (`IPRateLimiter` of app/ratelimit.py): it
    prunes each key's queue on a hit and sweeps stale keys, and still answers as a
    full log of every accepted hit would. */
module RateLimiter {
  import opened Common

  type Key = string
  type Log = seq<(Key, int)>

  datatype Hit = Hit(key: Key, limit: int)

  // ---------------------------------------------------------------------
  // The log's answers

  function Times(log: Log, key: Key): seq<int> {
    if log == [] then []
    else
      var before := Times(log[..|log| - 1], key);
      if log[|log| - 1].0 == key then before + [log[|log| - 1].1] else before
  }

  /** The times no older than the window. */
  function Recent(times: seq<int>, window: int, now: int): seq<int> {
    if times == [] then []
    else
      var before := Recent(times[..|times| - 1], window, now);
      if now - times[|times| - 1] <= window then before + [times[|times| - 1]] else before
  }

  predicate Full(log: Log, h: Hit, window: int, now: int) {
    |Recent(Times(log, h.key), window, now)| >= h.limit
  }

  /** The first key without room, if any. */
  function Verdict(log: Log, hits: seq<Hit>, window: int, now: int): Option<Key> {
    if hits == [] then None
    else if Full(log, hits[0], window, now) then Some(hits[0].key)
    else Verdict(log, hits[1..], window, now)
  }

  function Stamp(hits: seq<Hit>, now: int): (r: Log)
    ensures |r| == |hits| && forall i :: 0 <= i < |r| ==> r[i] == (hits[i].key, now)
  {
    seq(|hits|, i requires 0 <= i < |hits| => (hits[i].key, now))
  }

  /** All or nothing. */
  function After(log: Log, hits: seq<Hit>, window: int, now: int): Log {
    if Verdict(log, hits, window, now).None? then log + Stamp(hits, now) else log
  }

  // ---------------------------------------------------------------------
  // What the queues keep of it

  predicate Sorted(times: seq<int>, now: int) {
    && (forall i, j :: 0 <= i < j < |times| ==> times[i] <= times[j])
    && (forall i :: 0 <= i < |times| ==> times[i] <= now)
  }

  /** `kept` is what is left of `times` after dropping some that are out of the window. */
  predicate Tail(times: seq<int>, kept: seq<int>, window: int, now: int) {
    && |kept| <= |times| && kept == times[|times| - |kept|..]
    && forall i :: 0 <= i < |times| - |kept| ==> now - times[i] > window
  }

  lemma {:induction false} RecentNone(times: seq<int>, window: int, now: int)
    requires forall i :: 0 <= i < |times| ==> now - times[i] > window
    ensures Recent(times, window, now) == []
  {
    if times != [] {
      RecentNone(times[..|times| - 1], window, now);
    }
  }

  lemma {:induction false} RecentOfTail(times: seq<int>, d: nat, window: int, now: int)
    requires d <= |times|
    requires forall i :: 0 <= i < d ==> now - times[i] > window
    requires forall i :: d <= i < |times| ==> now - times[i] <= window
    ensures Recent(times, window, now) == times[d..]
  {
    if d == |times| {
      RecentNone(times, window, now);
    } else {
      RecentOfTail(times[..|times| - 1], d, window, now);
      assert times[d..] == times[..|times| - 1][d..] + [times[|times| - 1]];
    }
  }

  /** A pruned queue holds exactly the recent times. */
  lemma PrunedIsRecent(times: seq<int>, kept: seq<int>, window: int, now: int)
    requires Sorted(times, now) && Tail(times, kept, window, now)
    requires kept != [] ==> now - kept[0] <= window
    ensures Recent(times, window, now) == kept
  {
    var d := |times| - |kept|;
    forall i | d <= i < |times| ensures now - times[i] <= window {
      assert kept[0] == times[d];
    }
    RecentOfTail(times, d, window, now);
  }

  lemma TimesAppend(log: Log, key: Key, e: (Key, int))
    ensures Times(log + [e], key) == if e.0 == key then Times(log, key) + [e.1] else Times(log, key)
  {
    assert (log + [e])[..|log|] == log;
  }

  function Queue(events: map<Key, seq<int>>, key: Key): seq<int> {
    if key in events then events[key] else []
  }

  /** Every key's queue is a tail of its times, none of them later than the clock, and
      the longest window covers every key that was counted. */
  ghost predicate Agrees(log: Log, events: map<Key, seq<int>>, windowOf: Key -> int, maxWindow: int, clock: int) {
    forall k :: KeyAgrees(log, events, windowOf, maxWindow, clock, k)
  }

  ghost predicate KeyAgrees(log: Log, events: map<Key, seq<int>>, windowOf: Key -> int, maxWindow: int, clock: int,
                            k: Key) {
    && Sorted(Times(log, k), clock)
    && Tail(Times(log, k), Queue(events, k), windowOf(k), clock)
    && (Queue(events, k) != [] ==> windowOf(k) <= maxWindow)
  }

  lemma LaterAgrees(log: Log, events: map<Key, seq<int>>, windowOf: Key -> int, maxWindow: int, clock: int,
                    longer: int, now: int)
    requires Agrees(log, events, windowOf, maxWindow, clock) && clock <= now && maxWindow <= longer
    ensures Agrees(log, events, windowOf, longer, now)
  {
    forall k ensures KeyAgrees(log, events, windowOf, longer, now, k) {
      assert KeyAgrees(log, events, windowOf, maxWindow, clock, k);
    }
  }

  /** A shorter tail in place of a key's queue. */
  lemma SetQueue(log: Log, events: map<Key, seq<int>>, windowOf: Key -> int, maxWindow: int, now: int, key: Key,
                 kept: seq<int>)
    requires Agrees(log, events, windowOf, maxWindow, now)
    requires Tail(Times(log, key), kept, windowOf(key), now) && windowOf(key) <= maxWindow
    ensures Agrees(log, events[key := kept], windowOf, maxWindow, now)
  {
    var after := events[key := kept];
    forall k ensures KeyAgrees(log, after, windowOf, maxWindow, now, k) {
      assert KeyAgrees(log, events, windowOf, maxWindow, now, k);
    }
  }

  lemma DropHead(times: seq<int>, kept: seq<int>, window: int, now: int)
    requires Tail(times, kept, window, now) && kept != [] && now - kept[0] > window
    ensures Tail(times, kept[1..], window, now)
  {
    assert kept[0] == times[|times| - |kept|];
    assert kept[1..] == times[|times| - |kept| + 1..];
  }

  lemma TailAppend(times: seq<int>, kept: seq<int>, window: int, now: int)
    requires Sorted(times, now) && Tail(times, kept, window, now)
    ensures Sorted(times + [now], now) && Tail(times + [now], kept + [now], window, now)
  {
    assert (times + [now])[|times| - |kept|..] == times[|times| - |kept|..] + [now];
  }

  lemma AppendAgrees(log: Log, events: map<Key, seq<int>>, windowOf: Key -> int, maxWindow: int, now: int, key: Key)
    requires Agrees(log, events, windowOf, maxWindow, now) && windowOf(key) <= maxWindow
    ensures Agrees(log + [(key, now)], events[key := Queue(events, key) + [now]], windowOf, maxWindow, now)
  {
    var longer, after := log + [(key, now)], events[key := Queue(events, key) + [now]];
    forall k ensures KeyAgrees(longer, after, windowOf, maxWindow, now, k) {
      assert KeyAgrees(log, events, windowOf, maxWindow, now, k);
      TimesAppend(log, k, (key, now));
      TailAppend(Times(log, k), Queue(events, k), windowOf(k), now);
    }
  }

  /** A key whose newest event is past the longest window can go. */
  lemma SweepAgrees(log: Log, events: map<Key, seq<int>>, windowOf: Key -> int, maxWindow: int, now: int,
                    after: map<Key, seq<int>>)
    requires Agrees(log, events, windowOf, maxWindow, now)
    requires forall k :: k in after ==> k in events && after[k] == events[k]
    requires forall k :: k in events && k !in after ==> events[k] == [] || now - events[k][|events[k]| - 1] > maxWindow
    ensures Agrees(log, after, windowOf, maxWindow, now)
  {
    forall k ensures KeyAgrees(log, after, windowOf, maxWindow, now, k) {
      assert KeyAgrees(log, events, windowOf, maxWindow, now, k);
      if k in events && k !in after && events[k] != [] {
        var times, kept := Times(log, k), events[k];
        assert kept[|kept| - 1] == times[|times| - 1];
        forall i | 0 <= i < |times| ensures now - times[i] > windowOf(k) {
          assert times[i] <= times[|times| - 1];
        }
      }
    }
  }

  // ---------------------------------------------------------------------
  // The limiter itself

  class IPRateLimiter {
    const sweepEvery: nat := 1000
    var events: map<Key, seq<int>>
    var hits: nat
    var maxWindow: int
    var lastSweep: int
    ghost var log: Log
    ghost var clock: int

    /** Each key is counted over one window. */
    ghost predicate Valid(windowOf: Key -> int)
      reads this
    {
      Agrees(log, events, windowOf, maxWindow, clock)
    }

    constructor (now: int)
      ensures log == [] && clock == now && forall windowOf :: Valid(windowOf)
    {
      events, hits, maxWindow, lastSweep := map[], 0, 0, now;
      log, clock := [], now;
      new;
      forall windowOf: Key -> int ensures Valid(windowOf) {
        assert forall k :: KeyAgrees(log, events, windowOf, maxWindow, clock, k);
      }
    }

    method Sweep(now: int, ghost windowOf: Key -> int)
      requires Agrees(log, events, windowOf, maxWindow, now)
      modifies this`events, this`lastSweep
      ensures Agrees(log, events, windowOf, maxWindow, now) && lastSweep == now
    {
      lastSweep := now;
      ghost var before := events;
      events := map k | k in events && !(events[k] == [] || now - events[k][|events[k]| - 1] > maxWindow) :: events[k];
      SweepAgrees(log, before, windowOf, maxWindow, now, events);
    }

    /** Drop what is out of the window off a key's queue. */
    method Prune(key: Key, window: int, now: int, ghost windowOf: Key -> int) returns (kept: seq<int>)
      requires Agrees(log, events, windowOf, maxWindow, now) && windowOf(key) == window <= maxWindow
      modifies this`events
      ensures Agrees(log, events, windowOf, maxWindow, now)
      ensures kept == Recent(Times(log, key), window, now) == Queue(events, key)
    {
      kept := Queue(events, key);
      assert KeyAgrees(log, events, windowOf, maxWindow, now, key);
      while kept != [] && now - kept[0] > window
        invariant events == old(events) && Tail(Times(log, key), kept, window, now)
      {
        DropHead(Times(log, key), kept, window, now);
        kept := kept[1..];
      }
      SetQueue(log, events, windowOf, maxWindow, now, key, kept);
      PrunedIsRecent(Times(log, key), kept, window, now);
      events := events[key := kept];
    }

    /** All or nothing: the first full key, or None when every key was counted. The
        verdict is the one the full log of accepted hits gives. */
    method HitAll(asked: seq<Hit>, window: int, now: int, ghost windowOf: Key -> int) returns (full: Option<Key>)
      requires Valid(windowOf) && clock <= now
      requires forall h :: h in asked ==> windowOf(h.key) == window
      modifies this
      ensures Valid(windowOf) && clock == now
      ensures full == Verdict(old(log), asked, window, now)
      ensures log == After(old(log), asked, window, now)
    {
      var longer := Max(maxWindow, window);
      LaterAgrees(log, events, windowOf, maxWindow, clock, longer, now);
      maxWindow, hits, clock := longer, hits + 1, now;
      if hits % sweepEvery == 0 || now - lastSweep >= 60 {
        Sweep(now, windowOf);
      }
      var i := 0;
      while i < |asked|
        invariant 0 <= i <= |asked| && log == old(log) && clock == now && window <= maxWindow
        invariant Agrees(log, events, windowOf, maxWindow, now)
        invariant Verdict(log, asked, window, now) == Verdict(log, asked[i..], window, now)
      {
        var kept := Prune(asked[i].key, window, now, windowOf);
        assert asked[i..][0] == asked[i] && asked[i..][1..] == asked[i + 1..];
        if |kept| >= asked[i].limit {
          return Some(asked[i].key);
        }
        i := i + 1;
      }
      i := 0;
      while i < |asked|
        invariant 0 <= i <= |asked| && clock == now && window <= maxWindow
        invariant log == old(log) + Stamp(asked[..i], now)
        invariant Agrees(log, events, windowOf, maxWindow, now)
      {
        AppendAgrees(log, events, windowOf, maxWindow, now, asked[i].key);
        assert Stamp(asked[..i + 1], now) == Stamp(asked[..i], now) + [(asked[i].key, now)];
        events := events[asked[i].key := Queue(events, asked[i].key) + [now]];
        log := log + [(asked[i].key, now)];
        i := i + 1;
      }
      assert asked[..i] == asked;
      return None;
    }

    method HitOne(key: Key, limit: int, window: int, now: int, ghost windowOf: Key -> int) returns (ok: bool)
      requires Valid(windowOf) && clock <= now && windowOf(key) == window
      modifies this
      ensures Valid(windowOf) && clock == now
      ensures ok == !Full(old(log), Hit(key, limit), window, now)
      ensures log == if ok then old(log) + [(key, now)] else old(log)
    {
      var full := HitAll([Hit(key, limit)], window, now, windowOf);
      ok := full.None?;
      assert [Hit(key, limit)][1..] == [];
      assert Stamp([Hit(key, limit)], now) == [(key, now)];
    }
  }

  // ---------------------------------------------------------------------
  // The limit holds

  datatype Request = Request(hits: seq<Hit>, window: int, at: int)

  function Replay(log: Log, requests: seq<Request>): Log {
    if requests == [] then log
    else
      var r := requests[|requests| - 1];
      After(Replay(log, requests[..|requests| - 1]), r.hits, r.window, r.at)
  }

  /** Requests in order of time that name no key twice, and always count this key over
      the same window against the same limit. */
  predicate Steady(requests: seq<Request>, key: Key, window: int, limit: int) {
    && (forall i, j :: 0 <= i < j < |requests| ==> requests[i].at <= requests[j].at)
    && (forall i :: 0 <= i < |requests| ==>
          && (forall a, b :: 0 <= a < b < |requests[i].hits| ==> requests[i].hits[a].key != requests[i].hits[b].key)
          && (forall a :: 0 <= a < |requests[i].hits| && requests[i].hits[a].key == key ==>
                requests[i].hits[a].limit == limit && requests[i].window == window))
  }

  lemma {:induction false} StampTimes(log: Log, hits: seq<Hit>, now: int, key: Key)
    requires forall a, b :: 0 <= a < b < |hits| ==> hits[a].key != hits[b].key
    ensures Times(log + Stamp(hits, now), key) ==
              if exists a :: 0 <= a < |hits| && hits[a].key == key then Times(log, key) + [now] else Times(log, key)
  {
    if hits == [] {
      assert log + Stamp(hits, now) == log;
    } else {
      var n := |hits| - 1;
      StampTimes(log, hits[..n], now, key);
      assert log + Stamp(hits, now) == log + Stamp(hits[..n], now) + [(hits[n].key, now)];
      TimesAppend(log + Stamp(hits[..n], now), key, (hits[n].key, now));
      if hits[n].key == key {
        assert forall a :: 0 <= a < n ==> hits[..n][a].key != key;
      } else if a :| 0 <= a < |hits| && hits[a].key == key {
        assert hits[..n][a].key == key;
      }
    }
  }

  lemma {:induction false} NotFull(log: Log, hits: seq<Hit>, window: int, now: int, a: nat)
    requires Verdict(log, hits, window, now).None? && a < |hits|
    ensures !Full(log, hits[a], window, now)
  {
    if a > 0 {
      NotFull(log, hits[1..], window, now, a - 1);
    }
  }

  lemma {:induction false} RecentLater(times: seq<int>, window: int, now: int, t: int)
    requires now <= t
    ensures |Recent(times, window, t)| <= |Recent(times, window, now)|
  {
    if times != [] {
      RecentLater(times[..|times| - 1], window, now, t);
    }
  }

  /** The times of a window's length up to t. */
  function InWindow(times: seq<int>, window: int, t: int): nat {
    if times == [] then 0
    else InWindow(times[..|times| - 1], window, t) + (if t - window <= times[|times| - 1] <= t then 1 else 0)
  }

  lemma {:induction false} InWindowIsRecent(times: seq<int>, window: int, t: int)
    ensures InWindow(times, window, t) <= |Recent(times, window, t)|
  {
    if times != [] {
      InWindowIsRecent(times[..|times| - 1], window, t);
    }
  }

  lemma OneMoreTime(times: seq<int>, now: int, window: int, t: int, limit: int)
    requires InWindow(times, window, t) <= limit && |Recent(times, window, now)| < limit
    ensures InWindow(times + [now], window, t) <= limit
  {
    assert (times + [now])[..|times|] == times;
    if now <= t {
      RecentLater(times, window, now, t);
      InWindowIsRecent(times, window, t);
    }
  }

  lemma OneMoreRequest(log: Log, r: Request, key: Key, window: int, limit: nat, t: int)
    requires InWindow(Times(log, key), window, t) <= limit
    requires forall a, b :: 0 <= a < b < |r.hits| ==> r.hits[a].key != r.hits[b].key
    requires forall a :: 0 <= a < |r.hits| && r.hits[a].key == key ==> r.hits[a].limit == limit && r.window == window
    ensures InWindow(Times(After(log, r.hits, r.window, r.at), key), window, t) <= limit
  {
    if Verdict(log, r.hits, r.window, r.at).None? {
      StampTimes(log, r.hits, r.at, key);
      if a :| 0 <= a < |r.hits| && r.hits[a].key == key {
        NotFull(log, r.hits, r.window, r.at, a);
        OneMoreTime(Times(log, key), r.at, window, t, limit);
      }
    }
  }

  /** No window of a key's length ever holds more accepted hits than its limit. */
  lemma {:induction false} NoWindowExceedsTheLimit(requests: seq<Request>, key: Key, window: int, limit: nat, t: int)
    requires Steady(requests, key, window, limit)
    ensures InWindow(Times(Replay([], requests), key), window, t) <= limit
    decreases |requests|
  {
    if requests != [] {
      var n := |requests| - 1;
      NoWindowExceedsTheLimit(requests[..n], key, window, limit, t);
      OneMoreRequest(Replay([], requests[..n]), requests[n], key, window, limit, t);
    }
  }

  // ---------------------------------------------------------------------
  // The same, said of the log's entries

  /** The key's accepted hits no older than the window. */
  function Hits(log: Log, key: Key, window: int, now: int): set<nat> {
    set i: nat | i < |log| && log[i].0 == key && now - log[i].1 <= window
  }

  function HitsUpTo(log: Log, key: Key, window: int, t: int): set<nat> {
    set i: nat | i < |log| && log[i].0 == key && t - window <= log[i].1 <= t
  }

  lemma {:induction false} HitsCount(log: Log, key: Key, window: int, now: int)
    ensures |Recent(Times(log, key), window, now)| == |Hits(log, key, window, now)|
  {
    if log != [] {
      var n := |log| - 1;
      var before, all := Hits(log[..n], key, window, now), Hits(log, key, window, now);
      HitsCount(log[..n], key, window, now);
      assert n !in before && all == before + if n in all then {n} else {};
      LastTime(log, key);
    }
  }

  lemma LastTime(log: Log, key: Key)
    requires log != []
    ensures var times, n := Times(log, key), |log| - 1;
      if log[n].0 == key then
        times != [] && times[..|times| - 1] == Times(log[..n], key) && times[|times| - 1] == log[n].1
      else times == Times(log[..n], key)
  {
  }

  lemma {:induction false} HitsUpToCount(log: Log, key: Key, window: int, t: int)
    ensures InWindow(Times(log, key), window, t) == |HitsUpTo(log, key, window, t)|
  {
    if log != [] {
      var n := |log| - 1;
      var before, all := HitsUpTo(log[..n], key, window, t), HitsUpTo(log, key, window, t);
      HitsUpToCount(log[..n], key, window, t);
      assert n !in before && all == before + if n in all then {n} else {};
      LastTime(log, key);
    }
  }

  /** Who is let through: a request whose every key has fewer accepted hits in the window
      than its limit, and then each of its keys counts one more, now. Any other is refused
      for the first key without room, and counts nothing. */
  lemma {:induction false} WhoIsLetThrough(log: Log, hits: seq<Hit>, window: int, now: int)
    ensures match Verdict(log, hits, window, now)
      case None =>
        && (forall a :: 0 <= a < |hits| ==> |Hits(log, hits[a].key, window, now)| < hits[a].limit)
        && After(log, hits, window, now) == log + seq(|hits|, i requires 0 <= i < |hits| => (hits[i].key, now))
      case Some(key) =>
        && (exists a :: 0 <= a < |hits| && hits[a].key == key && |Hits(log, key, window, now)| >= hits[a].limit
              && forall b :: 0 <= b < a ==> |Hits(log, hits[b].key, window, now)| < hits[b].limit)
        && After(log, hits, window, now) == log
  {
    if hits != [] {
      HitsCount(log, hits[0].key, window, now);
      if !Full(log, hits[0], window, now) {
        WhoIsLetThrough(log, hits[1..], window, now);
        LetThroughLater(log, hits, window, now);
      }
    }
  }

  lemma LetThroughLater(log: Log, hits: seq<Hit>, window: int, now: int)
    requires hits != [] && |Hits(log, hits[0].key, window, now)| < hits[0].limit
    requires Verdict(log, hits, window, now) == Verdict(log, hits[1..], window, now)
    requires match Verdict(log, hits[1..], window, now)
      case None => forall a :: 0 <= a < |hits[1..]| ==> |Hits(log, hits[1..][a].key, window, now)| < hits[1..][a].limit
      case Some(key) =>
        exists a :: 0 <= a < |hits[1..]| && hits[1..][a].key == key
          && |Hits(log, key, window, now)| >= hits[1..][a].limit
          && forall b :: 0 <= b < a ==> |Hits(log, hits[1..][b].key, window, now)| < hits[1..][b].limit
    ensures match Verdict(log, hits, window, now)
      case None => forall a :: 0 <= a < |hits| ==> |Hits(log, hits[a].key, window, now)| < hits[a].limit
      case Some(key) =>
        exists a :: 0 <= a < |hits| && hits[a].key == key && |Hits(log, key, window, now)| >= hits[a].limit
          && forall b :: 0 <= b < a ==> |Hits(log, hits[b].key, window, now)| < hits[b].limit
  {
    var rest := hits[1..];
    assert forall a :: 0 < a < |hits| ==> hits[a] == rest[a - 1];
    match Verdict(log, hits, window, now)
    case None =>
    case Some(key) =>
      var a :| 0 <= a < |rest| && rest[a].key == key && |Hits(log, key, window, now)| >= rest[a].limit
        && forall b :: 0 <= b < a ==> |Hits(log, rest[b].key, window, now)| < rest[b].limit;
      assert hits[a + 1] == rest[a];
  }

  /** No stretch of a key's window ever holds more accepted hits than its limit, counted in
      the log itself. */
  lemma NoWindowHoldsMore(requests: seq<Request>, key: Key, window: int, limit: nat, t: int)
    requires Steady(requests, key, window, limit)
    ensures |HitsUpTo(Replay([], requests), key, window, t)| <= limit
  {
    NoWindowExceedsTheLimit(requests, key, window, limit, t);
    HitsUpToCount(Replay([], requests), key, window, t);
  }
}
