/** The rolling daily cap of a subscriber (app/cycle.py). */
module DigestCap {
  import opened Common
  import opened Text
  import opened DigestQueue
  import opened DigestFlush
  import opened SeenLedger

  // `subscriber_cap`, `cap_for`, the check in `run_cycle` and `digests_in_window`: counted
  // when a digest is staged, kept after the flush.

  /** MAX_DIGESTS_PER_SUBSCRIBER_PER_DAY, MAIL_CAP_UNDER_PRESSURE and
      MAIL_POOL_PRESSURE_PCT; 0 turns the first off, and either other one. */
  datatype CapConfig = CapConfig(ordinary: nat, underPressure: nat, pressurePct: nat)

  /** The mail cap of a cycle, and whether the pool's pressure tightened it. */
  function SubscriberCap(cfg: CapConfig, used: nat, pool: nat): (nat, bool) {
    if cfg.ordinary == 0 || cfg.underPressure == 0 || cfg.pressurePct == 0 || cfg.underPressure >= cfg.ordinary
    then (cfg.ordinary, false)
    else if pool != 0 && used * 100 >= pool * cfg.pressurePct then (cfg.underPressure, true)
    else (cfg.ordinary, false)
  }

  function CapFor(cfg: CapConfig, push: bool, mailCap: nat): nat {
    if push then cfg.ordinary else mailCap
  }

  /** Pressure never lifts the cap, never turns it off, and never makes one where the
      operator set none. */
  lemma PressureOnlyTightens(cfg: CapConfig, used: nat, pool: nat, push: bool)
    ensures var c := CapFor(cfg, push, SubscriberCap(cfg, used, pool).0);
      c <= cfg.ordinary && (c == 0 <==> cfg.ordinary == 0)
  {
  }

  // ---------------------------------------------------------------------
  // Counting

  /** Entries after `since` and up to `upTo`. */
  function Within(log: seq<(Id, int)>, since: int, upTo: int): nat {
    if log == [] then 0
    else Within(log[..|log| - 1], since, upTo) + (if since < log[|log| - 1].1 <= upTo then 1 else 0)
  }

  /** The 24 hours up to t. */
  function InDay(log: seq<(Id, int)>, t: int): nat {
    Within(log, t - DAY, t)
  }

  /** Digests delivered to a subscriber in the last 24 hours: the query sets no upper
      bound. */
  function DigestsInWindow(log: seq<(Id, int)>, sub: Id, now: int): nat {
    After24h(DeliveriesTo(log, sub), now - DAY)
  }

  function After24h(log: seq<(Id, int)>, since: int): nat {
    if log == [] then 0
    else After24h(log[..|log| - 1], since) + (if since < log[|log| - 1].1 then 1 else 0)
  }

  lemma {:induction false} NoMoreThanSince(log: seq<(Id, int)>, since: int, from: int, upTo: int)
    requires since <= from
    ensures Within(log, from, upTo) <= After24h(log, since)
  {
    if log != [] {
      NoMoreThanSince(log[..|log| - 1], since, from, upTo);
    }
  }

  // ---------------------------------------------------------------------
  // Staging

  /** The check in `run_cycle`, for a digest that is there to be sent. */
  predicate WithinCap(rec: Records, cfg: CapConfig, mailCap: nat, at: int, q: Queued) {
    var cap := CapFor(cfg, q.item.Push?, mailCap);
    cap == 0 || DigestsInWindow(rec.deliveries, q.sub, at) < cap
  }

  /** The digests that are staged, in order. */
  function StagedOf(rec: Records, cfg: CapConfig, mailCap: nat, at: int, digests: seq<Queued>): seq<Queued> {
    if digests == [] then []
    else
      var (before, last) := (StagedOf(rec, cfg, mailCap, at, digests[..|digests| - 1]), digests[|digests| - 1]);
      if WithinCap(rec, cfg, mailCap, at, last) then before + [last] else before
  }

  /** The loop over the subscribers that have something to be told: a digest at its cap
      is held and counted, any other staged. */
  method Stage(rec: Records, cfg: CapConfig, used: nat, pool: nat, at: int, digests: seq<Queued>)
    returns (outbox: seq<Queued>, holds: nat)
    ensures outbox == StagedOf(rec, cfg, SubscriberCap(cfg, used, pool).0, at, digests)
    ensures holds + |outbox| == |digests|
  {
    var (mailCap, _) := SubscriberCap(cfg, used, pool);
    outbox, holds := [], 0;
    var i := 0;
    while i < |digests|
      invariant 0 <= i <= |digests| && holds + |outbox| == i
      invariant outbox == StagedOf(rec, cfg, mailCap, at, digests[..i])
    {
      assert digests[..i + 1][..i] == digests[..i];
      var cap := CapFor(cfg, digests[i].item.Push?, mailCap);
      if cap != 0 && DigestsInWindow(rec.deliveries, digests[i].sub, at) >= cap {
        holds := holds + 1;
      } else {
        outbox := outbox + [digests[i]];
      }
      i := i + 1;
    }
    assert digests[..i] == digests;
  }

  /** Exactly those within their cap are staged, each subscriber once. */
  lemma {:induction false} StagedAre(rec: Records, cfg: CapConfig, mailCap: nat, at: int, digests: seq<Queued>)
    ensures forall q :: q in StagedOf(rec, cfg, mailCap, at, digests) <==>
              q in digests && WithinCap(rec, cfg, mailCap, at, q)
    ensures OneEach(digests) ==> OneEach(StagedOf(rec, cfg, mailCap, at, digests))
  {
    if digests != [] {
      var n := |digests| - 1;
      StagedAre(rec, cfg, mailCap, at, digests[..n]);
      assert digests == digests[..n] + [digests[n]];
      var before := StagedOf(rec, cfg, mailCap, at, digests[..n]);
      if OneEach(digests) {
        assert OneEach(digests[..n]);
        forall i | 0 <= i < |before| ensures before[i].sub != digests[n].sub {
          assert before[i] in before;
          var j :| 0 <= j < n && digests[..n][j] == before[i];
          assert digests[j].sub != digests[n].sub;
        }
      }
    }
  }

  /** Nobody in the queue is the digest's subscriber. */
  predicate Apart(q: Queued, queue: seq<Queued>) {
    forall x :: x in queue ==> x.sub != q.sub
  }

  lemma OneMoreEach(q: Queued, queue: seq<Queued>)
    ensures OneEach([q] + queue) <==> OneEach(queue) && Apart(q, queue)
  {
    var all := [q] + queue;
    assert forall i :: 0 <= i < |queue| ==> all[i + 1] == queue[i];
    if OneEach(all) {
      forall i, j | 0 <= i < j < |queue| ensures queue[i].sub != queue[j].sub {
        assert all[i + 1].sub != all[j + 1].sub;
      }
      forall x | x in queue ensures x.sub != q.sub {
        var i :| 0 <= i < |queue| && queue[i] == x;
        assert all[0].sub != all[i + 1].sub;
      }
    }
  }

  lemma {:induction false} EnqueueKeepsOne(q: Queued, queue: seq<Queued>)
    requires OneEach(queue) && Apart(q, queue)
    ensures OneEach(Enqueue(q, queue))
  {
    if queue == [] || !LexLess(queue[0].waiting, q.waiting) {
      OneMoreEach(q, queue);
    } else {
      var rest := queue[1..];
      assert queue == [queue[0]] + rest;
      OneMoreEach(queue[0], rest);
      EnqueueKeepsOne(q, rest);
      EnqueueKeepsAll(q, rest);
      assert q.sub != queue[0].sub;
      OneMoreEach(queue[0], Enqueue(q, rest));
    }
  }

  lemma EnqueueHolds(q: Queued, queue: seq<Queued>)
    ensures forall x :: x in Enqueue(q, queue) <==> x == q || x in queue
  {
    EnqueueKeepsAll(q, queue);
    forall x | x == q || x in queue ensures x in Enqueue(q, queue) {
      assert x in [q] + queue;
      assert x in multiset([q] + queue) && x in multiset(Enqueue(q, queue));
    }
  }

  lemma {:induction false} SortingKeepsOne(sink: seq<Queued>)
    ensures OneEach(sink) ==> OneEach(LongestWaiting(sink))
    ensures forall q :: q in LongestWaiting(sink) <==> q in sink
  {
    if sink != [] {
      var rest := sink[1..];
      SortingKeepsOne(rest);
      assert sink == [sink[0]] + rest;
      EnqueueHolds(sink[0], LongestWaiting(rest));
      OneMoreEach(sink[0], rest);
      if OneEach(sink) {
        EnqueueKeepsOne(sink[0], LongestWaiting(rest));
      }
    }
  }

  // ---------------------------------------------------------------------
  // Runs of cycles

  /** One cycle of the one poller: who has something to be told, and what; the cap is
      looked up and checked at `at`, the flush records at `done`. What the mail providers
      and the push relay deliver is arbitrary; so is the pool's pressure. */
  datatype Cycle = Cycle(at: int, digests: seq<Queued>, used: nat, pool: nat, delivered: set<nat>, done: int)

  /** What the flush finds in its queue. */
  function QueueOf(rec: Records, cfg: CapConfig, c: Cycle): seq<Queued> {
    LongestWaiting(StagedOf(rec, cfg, SubscriberCap(cfg, c.used, c.pool).0, c.at, c.digests))
  }

  function AfterCycle(rec: Records, cfg: CapConfig, c: Cycle): Records {
    RecordDelivered(rec, QueueOf(rec, cfg, c), c.delivered, c.done)
  }

  function AfterCycles(rec: Records, cfg: CapConfig, cycles: seq<Cycle>): Records
    decreases |cycles|
  {
    if cycles == [] then rec else AfterCycles(AfterCycle(rec, cfg, cycles[0]), cfg, cycles[1..])
  }

  /** One poller: a cycle starts when the one before it has recorded, and looks at each
      subscriber once. */
  predicate CycleRun(cycles: seq<Cycle>, since: int)
    decreases |cycles|
  {
    cycles != [] ==>
      && since <= cycles[0].at <= cycles[0].done && OneEach(cycles[0].digests)
      && CycleRun(cycles[1..], cycles[0].done)
  }

  /** The queue holds exactly the digests within their cap, each subscriber once. */
  lemma QueueIsWithinCap(rec: Records, cfg: CapConfig, c: Cycle)
    requires OneEach(c.digests)
    ensures OneEach(QueueOf(rec, cfg, c))
    ensures forall q :: q in QueueOf(rec, cfg, c) <==>
              q in c.digests && WithinCap(rec, cfg, SubscriberCap(cfg, c.used, c.pool).0, c.at, q)
  {
    var mailCap := SubscriberCap(cfg, c.used, c.pool).0;
    StagedAre(rec, cfg, mailCap, c.at, c.digests);
    SortingKeepsOne(StagedOf(rec, cfg, mailCap, c.at, c.digests));
  }

  /** No 24 hours hold more than the ordinary cap. */
  ghost predicate Capped(log: seq<(Id, int)>, cap: nat) {
    forall t: int :: InDay(log, t) <= cap
  }

  lemma OneMoreDigest(log: seq<(Id, int)>, cap: nat, sub: Id, at: int, done: int)
    requires Capped(log, cap) && at <= done && After24h(log, at - DAY) < cap
    ensures Capped(log + [(sub, done)], cap)
  {
    var after := log + [(sub, done)];
    assert after[..|log|] == log;
    forall t: int ensures InDay(after, t) <= cap {
      if done <= t {
        NoMoreThanSince(log, at - DAY, t - DAY, t);
      }
      assert InDay(log, t) <= cap;
    }
  }

  lemma DeliveringKeepsTheCap(rec: Records, cfg: CapConfig, c: Cycle, i: nat)
    requires cfg.ordinary > 0 && OneEach(c.digests) && c.at <= c.done
    requires i < |QueueOf(rec, cfg, c)| && KeyOfItem(QueueOf(rec, cfg, c)[i].item) in c.delivered
    requires Capped(DeliveriesTo(rec.deliveries, QueueOf(rec, cfg, c)[i].sub), cfg.ordinary)
    ensures Capped(DeliveriesTo(AfterCycle(rec, cfg, c).deliveries, QueueOf(rec, cfg, c)[i].sub), cfg.ordinary)
  {
    var queue := QueueOf(rec, cfg, c);
    QueueIsWithinCap(rec, cfg, c);
    assert queue[i] in queue;
    ADeliveredDigestIsRecorded(rec, queue, c.delivered, c.done, i);
    PressureOnlyTightens(cfg, c.used, c.pool, queue[i].item.Push?);
    OneMoreDigest(DeliveriesTo(rec.deliveries, queue[i].sub), cfg.ordinary, queue[i].sub, c.at, c.done);
  }

  lemma CycleKeepsTheCap(rec: Records, cfg: CapConfig, c: Cycle, sub: Id)
    requires cfg.ordinary > 0 && OneEach(c.digests) && c.at <= c.done
    requires Capped(DeliveriesTo(rec.deliveries, sub), cfg.ordinary)
    ensures Capped(DeliveriesTo(AfterCycle(rec, cfg, c).deliveries, sub), cfg.ordinary)
  {
    var queue := QueueOf(rec, cfg, c);
    QueueIsWithinCap(rec, cfg, c);
    if i :| 0 <= i < |queue| && queue[i].sub == sub && KeyOfItem(queue[i].item) in c.delivered {
      DeliveringKeepsTheCap(rec, cfg, c, i);
    } else {
      AHeldDigestChangesNothing(rec, queue, c.delivered, c.done, sub, "");
    }
  }

  lemma {:induction false} CyclesKeepTheCap(rec: Records, cfg: CapConfig, cycles: seq<Cycle>, since: int, sub: Id)
    requires cfg.ordinary > 0 && CycleRun(cycles, since)
    requires Capped(DeliveriesTo(rec.deliveries, sub), cfg.ordinary)
    ensures Capped(DeliveriesTo(AfterCycles(rec, cfg, cycles).deliveries, sub), cfg.ordinary)
    decreases |cycles|
  {
    if cycles != [] {
      CycleKeepsTheCap(rec, cfg, cycles[0], sub);
      CyclesKeepTheCap(AfterCycle(rec, cfg, cycles[0]), cfg, cycles[1..], cycles[0].done, sub);
    }
  }

  const NOTHING := Records(map[], map[], map[], map[], [])

  /** Over any run of cycles, whatever there is to tell, whatever the providers deliver
      and however the pressure cap moves, no 24 hours hold more than the ordinary cap of
      one subscriber's digests. */
  lemma NoDayHoldsMoreThanTheCap(cfg: CapConfig, cycles: seq<Cycle>, since: int, sub: Id, t: int)
    requires cfg.ordinary > 0 && CycleRun(cycles, since)
    ensures InDay(DeliveriesTo(AfterCycles(NOTHING, cfg, cycles).deliveries, sub), t) <= cfg.ordinary
  {
    var none: seq<(Id, int)> := [];
    assert forall u :: InDay(none, u) == 0;
    CyclesKeepTheCap(NOTHING, cfg, cycles, since, sub);
  }

  /** A subscriber at the cap of its own channel, the pressure cap for mail, is not
      staged: nothing is delivered, and nothing recorded changes. Anyone below it is. */
  lemma HeldForTheCap(rec: Records, cfg: CapConfig, c: Cycle, q: Queued, key: string)
    requires OneEach(c.digests) && q in c.digests
    ensures var cap := CapFor(cfg, q.item.Push?, SubscriberCap(cfg, c.used, c.pool).0);
            var after := AfterCycle(rec, cfg, c);
      if 0 < cap <= DigestsInWindow(rec.deliveries, q.sub, c.at) then
        && Apart(q, QueueOf(rec, cfg, c))
        && Own(after, q.sub) == Own(rec, q.sub) && SameRow(after.seen, rec.seen, q.sub, key)
      else
        q in QueueOf(rec, cfg, c)
  {
    QueueIsWithinCap(rec, cfg, c);
    var queue := QueueOf(rec, cfg, c);
    if q !in queue {
      forall x | x in queue ensures x.sub != q.sub {
        var j :| 0 <= j < |c.digests| && c.digests[j] == x;
        var k :| 0 <= k < |c.digests| && c.digests[k] == q;
      }
      AHeldDigestChangesNothing(rec, queue, c.delivered, c.done, q.sub, key);
    }
  }

  // ---------------------------------------------------------------------
  // The same, said of the deliveries and the settings

  /** Mail is thinned out: all three settings are on, the pressure cap is the lower one,
      and the pool is used to the percentage or more. */
  predicate Thinned(cfg: CapConfig, used: nat, pool: nat) {
    && 0 < cfg.underPressure < cfg.ordinary && cfg.pressurePct > 0
    && pool > 0 && 100 * used >= cfg.pressurePct * pool
  }

  /** The subscriber's digests of the 24 hours before `at`. */
  function Recent(log: seq<(Id, int)>, sub: Id, at: int): set<nat> {
    set i: nat | i < |log| && log[i].0 == sub && at - log[i].1 < 86400
  }

  function Delivered(log: seq<(Id, int)>, sub: Id, since: int, upTo: int): set<nat> {
    set i: nat | i < |log| && log[i].0 == sub && since < log[i].1 <= upTo
  }

  lemma {:induction false} RecentCount(log: seq<(Id, int)>, sub: Id, at: int)
    ensures DigestsInWindow(log, sub, at) == |Recent(log, sub, at)|
  {
    if log != [] {
      var n := |log| - 1;
      var before, all := Recent(log[..n], sub, at), Recent(log, sub, at);
      RecentCount(log[..n], sub, at);
      assert n !in before && all == before + if n in all then {n} else {};
      DeliveriesLast(log, sub);
    }
  }

  lemma DeliveriesLast(log: seq<(Id, int)>, sub: Id)
    requires log != []
    ensures var to, n := DeliveriesTo(log, sub), |log| - 1;
      if log[n].0 == sub then
        to != [] && to[..|to| - 1] == DeliveriesTo(log[..n], sub) && to[|to| - 1] == log[n]
      else to == DeliveriesTo(log[..n], sub)
  {
  }

  lemma {:induction false} DeliveredCount(log: seq<(Id, int)>, sub: Id, since: int, upTo: int)
    ensures Within(DeliveriesTo(log, sub), since, upTo) == |Delivered(log, sub, since, upTo)|
  {
    if log != [] {
      var n := |log| - 1;
      var before, all := Delivered(log[..n], sub, since, upTo), Delivered(log, sub, since, upTo);
      DeliveredCount(log[..n], sub, since, upTo);
      assert n !in before && all == before + if n in all then {n} else {};
      DeliveriesLast(log, sub);
    }
  }

  /** A cycle counts as thinned out exactly while mail is. */
  lemma WhenMailIsThinned(cfg: CapConfig, used: nat, pool: nat)
    ensures SubscriberCap(cfg, used, pool).1 <==> Thinned(cfg, used, pool)
  {
  }

  /** Who is staged. Without an ordinary cap everyone; else the app's subscriber whose
      last 24 hours hold fewer digests than that cap, and mail's the same unless mail is
      thinned out: then only one with fewer than the pressure cap. */
  lemma WhoIsStaged(rec: Records, cfg: CapConfig, c: Cycle, q: Queued)
    requires OneEach(c.digests) && q in c.digests
    ensures q in QueueOf(rec, cfg, c) <==>
              || cfg.ordinary == 0
              || |Recent(rec.deliveries, q.sub, c.at)|
                   < if q.item.Push? || !Thinned(cfg, c.used, c.pool) then cfg.ordinary else cfg.underPressure
  {
    QueueIsWithinCap(rec, cfg, c);
    RecentCount(rec.deliveries, q.sub, c.at);
  }

  /** Over any run of cycles no 24 hours hold more of one subscriber's digests than the
      ordinary cap, counted in the log of deliveries itself. */
  lemma NoDayHoldsMore(cfg: CapConfig, cycles: seq<Cycle>, since: int, sub: Id, t: int)
    requires cfg.ordinary > 0 && CycleRun(cycles, since)
    ensures |Delivered(AfterCycles(NOTHING, cfg, cycles).deliveries, sub, t - 86400, t)| <= cfg.ordinary
  {
    NoDayHoldsMoreThanTheCap(cfg, cycles, since, sub, t);
    DeliveredCount(AfterCycles(NOTHING, cfg, cycles).deliveries, sub, t - 86400, t);
  }
}
