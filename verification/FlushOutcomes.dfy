/** What one flush of digests does (app/digest.py), said of its queue and its records:
    who goes out and who is held, and what a delivery leaves behind. */
module FlushOutcomes {
  import opened Common
  import opened MailDelivery
  import opened MailBatch
  import opened MailLaws
  import opened MailOutcomes
  import opened DigestQueue
  import opened SeenLedger
  import opened DigestFlush

  // ---------------------------------------------------------------------
  // The daily windows

  lemma {:induction false} DailyAre(limits: seq<Limit>)
    ensures forall l :: l in Daily(limits) <==> l in limits && l.window >= 86400
  {
    if limits != [] {
      DailyAre(limits[1..]);
      assert limits == [limits[0]] + limits[1..];
    }
  }

  /** The provider has no window of a day or more. */
  predicate Unbounded(p: Provider) {
    forall l :: l in p.limits ==> l.window < 86400
  }

  lemma UnboundedIs(p: Provider)
    ensures Daily(p.limits) == [] <==> Unbounded(p)
  {
    DailyAre(p.limits);
    if Daily(p.limits) != [] {
      assert Daily(p.limits)[0] in Daily(p.limits);
    }
  }

  /** The room of the day is unknown as soon as one provider has no window of a day or
      more. */
  lemma WhenTheDayIsUnknown(claims: Claims, chain: seq<Provider>, now: int)
    ensures DailyRoom(claims, chain, now).None? <==> exists i :: 0 <= i < |chain| && Unbounded(chain[i])
  {
    forall i | 0 <= i < |chain| ensures Daily(chain[i].limits) == [] <==> Unbounded(chain[i]) {
      UnboundedIs(chain[i]);
    }
  }

  /** For one provider it is that of its tightest window of a day or more, and for two
      chains the sum. */
  lemma TheRoomOfTheDay(claims: Claims, p: Provider, now: int)
    requires !Unbounded(p)
    ensures var room := DailyRoom(claims, [p], now);
      && room.Some?
      && (forall l :: l in p.limits && l.window >= 86400 ==>
            room.value <= Max(0, l.max - |SentWithin(claims, p.name, l.window, now)|))
      && exists l :: l in p.limits && l.window >= 86400
                     && room.value == Max(0, l.max - |SentWithin(claims, p.name, l.window, now)|)
  {
    UnboundedIs(p);
    DailyAre(p.limits);
    RoomIsTheTightestWindow(claims, p.name, Daily(p.limits), now);
    var daily := p.(limits := Daily(p.limits));
    assert DailyChain([p]) == [daily];
    PoolRoomAdds(claims, [daily], [], now);
  }

  lemma TheDaysRoomAdds(claims: Claims, a: seq<Provider>, b: seq<Provider>, now: int)
    ensures var x, y, both := DailyRoom(claims, a, now), DailyRoom(claims, b, now), DailyRoom(claims, a + b, now);
      (both.Some? <==> x.Some? && y.Some?) && (both.Some? ==> both.value == x.value + y.value)
  {
    if i :| 0 <= i < |a| && Daily(a[i].limits) == [] {
      assert (a + b)[i] == a[i];
    }
    if i :| 0 <= i < |b| && Daily(b[i].limits) == [] {
      assert (a + b)[|a| + i] == b[i];
    }
    assert DailyChain(a + b) == DailyChain(a) + DailyChain(b);
    PoolRoomAdds(claims, DailyChain(a), DailyChain(b), now);
  }

  /** The pool's room is the providers' together. */
  lemma {:induction false} PoolRoomAdds(claims: Claims, a: seq<Provider>, b: seq<Provider>, now: int)
    ensures PoolRoom(claims, a + b, now) == PoolRoom(claims, a, now) + PoolRoom(claims, b, now)
    ensures forall p: Provider :: PoolRoom(claims, [p], now) == Room(claims, p.name, p.limits, now)
  {
    forall p: Provider ensures PoolRoom(claims, [p], now) == Room(claims, p.name, p.limits, now) {
      assert [p][1..] == [];
    }
    if a == [] {
      assert a + b == b;
    } else {
      assert (a + b)[1..] == a[1..] + b;
      PoolRoomAdds(claims, a[1..], b, now);
    }
  }

  // ---------------------------------------------------------------------
  // Who goes out

  /** The mails ahead of place j whose address may be mailed. */
  function MailsAhead(st: Post, failureCap: int, queue: seq<Item>, j: nat): set<nat>
    requires j <= |queue|
  {
    set i: nat | i < j && queue[i].Mail? && MayMail(st, failureCap, queue[i].mail.to)
  }

  lemma OneMoreAhead(st: Post, failureCap: int, queue: seq<Item>, j: nat)
    requires j < |queue|
    ensures var here := queue[j].Mail? && MayMail(st, failureCap, queue[j].mail.to);
      |MailsAhead(st, failureCap, queue, j + 1)| == |MailsAhead(st, failureCap, queue, j)| + if here then 1 else 0
  {
    var before, all := MailsAhead(st, failureCap, queue, j), MailsAhead(st, failureCap, queue, j + 1);
    assert j !in before && all == before + if j in all then {j} else {};
  }

  lemma {:induction false} AheadCount(st: Post, failureCap: int, queue: seq<Item>, j: nat)
    requires j <= |queue|
    ensures Ahead(queue, Dead(st, failureCap), j) == |MailsAhead(st, failureCap, queue, j)|
  {
    if j == 0 {
      assert MailsAhead(st, failureCap, queue, 0) == {};
    } else {
      AheadCount(st, failureCap, queue, j - 1);
      AheadStep(queue, Dead(st, failureCap), j - 1);
      OneMoreAhead(st, failureCap, queue, j - 1);
      if queue[j - 1].Mail? {
        WhoIsDead(st, failureCap, queue[j - 1].mail.to);
      }
    }
  }

  /** Who goes out. A push digest is held only while the daily windows leave more room than
      the pool has, and then if more mails stand ahead of it than the pool takes. A mail
      is kept back only from the daily windows' last places, those of the headroom: if
      as many mails stand ahead of it as there are places before those. */
  lemma WhoGoesOut(st: Post, queue: seq<Item>, chain: seq<Provider>, failureCap: int, headroom: nat, j: nat)
    requires DistinctItems(queue) && j < |queue|
    ensures var plan := Planned(st, queue, chain, failureCap, headroom);
            var pool, day := PoolRoom(st.claims, chain, st.now), DailyRoom(st.claims, chain, st.now);
            var ahead := |MailsAhead(st, failureCap, queue, j)|;
      match queue[j]
      case Push(key) => key in plan.pushes <==> (day.Some? && day.value <= pool) || ahead <= pool
      case Mail(mail) =>
        && (mail in plan.mails <==>
              || headroom == 0 || day.None? || !MayMail(st, failureCap, mail.to)
              || ahead + headroom < day.value)
        && (mail.key in plan.kept <==> mail !in plan.mails)
  {
    var dead, day := Dead(st, failureCap), DailyRoom(st.claims, chain, st.now);
    var pool := PoolRoom(st.claims, chain, st.now);
    AheadCount(st, failureCap, queue, j);
    match queue[j]
    case Push(key) =>
      OwnPushKey(queue, dead, pool, j);
      assert queue[j] in queue;
      forall i | i in queue && i.Push? && i.key == key ensures i == queue[j] {
        SameKeySameItem(queue, j, i);
      }
    case Mail(mail) =>
      WhoIsDead(st, failureCap, mail.to);
      MailsOfAPlan(queue, PastHeadroom(queue, dead, day, headroom), j);
      if headroom > 0 && day.Some? {
        OwnKeyDecides(queue, dead, Max(0, day.value - headroom), j);
      }
  }

  lemma SameKeySameItem(queue: seq<Item>, j: nat, x: Item)
    requires DistinctItems(queue) && j < |queue| && x in queue && KeyOfItem(x) == KeyOfItem(queue[j])
    ensures x == queue[j]
  {
    var i :| 0 <= i < |queue| && queue[i] == x;
  }

  /** A mail of the queue is sent unless its key is held. */
  lemma MailsOfAPlan(queue: seq<Item>, held: set<Key>, j: nat)
    requires DistinctItems(queue) && j < |queue| && queue[j].Mail?
    ensures queue[j].mail in MailItems(queue, held) <==> queue[j].mail.key !in held
  {
    assert queue[..|queue|] == queue;
    MailItemsHold(queue, held, |queue|, queue[j].mail);
  }

  lemma {:induction false} MailItemsHold(queue: seq<Item>, held: set<Key>, n: nat, x: Outgoing)
    requires n <= |queue|
    ensures x in MailItems(queue[..n], held) <==> x.key !in held && exists i :: 0 <= i < n && queue[i] == Mail(x)
  {
    if n > 0 {
      MailItemsHold(queue, held, n - 1, x);
      MailItemsStep(queue, held, n - 1);
    }
  }

  // ---------------------------------------------------------------------
  // What a flush leaves behind

  /** What a subscriber's records become with a digest delivered to it. */
  function WithOneMore(rec: Records, q: Queued, now: int): (Option<int>, Option<nat>, Option<nat>, seq<(Id, int)>) {
    var (_, matched, streak, deliveries) := Own(rec, q.sub);
    (Some(now), if q.matched.Some? then q.matched else matched,
     Some(1 + if streak.Some? then streak.value else 0), deliveries + [(q.sub, now)])
  }

  lemma OwnAfterOne(rec: Records, q: Queued, now: int)
    ensures Own(RecordOne(rec, q, now), q.sub) == WithOneMore(rec, q, now)
  {
    RecordedOwn(rec, q, now);
  }

  /** A delivery counts one more digest of the subscriber's run, remembers when it was sent
      and what it matched if that was measured, and enters the log of deliveries. */
  lemma {:induction false} WhatADeliveryLeaves(rec: Records, queue: seq<Queued>, delivered: set<Key>, now: int, i: nat)
    requires OneEach(queue) && i < |queue| && KeyOfItem(queue[i].item) in delivered
    ensures Own(RecordDelivered(rec, queue, delivered, now), queue[i].sub) == WithOneMore(rec, queue[i], now)
    decreases |queue|
  {
    var n := |queue| - 1;
    var before := RecordDelivered(rec, queue[..n], delivered, now);
    if i == n {
      AHeldDigestChangesNothing(rec, queue[..n], delivered, now, queue[n].sub, "");
      OwnAfterOne(before, queue[n], now);
    } else {
      WhatADeliveryLeaves(rec, queue[..n], delivered, now, i);
      if KeyOfItem(queue[n].item) in delivered {
        RecordOneForAnother(before, queue[n], now, queue[i].sub, "");
      }
    }
  }

  lemma DeferralsOf(st: Post, items: seq<Outgoing>, chain: seq<Provider>, cap: int)
    requires ValidChain(chain)
    ensures var o := Batch(st, items, chain, cap); o.post.deferrals == st.deferrals + |o.deferred|
  {
    WhatABatchRecords(st, items, chain, cap);
  }

  /** What the mail half of a flush counts as deferred: what it kept back, and what its
      batch left waiting. A batch that raises reports nothing delivered. */
  lemma WhatAFlushDefers(st: Post, plan: Plan, chain: seq<Provider>, failureCap: int, broken: Option<Post>)
    requires ValidChain(chain)
    ensures var half := MailHalfOf(st, plan, chain, failureCap, broken);
      if broken.Some? && plan.mails != [] then half == MailHalf(broken.value, {}, true)
      else
        var o := Batch(st.(deferrals := st.deferrals + |plan.kept|), plan.mails, chain, failureCap);
        && !half.raised && half.post == o.post && half.delivered == Keys(o.sent)
        && half.post.deferrals == st.deferrals + |plan.kept| + |o.deferred|
  {
    DeferralsOf(st.(deferrals := st.deferrals + |plan.kept|), plan.mails, chain, failureCap);
  }
}
