/** `flush_digests` of app/digest.py in its own form: sort the queue, measure the two
    walls, send, and record what was delivered and nothing else. */
module DigestFlush {
  import opened Common
  import opened Text
  import opened MailDelivery
  import opened MailBatch
  import opened MailLaws
  import opened MailPool
  import opened Outbox
  import opened DigestQueue
  import opened SeenLedger

  /** A staged digest: `waiting` is the subscriber's last notification as text, ""
      for none yet. */
  datatype Queued = Queued(item: Item, sub: Id, waiting: string, keys: seq<SeenKey>, matched: Option<nat>)

  /** What deliveries leave behind: the seen ledger, and per subscriber the last
      notification, its match count, the unbroken run, and every digest delivered. */
  datatype Records = Records(seen: Ledger, notified: map<Id, int>, matched: map<Id, nat>,
                             streak: map<Id, nat>, deliveries: seq<(Id, int)>)

  function Items(queue: seq<Queued>): (r: seq<Item>)
    ensures |r| == |queue| && forall i :: 0 <= i < |queue| ==> r[i] == queue[i].item
  {
    seq(|queue|, i requires 0 <= i < |queue| => queue[i].item)
  }

  // ---------------------------------------------------------------------
  // Longest-waiting first

  function Enqueue(q: Queued, queue: seq<Queued>): seq<Queued> {
    if queue == [] || !LexLess(queue[0].waiting, q.waiting) then [q] + queue
    else [queue[0]] + Enqueue(q, queue[1..])
  }

  function LongestWaiting(sink: seq<Queued>): seq<Queued> {
    if sink == [] then [] else Enqueue(sink[0], LongestWaiting(sink[1..]))
  }

  predicate InWaitingOrder(queue: seq<Queued>) {
    forall i, j :: 0 <= i < j < |queue| ==> AtMost(queue[i].waiting, queue[j].waiting)
  }

  lemma {:induction false} EnqueueKeepsAll(q: Queued, queue: seq<Queued>)
    ensures multiset(Enqueue(q, queue)) == multiset([q] + queue)
    ensures forall x :: x in Enqueue(q, queue) ==> x == q || x in queue
  {
    if queue != [] && LexLess(queue[0].waiting, q.waiting) {
      EnqueueKeepsAll(q, queue[1..]);
      assert queue == [queue[0]] + queue[1..];
    }
  }

  lemma {:induction false} EnqueueKeepsOrder(q: Queued, queue: seq<Queued>)
    requires InWaitingOrder(queue)
    ensures InWaitingOrder(Enqueue(q, queue))
  {
    if queue == [] || !LexLess(queue[0].waiting, q.waiting) {
      forall j | 0 <= j < |queue| ensures AtMost(q.waiting, queue[j].waiting) {
        if j > 0 {
          AtMostTransitive(q.waiting, queue[0].waiting, queue[j].waiting);
        }
      }
    } else {
      var rest := Enqueue(q, queue[1..]);
      EnqueueKeepsOrder(q, queue[1..]);
      EnqueueKeepsAll(q, queue[1..]);
      LexAsymmetric(queue[0].waiting, q.waiting);
      forall j | 0 <= j < |rest| ensures AtMost(queue[0].waiting, rest[j].waiting) {
        assert rest[j] in rest;
      }
    }
  }

  lemma {:induction false} QueueIsSorted(sink: seq<Queued>)
    ensures InWaitingOrder(LongestWaiting(sink)) && multiset(LongestWaiting(sink)) == multiset(sink)
  {
    if sink != [] {
      QueueIsSorted(sink[1..]);
      EnqueueKeepsOrder(sink[0], LongestWaiting(sink[1..]));
      EnqueueKeepsAll(sink[0], LongestWaiting(sink[1..]));
      assert sink == [sink[0]] + sink[1..];
    }
  }

  // ---------------------------------------------------------------------
  // Recording

  function RecordOne(rec: Records, q: Queued, now: int): Records {
    Records(RecordAll(rec.seen, q.sub, q.keys, now),
            rec.notified[q.sub := now],
            if q.matched.Some? then rec.matched[q.sub := q.matched.value] else rec.matched,
            rec.streak[q.sub := 1 + if q.sub in rec.streak then rec.streak[q.sub] else 0],
            rec.deliveries + [(q.sub, now)])
  }

  function RecordDelivered(rec: Records, queue: seq<Queued>, delivered: set<Key>, now: int): Records {
    if queue == [] then rec
    else
      var before := RecordDelivered(rec, queue[..|queue| - 1], delivered, now);
      var last := queue[|queue| - 1];
      if KeyOfItem(last.item) in delivered then RecordOne(before, last, now) else before
  }

  /** What a subscriber's own records are. */
  function Own(rec: Records, sub: Id): (Option<int>, Option<nat>, Option<nat>, seq<(Id, int)>) {
    (if sub in rec.notified then Some(rec.notified[sub]) else None,
     if sub in rec.matched then Some(rec.matched[sub]) else None,
     if sub in rec.streak then Some(rec.streak[sub]) else None,
     DeliveriesTo(rec.deliveries, sub))
  }

  function DeliveriesTo(log: seq<(Id, int)>, sub: Id): seq<(Id, int)> {
    if log == [] then []
    else
      var before := DeliveriesTo(log[..|log| - 1], sub);
      if log[|log| - 1].0 == sub then before + [log[|log| - 1]] else before
  }

  lemma RecordStep(rec: Records, queue: seq<Queued>, delivered: set<Key>, now: int, i: nat)
    requires i < |queue|
    ensures RecordDelivered(rec, queue[..i + 1], delivered, now) ==
              if KeyOfItem(queue[i].item) in delivered then
                RecordOne(RecordDelivered(rec, queue[..i], delivered, now), queue[i], now)
              else RecordDelivered(rec, queue[..i], delivered, now)
  {
    assert queue[..i + 1][..i] == queue[..i];
  }

  lemma {:induction false} OtherRows(led: Ledger, sub: Id, keys: seq<SeenKey>, now: int, who: Id, key: string)
    requires who != sub
    ensures (who, key) in RecordAll(led, sub, keys, now) <==> (who, key) in led
    ensures (who, key) in led ==> RecordAll(led, sub, keys, now)[(who, key)] == led[(who, key)]
    decreases |keys|
  {
    if keys != [] {
      OtherRows(Record(led, sub, keys[0], now), sub, keys[1..], now, who, key);
    }
  }

  predicate SameRow(a: Ledger, b: Ledger, sub: Id, key: string) {
    ((sub, key) in a <==> (sub, key) in b) && ((sub, key) in a ==> a[(sub, key)] == b[(sub, key)])
  }

  lemma RecordOneForAnother(rec: Records, q: Queued, now: int, sub: Id, key: string)
    requires q.sub != sub
    ensures Own(RecordOne(rec, q, now), sub) == Own(rec, sub)
    ensures SameRow(RecordOne(rec, q, now).seen, rec.seen, sub, key)
  {
    OtherRows(rec.seen, q.sub, q.keys, now, sub, key);
    assert (rec.deliveries + [(q.sub, now)])[..|rec.deliveries|] == rec.deliveries;
  }

  /** A digest that is held or deferred leaves no trace: whoever had nothing
      delivered keeps every record as it was, so the next cycle sees them as before. */
  lemma {:induction false} AHeldDigestChangesNothing(rec: Records, queue: seq<Queued>, delivered: set<Key>, now: int,
                                                     sub: Id, key: string)
    requires forall i :: 0 <= i < |queue| && queue[i].sub == sub ==> KeyOfItem(queue[i].item) !in delivered
    ensures Own(RecordDelivered(rec, queue, delivered, now), sub) == Own(rec, sub)
    ensures SameRow(RecordDelivered(rec, queue, delivered, now).seen, rec.seen, sub, key)
  {
    if queue != [] {
      var n := |queue| - 1;
      AHeldDigestChangesNothing(rec, queue[..n], delivered, now, sub, key);
      if KeyOfItem(queue[n].item) in delivered {
        RecordOneForAnother(RecordDelivered(rec, queue[..n], delivered, now), queue[n], now, sub, key);
      }
    }
  }

  predicate OneEach(queue: seq<Queued>) {
    forall i, j :: 0 <= i < j < |queue| ==> queue[i].sub != queue[j].sub
  }

  lemma RecordedOwn(rec: Records, q: Queued, now: int)
    ensures var after := RecordOne(rec, q, now);
      && after.notified[q.sub] == now
      && DeliveriesTo(after.deliveries, q.sub) == DeliveriesTo(rec.deliveries, q.sub) + [(q.sub, now)]
      && forall i :: 0 <= i < |q.keys| ==> Seen(after.seen, q.sub, q.keys[i])
  {
    assert (rec.deliveries + [(q.sub, now)])[..|rec.deliveries|] == rec.deliveries;
    forall i | 0 <= i < |q.keys| ensures Seen(RecordAll(rec.seen, q.sub, q.keys, now), q.sub, q.keys[i]) {
      AllRecordedAreSeen(rec.seen, q.sub, q.keys, q.keys[i], now);
    }
  }

  /** A delivered digest is recorded whole: every key of it is seen, the subscriber
      stamped, and exactly one delivery counted. */
  lemma {:induction false} ADeliveredDigestIsRecorded(rec: Records, queue: seq<Queued>, delivered: set<Key>, now: int,
                                                      i: nat)
    requires OneEach(queue) && i < |queue| && KeyOfItem(queue[i].item) in delivered
    ensures var after := RecordDelivered(rec, queue, delivered, now);
      && queue[i].sub in after.notified && after.notified[queue[i].sub] == now
      && DeliveriesTo(after.deliveries, queue[i].sub)
          == DeliveriesTo(rec.deliveries, queue[i].sub) + [(queue[i].sub, now)]
      && forall k :: 0 <= k < |queue[i].keys| ==> Seen(after.seen, queue[i].sub, queue[i].keys[k])
    decreases |queue|
  {
    var n := |queue| - 1;
    var before := RecordDelivered(rec, queue[..n], delivered, now);
    if i == n {
      AHeldDigestChangesNothing(rec, queue[..n], delivered, now, queue[n].sub, "");
      RecordedOwn(before, queue[n], now);
    } else {
      ADeliveredDigestIsRecorded(rec, queue[..n], delivered, now, i);
      if KeyOfItem(queue[n].item) in delivered {
        RecordOneForAnother(before, queue[n], now, queue[i].sub, "");
        forall k | 0 <= k < |queue[i].keys|
          ensures Seen(RecordOne(before, queue[n], now).seen, queue[i].sub, queue[i].keys[k])
        {
          RecordOneForAnother(before, queue[n], now, queue[i].sub, queue[i].keys[k].key);
        }
      }
    }
  }

  // ---------------------------------------------------------------------
  // Who is served has waited longest

  /** At the hourly wall, whoever the flush passes over has waited no longer than
      anyone it serves, on either channel. */
  lemma TheServedHaveWaitedLongest(st: Post, queue: seq<Queued>, chain: seq<Provider>, failureCap: int, headroom: nat,
                                   i: nat, j: nat)
    requires ValidChain(chain) && DistinctNames(chain) && AllAccept(chain) && FreshKeys(Items(queue), st.claims)
    requires InWaitingOrder(queue) && HourlyWallOnly(st, Items(queue), chain, failureCap, headroom)
    requires i < |queue| && j < |queue| && Waits(st, Items(queue), chain, failureCap, headroom, i)
    requires if queue[j].item.Push?
             then queue[j].item.key in Planned(st, Items(queue), chain, failureCap, headroom).pushes
             else Live(queue[j].item, Dead(st, failureCap)) && !Waits(st, Items(queue), chain, failureCap, headroom, j)
    ensures AtMost(queue[j].waiting, queue[i].waiting)
  {
    var items, dead := Items(queue), Dead(st, failureCap);
    if queue[j].item.Push? {
      NobodyOvertakesAtTheHourlyWall(st, items, chain, failureCap, headroom, j, 0);
    } else {
      DeliveredInOrder(st, items, chain, failureCap, headroom, i);
      DeliveredInOrder(st, items, chain, failureCap, headroom, j);
      if i < j {
        AheadGrows(items, dead, i, j);
      }
    }
    LexAsymmetric(queue[j].waiting, queue[i].waiting);
  }

  // ---------------------------------------------------------------------
  // The flush itself

  /** What was kept for confirmations counts as deferred. */
  function KeptBack(st: Post, plan: Plan): Post {
    st.(deferrals := st.deferrals + |plan.kept|)
  }

  function MailBatchOf(st: Post, plan: Plan, chain: seq<Provider>, failureCap: int): Outcome
    requires ValidChain(chain)
  {
    Batch(KeptBack(st, plan), plan.mails, chain, failureCap)
  }

  /** What the mail half of a flush leaves, and reports delivered. A batch that raises
      leaves the tables as they are then, `broken`, and reports nothing. */
  datatype MailHalf = MailHalf(post: Post, delivered: set<Key>, raised: bool)

  function MailHalfOf(st: Post, plan: Plan, chain: seq<Provider>, failureCap: int, broken: Option<Post>): MailHalf
    requires ValidChain(chain)
  {
    if broken.Some? && plan.mails != [] then MailHalf(broken.value, {}, true)
    else
      var o := MailBatchOf(st, plan, chain, failureCap);
      MailHalf(o.post, o.Delivered(), false)
  }

  class Desk {
    const box: Outbox
    var rec: Records

    constructor (box: Outbox)
      ensures this.box == box && rec == Records(map[], map[], map[], map[], [])
    {
      this.box := box;
      rec := Records(map[], map[], map[], map[], []);
    }

    /** `pool_room`: every provider's headroom, summed. */
    method PoolRoomNow(chain: seq<Provider>) returns (room: nat)
      ensures room == PoolRoom(box.claims, chain, box.now)
    {
      room := 0;
      var i := |chain|;
      while i > 0
        invariant 0 <= i <= |chain| && room == PoolRoom(box.claims, chain[i..], box.now)
      {
        i := i - 1;
        assert chain[i..][0] == chain[i] && chain[i..][1..] == chain[i + 1..];
        var here := box.Headroom(chain[i].name, chain[i].limits);
        room := here + room;
      }
      assert chain[0..] == chain;
    }

    method DailyRoomNow(chain: seq<Provider>) returns (room: Option<nat>)
      ensures room == DailyRoom(box.claims, chain, box.now)
    {
      var i := 0;
      while i < |chain|
        invariant 0 <= i <= |chain| && forall k :: 0 <= k < i ==> Daily(chain[k].limits) != []
      {
        if Daily(chain[i].limits) == [] {
          return None;
        }
        i := i + 1;
      }
      var total := PoolRoomNow(DailyChain(chain));
      return Some(total);
    }

    /** Push digests behind the first mail the pool does not take. */
    method BehindTheMailWall(queue: seq<Item>, dead: set<Address>, pool: nat, day: Option<nat>) returns (held: set<Key>)
      ensures held == BehindWall(queue, dead, pool, day)
    {
      if day.Some? && day.value <= pool {
        return {};
      }
      held := {};
      var room, walled, i := pool, false, 0;
      while i < |queue|
        invariant 0 <= i <= |queue|
        invariant room == Max(0, pool - Ahead(queue, dead, i)) && walled == (Ahead(queue, dead, i) > pool)
        invariant held == set j: nat | j < i && queue[j].Push? && Ahead(queue, dead, j) > pool :: queue[j].key
      {
        AheadStep(queue, dead, i);
        if queue[i].Push? {
          if walled {
            held := held + {queue[i].key};
          }
        } else if queue[i].mail.to !in dead {
          if room > 0 {
            room := room - 1;
          } else {
            walled := true;
          }
        }
        i := i + 1;
      }
    }

    /** Mails that would eat into the daily windows' last `headroom` places. */
    method PastTheHeadroom(queue: seq<Item>, dead: set<Address>, day: Option<nat>, headroom: nat)
      returns (held: set<Key>)
      ensures held == PastHeadroom(queue, dead, day, headroom)
    {
      held := {};
      if headroom == 0 || day.None? {
        return;
      }
      var free := Max(0, day.value - headroom);
      var room, i := free, 0;
      while i < |queue|
        invariant 0 <= i <= |queue|
        invariant room == Max(0, free - Ahead(queue, dead, i))
        invariant held == set j: nat | j < i && Live(queue[j], dead) && Ahead(queue, dead, j) >= free ::
            queue[j].mail.key
      {
        AheadStep(queue, dead, i);
        if queue[i].Mail? && queue[i].mail.to !in dead {
          if room > 0 {
            room := room - 1;
          } else {
            held := held + {queue[i].mail.key};
          }
        }
        i := i + 1;
      }
    }

    method RecordAllDelivered(queue: seq<Queued>, delivered: set<Key>)
      modifies this
      ensures rec == RecordDelivered(old(rec), queue, delivered, box.now)
    {
      var i := 0;
      while i < |queue|
        invariant 0 <= i <= |queue| && rec == RecordDelivered(old(rec), queue[..i], delivered, box.now)
      {
        RecordStep(old(rec), queue, delivered, box.now, i);
        if KeyOfItem(queue[i].item) in delivered {
          rec := RecordOne(rec, queue[i], box.now);
        }
        i := i + 1;
      }
      assert queue[..i] == queue;
    }

    /** The walls, before anything is sent. */
    method PlanFlush(items: seq<Item>, chain: seq<Provider>, failureCap: int, headroom: nat) returns (plan: Plan)
      ensures plan == Planned(box.State(), items, chain, failureCap, headroom)
    {
      var dead := Dead(box.State(), failureCap);
      var pool := PoolRoomNow(chain);
      var day := DailyRoomNow(chain);
      var walled := BehindTheMailWall(items, dead, pool, day);
      var kept := PastTheHeadroom(items, dead, day, headroom);
      plan := Plan(MailItems(items, kept), PushKeys(items, walled), walled, kept);
    }

    method KeepBack(plan: Plan)
      modifies box
      ensures box.State() == KeptBack(old(box.State()), plan)
    {
      box.deferrals := box.deferrals + |plan.kept|;
    }

    /** The batch breaks off with an exception. */
    method BreakOff(after: Post)
      modifies box
      ensures box.State() == after
    {
      box.now, box.claims, box.failures := after.now, after.claims, after.failures;
      box.suppressed, box.deferrals, box.offers := after.suppressed, after.deferrals, after.offers;
    }

    /** The mail batch of a flush. An exception is caught, to be raised again later. */
    method SendMails(plan: Plan, chain: seq<Provider>, failureCap: int, broken: Option<Post>)
      returns (sent: set<Key>, raised: bool)
      requires ValidChain(chain)
      modifies box
      ensures var half := MailHalfOf(old(box.State()), plan, chain, failureCap, broken);
        box.State() == half.post && sent == half.delivered && raised == half.raised
    {
      KeepBack(plan);
      if broken.Some? && plan.mails != [] {
        BreakOff(broken.value);
        return {}, true;
      }
      var r := box.SendBatch(plan.mails, chain, failureCap);
      return r.delivered, false;
    }

    /** `pushed` is whatever the push relay delivered of what it was given. It is recorded
        even when the mail batch raised, and only then is the exception raised again. */
    method Flush(sink: seq<Queued>, chain: seq<Provider>, failureCap: int, headroom: nat, pushed: set<Key>,
                 broken: Option<Post>)
      returns (delivered: set<Key>, raised: bool)
      requires ValidChain(chain)
      modifies this, box
      ensures var queue := LongestWaiting(sink);
              var plan := Planned(old(box.State()), Items(queue), chain, failureCap, headroom);
              var half := MailHalfOf(old(box.State()), plan, chain, failureCap, broken);
        && box.State() == half.post && raised == half.raised
        && delivered == half.delivered + pushed * plan.pushes
        && rec == RecordDelivered(old(rec), queue, delivered, box.now)
    {
      var queue := LongestWaiting(sink);
      var plan := PlanFlush(Items(queue), chain, failureCap, headroom);
      var sent;
      sent, raised := SendMails(plan, chain, failureCap, broken);
      delivered := sent + pushed * plan.pushes;
      RecordAllDelivered(queue, delivered);
    }
  }
}
