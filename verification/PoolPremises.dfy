/** What the prediction of the mail pool (`pool_room` of app/mail.py) rests on. Calls that
    take long let sends leave their windows meanwhile, and more goes out than predicted. A
    provider listed twice counts twice in the prediction and once in the sending; for quick
    accepting providers the prediction holds in every state exactly when none is. */
module PoolPremises {
  import opened Common
  import opened MailDelivery
  import opened MailBatch
  import opened MailLaws
  import opened MailPool
  import opened DigestQueue

  /** Nothing was claimed or sent yet, and no address is dead. */
  predicate Blank(st: Post) {
    st.claims == map[] && st.failures == map[] && st.suppressed == {}
  }

  lemma {:induction false} NobodyIsSick(items: seq<Outgoing>)
    ensures Healthy(items, {}) == items
  {
    if items != [] {
      NobodyIsSick(items[1..]);
      assert items == [items[0]] + items[1..];
    }
  }

  lemma AllAreClaimed(st: Post, items: seq<Outgoing>, chain: seq<Provider>, failureCap: int)
    requires ValidChain(chain) && Blank(st) && DistinctKeys(items)
    ensures Batch(st, items, chain, failureCap).claimed == items
  {
    assert Dead(st, failureCap) == {};
    ClaimAllFresh(items, {}, st.claims, st.now);
    NobodyIsSick(items);
  }

  // ---------------------------------------------------------------------
  // Each provider spends its own room once

  /** Rows a provider stamped. */
  function RowsBy(claims: Claims, name: string): set<Key> {
    set k | k in claims && claims[k].stamp == By(name)
  }

  /** Rows any provider of the chain stamped. */
  function RowsOf(claims: Claims, chain: seq<Provider>): set<Key> {
    set i, k | 0 <= i < |chain| && k in RowsBy(claims, chain[i].name) :: k
  }

  predicate Named(chain: seq<Provider>, name: string) {
    exists i :: 0 <= i < |chain| && chain[i].name == name
  }

  lemma RowsOfRest(claims: Claims, chain: seq<Provider>)
    requires chain != []
    ensures RowsOf(claims, chain) == RowsBy(claims, chain[0].name) + RowsOf(claims, chain[1..])
    ensures Named(chain[1..], chain[0].name) ==> RowsOf(claims, chain) == RowsOf(claims, chain[1..])
    ensures DistinctNames(chain) <==> DistinctNames(chain[1..]) && !Named(chain[1..], chain[0].name)
  {
    var rest := chain[1..];
    assert forall i :: 0 <= i < |rest| ==> rest[i] == chain[i + 1];
    forall k | k in RowsOf(claims, chain)
      ensures k in RowsBy(claims, chain[0].name) + RowsOf(claims, rest)
    {
      var i :| 0 <= i < |chain| && k in RowsBy(claims, chain[i].name);
      if i > 0 {
        assert rest[i - 1] == chain[i];
      }
    }
    forall k | k in RowsOf(claims, rest) ensures k in RowsOf(claims, chain) {
      var i :| 0 <= i < |rest| && k in RowsBy(claims, rest[i].name);
      assert rest[i] == chain[i + 1];
    }
    if DistinctNames(chain) {
      forall i, j | 0 <= i < j < |rest| ensures rest[i].name != rest[j].name {
        assert chain[i + 1].name != chain[j + 1].name;
      }
    }
    if DistinctNames(rest) && !Named(rest, chain[0].name) {
      forall i, j | 0 <= i < j < |chain| ensures chain[i].name != chain[j].name {
        assert chain[j] == rest[j - 1];
        if i > 0 {
          assert chain[i] == rest[i - 1];
        }
      }
    }
  }

  /** A provider with room that stamped no more rows than it had room. */
  predicate OwnShare(claims: Claims, p: Provider, now: int) {
    |RowsBy(claims, p.name)| <= Room(map[], p.name, p.limits, now) && 0 < Room(map[], p.name, p.limits, now)
  }

  /** If no provider stamped more rows than it had room, all of them together stamped
      no more than the pool, and fewer if one is listed twice. */
  lemma {:induction false} RowsFitThePool(claims: Claims, chain: seq<Provider>, now: int)
    requires forall i :: 0 <= i < |chain| ==> OwnShare(claims, chain[i], now)
    ensures |RowsOf(claims, chain)| <= PoolRoom(map[], chain, now)
    ensures !DistinctNames(chain) ==> |RowsOf(claims, chain)| < PoolRoom(map[], chain, now)
    decreases |chain|
  {
    if chain == [] {
      assert RowsOf(claims, chain) == {};
    } else {
      var rest := chain[1..];
      assert forall i :: 0 <= i < |rest| ==> rest[i] == chain[i + 1];
      RowsFitThePool(claims, rest, now);
      RowsOfRest(claims, chain);
      UnionCardinality(RowsOf(claims, chain), RowsBy(claims, chain[0].name), RowsOf(claims, rest));
    }
  }

  predicate Positive(limits: seq<Limit>) {
    limits != [] && forall l :: l in limits ==> l.max > 0
  }

  /** Every provider's limits are positive, and a provider listed twice has the same. */
  predicate ProperLimits(chain: seq<Provider>) {
    && (forall i :: 0 <= i < |chain| ==> Positive(chain[i].limits))
    && (forall i, j :: 0 <= i < j < |chain| && chain[i].name == chain[j].name ==> chain[i].limits == chain[j].limits)
  }

  lemma {:induction false} TightestOfNone(name: string, limits: seq<Limit>, now: int) returns (l: Limit)
    requires Positive(limits)
    ensures l in limits && Room(map[], name, limits, now) == Tightest(map[], name, limits, now) == l.max > 0
  {
    assert StampedWithin(map[], name, limits[0].window, now) == {};
    l := limits[0];
    if |limits| > 1 {
      var m := TightestOfNone(name, limits[1..], now);
      if m.max < l.max {
        l := m;
      }
    }
  }

  /** The batch is over before any window of the chain has passed. */
  predicate WithinWindows(chain: seq<Provider>, seconds: int) {
    forall i, l :: 0 <= i < |chain| && l in chain[i].limits ==> seconds < l.window
  }

  lemma SentKeysCount(st: Post, items: seq<Outgoing>, chain: seq<Provider>, failureCap: int)
    requires ValidChain(chain)
    ensures var o := Batch(st, items, chain, failureCap); |Keys(o.sent)| == |o.sent|
  {
    BatchEndIsSound(st, items, chain, failureCap);
    var end := Chain(chain, Start(st, items, failureCap));
    PartsApart(end.sent + end.refused, end.remaining);
    PartsApart(end.sent, end.refused);
    DistinctKeysCount(end.sent);
  }

  lemma OnlySentRows(st: Post, items: seq<Outgoing>, chain: seq<Provider>, failureCap: int)
    requires ValidChain(chain) && Blank(st)
    ensures var o := Batch(st, items, chain, failureCap);
      && (forall k :: k in Keys(o.sent) ==> SentRow(st, o.post, k))
      && (forall k :: k in o.post.claims ==> k in Keys(o.sent))
  {
    BatchKeepsExactlyDeliveredClaims(st, items, chain, failureCap);
  }

  lemma UsedNothing(name: string, window: nat, now: int)
    ensures Used(map[], name, window, now) == 0
  {
    assert StampedWithin(map[], name, window, now) == {};
  }

  lemma OthersStampNothing(st: Post, items: seq<Outgoing>, chain: seq<Provider>, failureCap: int, name: string)
    requires ValidChain(chain) && Blank(st) && !Named(chain, name)
    ensures RowsBy(Batch(st, items, chain, failureCap).post.claims, name) == {}
  {
    var post := Batch(st, items, chain, failureCap).post;
    BatchTime(st, items, chain, failureCap);
    var l := Limit(0, post.now - st.now + 1);
    OnlySentRows(st, items, chain, failureCap);
    UsageStaysWithinLimits(st, items, chain, failureCap, name, l);
    UsedNothing(name, l.window, st.now);
    assert RowsBy(post.claims, name) == StampedWithin(post.claims, name, l.window, post.now);
  }

  /** Only the chain's own providers stamp rows. */
  lemma StampedByTheChain(st: Post, items: seq<Outgoing>, chain: seq<Provider>, failureCap: int, k: Key)
    requires ValidChain(chain) && Blank(st)
    requires k in Batch(st, items, chain, failureCap).post.claims
    ensures k in RowsOf(Batch(st, items, chain, failureCap).post.claims, chain)
  {
    var post := Batch(st, items, chain, failureCap).post;
    OnlySentRows(st, items, chain, failureCap);
    var name := post.claims[k].stamp.provider;
    assert k in RowsBy(post.claims, name);
    if Named(chain, name) {
      var i :| 0 <= i < |chain| && chain[i].name == name;
      assert k in RowsBy(post.claims, chain[i].name);
    } else {
      OthersStampNothing(st, items, chain, failureCap, name);
    }
  }

  lemma RowsOfOne(st: Post, items: seq<Outgoing>, chain: seq<Provider>, failureCap: int, i: nat)
    requires ValidChain(chain) && Blank(st) && ProperLimits(chain) && i < |chain|
    requires WithinWindows(chain, Batch(st, items, chain, failureCap).post.now - st.now)
    ensures OwnShare(Batch(st, items, chain, failureCap).post.claims, chain[i], st.now)
  {
    var post := Batch(st, items, chain, failureCap).post;
    var name := chain[i].name;
    var l := TightestOfNone(name, chain[i].limits, st.now);
    assert forall j :: 0 <= j < |chain| && chain[j].name == name ==> l in chain[j].limits;
    UsageStaysWithinLimits(st, items, chain, failureCap, name, l);
    UsedNothing(name, l.window, st.now);
    OnlySentRows(st, items, chain, failureCap);
    assert RowsBy(post.claims, name) == StampedWithin(post.claims, name, l.window, post.now);
  }

  /** Whatever the providers do, a batch that is over before any window has passed
      sends no more than the pool's room, and less if a provider is listed twice: its
      room is counted twice when the wall is predicted and once when mail is sent. */
  lemma ARepeatedNameCountsTwice(st: Post, items: seq<Outgoing>, chain: seq<Provider>, failureCap: int)
    requires ValidChain(chain) && Blank(st) && ProperLimits(chain)
    requires WithinWindows(chain, Batch(st, items, chain, failureCap).post.now - st.now)
    ensures |Batch(st, items, chain, failureCap).sent| <= PoolRoom(st.claims, chain, st.now)
    ensures !DistinctNames(chain) ==> |Batch(st, items, chain, failureCap).sent| < PoolRoom(st.claims, chain, st.now)
  {
    var o := Batch(st, items, chain, failureCap);
    forall i: nat | i < |chain| ensures OwnShare(o.post.claims, chain[i], st.now) {
      RowsOfOne(st, items, chain, failureCap, i);
    }
    RowsFitThePool(o.post.claims, chain, st.now);
    OnlySentRows(st, items, chain, failureCap);
    SentKeysCount(st, items, chain, failureCap);
    forall k | k in Keys(o.sent) ensures k in RowsOf(o.post.claims, chain) {
      StampedByTheChain(st, items, chain, failureCap, k);
    }
    SubsetCardinality(Keys(o.sent), RowsOf(o.post.claims, chain));
  }

  // ---------------------------------------------------------------------
  // So the prediction holds exactly for distinct providers

  /** The pool takes what was predicted: a batch delivers that much, or everything. */
  ghost predicate AsPredicted(chain: seq<Provider>, failureCap: int, st: Post, items: seq<Outgoing>)
    requires ValidChain(chain)
  {
    var o := Batch(st, items, chain, failureCap);
    |o.sent| >= Min(PoolRoom(st.claims, chain, st.now), |o.claimed|)
  }

  function NewMails(n: nat): (r: seq<Outgoing>)
    ensures |r| == n && DistinctKeys(r)
  {
    seq(n, (i: nat) => Outgoing(i, i))
  }

  /** A full pool's worth of new mail shows it. */
  lemma ARepeatedNameFallsShort(chain: seq<Provider>, failureCap: int, e: nat)
    requires ValidChain(chain) && AllAccept(chain) && ProperLimits(chain) && !DistinctNames(chain) && Brisk(chain, e)
    requires WithinWindows(chain, e * PoolRoom(map[], chain, 0))
    ensures !AsPredicted(chain, failureCap, Post(0, map[], map[], {}, 0, []), NewMails(PoolRoom(map[], chain, 0)))
  {
    var st, n := Post(0, map[], map[], {}, 0, []), PoolRoom(map[], chain, 0);
    AllAreClaimed(st, NewMails(n), chain, failureCap);
    BriskBatch(st, NewMails(n), chain, failureCap, e);
    ARepeatedNameCountsTwice(st, NewMails(n), chain, failureCap);
  }

  /** For accepting providers with positive limits, whose calls are quick next to
      their windows, the prediction holds in every state and for every list of mails
      if and only if no provider is listed twice. */
  lemma ThePredictionNeedsDistinctNames(chain: seq<Provider>, failureCap: int, e: nat)
    requires ValidChain(chain) && AllAccept(chain) && ProperLimits(chain) && Brisk(chain, e)
    requires WithinWindows(chain, e * PoolRoom(map[], chain, 0))
    ensures DistinctNames(chain) <==> forall st, items :: AsPredicted(chain, failureCap, st, items)
  {
    if DistinctNames(chain) {
      forall st, items ensures AsPredicted(chain, failureCap, st, items) {
        AcceptedBatchFillsThePool(st, items, chain, failureCap);
      }
    } else {
      ARepeatedNameFallsShort(chain, failureCap, e);
    }
  }

  // ---------------------------------------------------------------------
  // The headroom goes the same way

  lemma OneDailyLimit(p: Provider, max: nat, claims: Claims, now: int)
    requires p.limits == [Limit(max, DAY)]
    ensures Room(claims, p.name, p.limits, now) == Max(0, max - Used(claims, p.name, DAY, now))
    ensures DailyRoom(claims, [p, p], now) == Some(2 * Room(claims, p.name, p.limits, now))
  {
    assert p.limits[1..] == [];
    assert Daily(p.limits) == p.limits;
    var daily := DailyChain([p, p]);
    assert daily == [daily[0], daily[1]] && daily[1..] == [daily[1]] && daily[1..][1..] == [];
    assert PoolRoom(claims, daily[1..], now) == Room(claims, p.name, p.limits, now);
  }

  /** A first provider with room for all of it takes the whole queue. */
  lemma AllSentAtOnce(chain: seq<Provider>, g: Progress)
    requires ValidChain(chain) && chain != [] && AcceptsEverything(chain[0])
    requires g.refused == [] && AllPending(g) && DistinctKeys(g.remaining)
    requires |g.remaining| <= Room(g.post.claims, chain[0].name, chain[0].limits, g.post.now)
    ensures Chain(chain, g).sent == g.sent + g.remaining
  {
    FirstTurn(chain[0], g);
    assert g.remaining[..|g.remaining|] == g.remaining;
    assert Refold(g) == g;
    var t := ProviderTurn(chain[0], g);
    if g.remaining != [] {
      assert Refold(t) == t;
      assert Chain(chain[1..], t) == t;
    }
  }

  lemma AllLiveMailsSent(st: Post, queue: seq<Item>, p: Provider, max: nat, failureCap: int, headroom: nat)
    requires p.batchSize > 0 && AcceptsEverything(p) && p.limits == [Limit(max, DAY)]
    requires Blank(st) && FreshKeys(queue, st.claims) && |LiveMails(queue, {})| == max && 0 < headroom <= max
    ensures |Batch(st, Planned(st, queue, [p, p], failureCap, headroom).mails, [p, p], failureCap).sent| == max
  {
    var items := Planned(st, queue, [p, p], failureCap, headroom).mails;
    var start := Start(st, items, failureCap);
    UsedNothing(p.name, DAY, st.now);
    OneDailyLimit(p, max, st.claims, st.now);
    ClaimedByFlush(st, queue, [p, p], failureCap, headroom);
    assert |start.remaining| == max;
    StartIsReady(st, items, failureCap);
    StartRoom(st, items, [p], failureCap, st.now);
    OneLimit(p, Limit(max, DAY), st.claims, st.now);
    OneLimit(p, Limit(max, DAY), start.post.claims, st.now);
    AllSentAtOnce([p, p], start);
  }

  /** A provider of `max` mails a day listed twice: the digests of a flush may use the
      whole day, and leave nothing of any headroom for confirmations. */
  lemma TheHeadroomIsLostToo(st: Post, queue: seq<Item>, p: Provider, max: nat, failureCap: int, headroom: nat)
    requires p.batchSize > 0 && AcceptsEverything(p) && BriskOne(p, 0) && p.limits == [Limit(max, DAY)]
    requires Blank(st) && FreshKeys(queue, st.claims) && |LiveMails(queue, {})| == max && 0 < headroom <= max
    ensures DailyRoom(st.claims, [p, p], st.now) == Some(2 * max)
    ensures var o := Batch(st, Planned(st, queue, [p, p], failureCap, headroom).mails, [p, p], failureCap);
      DailyRoom(o.post.claims, [p, p], o.post.now) == Some(0)
  {
    UsedNothing(p.name, DAY, st.now);
    OneDailyLimit(p, max, st.claims, st.now);
    AllLiveMailsSent(st, queue, p, max, failureCap, headroom);
    TheDayIsSpent(st, Planned(st, queue, [p, p], failureCap, headroom).mails, p, max, failureCap);
  }

  lemma TheDayIsSpent(st: Post, items: seq<Outgoing>, p: Provider, max: nat, failureCap: int)
    requires p.batchSize > 0 && AcceptsEverything(p) && BriskOne(p, 0) && p.limits == [Limit(max, DAY)]
    requires Blank(st) && |Batch(st, items, [p, p], failureCap).sent| >= max
    ensures var o := Batch(st, items, [p, p], failureCap); DailyRoom(o.post.claims, [p, p], o.post.now) == Some(0)
  {
    var o := Batch(st, items, [p, p], failureCap);
    SentRowsOfOne(st, items, p, failureCap);
    OneDailyLimit(p, max, o.post.claims, o.post.now);
  }

  lemma SentRowsOfOne(st: Post, items: seq<Outgoing>, p: Provider, failureCap: int)
    requires p.batchSize > 0 && AcceptsEverything(p) && BriskOne(p, 0) && Blank(st)
    ensures var o := Batch(st, items, [p, p], failureCap);
      Used(o.post.claims, p.name, DAY, o.post.now) >= |o.sent|
  {
    var o := Batch(st, items, [p, p], failureCap);
    BriskChain([p, p], Start(st, items, failureCap), 0);
    OnlySentRows(st, items, [p, p], failureCap);
    SentKeysCount(st, items, [p, p], failureCap);
    forall k | k in Keys(o.sent) ensures k in StampedWithin(o.post.claims, p.name, DAY, o.post.now) {
      StampedByTheChain(st, items, [p, p], failureCap, k);
      assert SentRow(st, o.post, k);
    }
    SubsetCardinality(Keys(o.sent), StampedWithin(o.post.claims, p.name, DAY, o.post.now));
  }

  // ---------------------------------------------------------------------
  // A batch that takes its time

  lemma StartOfTwo(st: Post, x: Outgoing, y: Outgoing)
    requires st.failures == map[] && st.suppressed == {}
    requires x.key != y.key && x.key !in st.claims && y.key !in st.claims
    ensures Start(st, [x, y], 3).remaining == [x, y]
  {
    assert Dead(st, 3) == {};
    ClaimAllFresh([x, y], {}, st.claims, st.now);
    NobodyIsSick([x, y]);
  }

  lemma OneLimit(p: Provider, l: Limit, claims: Claims, now: int)
    requires p.limits == [l]
    ensures Room(claims, p.name, p.limits, now) == Max(0, l.max - Used(claims, p.name, l.window, now))
    ensures PoolRoom(claims, [p], now) == Room(claims, p.name, p.limits, now)
  {
    assert [p][1..] == [];
  }

  /** With room for one mail, a turn makes one call. */
  lemma OneCall(p: Provider, g: Progress, t: nat)
    requires p.batchSize > 0 && AcceptsEverything(p) && (forall n, items :: p.relay(n, items).elapsed == t)
    requires g.refused == [] && g.remaining != [] && DistinctKeys(g.remaining)
    requires Room(g.post.claims, p.name, p.limits, g.post.now) == 1
    ensures ProviderTurn(p, g).post.now == g.post.now + t
  {
    assert Refold(g) == g;
    var d := Deliver(p, |g.post.offers|, NextChunk(p, 1, g.remaining));
    AcceptedCall(p, 1, g);
    DeliverAccepts(p, |g.post.offers|, NextChunk(p, 1, g.remaining));
    assert |d.sent| == 1;
    assert Turn(p, 0, Absorb(p, g, d)) == Absorb(p, g, d);
  }

  /** The first provider is down to one mail a day, and each of its calls takes `t`
      seconds; the second sent the mail of its window so long ago that it is free
      again by then. */
  ghost predicate SlowPair(st: Post, p: Provider, q: Provider, window: nat, t: nat, k: Key) {
    && p.batchSize > 0 && q.batchSize > 0 && AcceptsEverything(p) && AcceptsEverything(q) && p.name != q.name
    && p.limits == [Limit(1, DAY)] && q.limits == [Limit(1, window)] && t > 0
    && (forall n, items :: p.relay(n, items).elapsed == t)
    && st.claims == map[k := Row(By(q.name), st.now - window + t)] && st.failures == map[] && st.suppressed == {}
  }

  /** The pool has room for one mail, and the batch delivers two. */
  lemma ASlowBatchDeliversMore(st: Post, x: Outgoing, y: Outgoing, p: Provider, q: Provider, window: nat, t: nat,
                              k: Key)
    requires SlowPair(st, p, q, window, t, k) && x.key != y.key && x.key != k && y.key != k
    ensures PoolRoom(st.claims, [p, q], st.now) == 1
    ensures Batch(st, [x, y], [p, q], 3).sent == [x, y]
  {
    var start := Start(st, [x, y], 3);
    StartOfTwo(st, x, y);
    StartIsReady(st, [x, y], 3);
    assert StampedWithin(st.claims, p.name, DAY, st.now) == {};
    assert StampedWithin(st.claims, q.name, window, st.now) == {k};
    OneLimit(p, Limit(1, DAY), st.claims, st.now);
    OneLimit(q, Limit(1, window), st.claims, st.now);
    assert [p, q][1..] == [q];
    StartRoom(st, [x, y], [p], 3, st.now);
    OneLimit(p, Limit(1, DAY), start.post.claims, st.now);
    ClaimAllIsSound([x, y], Dead(st, 3), st.claims, st.now);
    SlowTurns(st, start, x, y, p, q, window, t);
  }

  lemma TwoAhead(x: Outgoing, y: Outgoing, z: Key)
    ensures var queue := [Mail(x), Mail(y), Push(z)];
      && LiveMails(queue, {}) == [x, y] && Ahead(queue, {}, 2) == 2
      && MailItems(queue, {}) == [x, y]
  {
    var queue := [Mail(x), Mail(y), Push(z)];
    assert queue[..1] == [Mail(x)] && queue[..2] == [Mail(x), Mail(y)] && queue[..2][..1] == queue[..1];
    assert LiveMails(queue[..1], {}) == [x] && MailItems(queue[..1], {}) == [x];
    assert LiveMails(queue[..2], {}) == [x, y] && MailItems(queue[..2], {}) == [x, y];
  }

  /** When the windows that bind are daily ones and nothing is kept for confirmations, a
      push digest past the places for mail may overtake nobody: the mails ahead of it
      went out after all. */
  lemma {:induction false} ASlowFlushLeavesNobodyBehind(st: Post, x: Outgoing, y: Outgoing, z: Key,
                                                        p: Provider, q: Provider, t: nat, k: Key)
    requires SlowPair(st, p, q, DAY, t, k)
    requires x.key != y.key && x.key != z && y.key != z && x.key != k && y.key != k && z != k
    ensures var queue := [Mail(x), Mail(y), Push(z)];
            var pool, day := PoolRoom(st.claims, [p, q], st.now), DailyRoom(st.claims, [p, q], st.now);
      && DayBinds(pool, day) && PastPlaces(pool, day, 0, Ahead(queue, Dead(st, 3), 2))
      && !Overtakes(st, queue, [p, q], 3, 0, 2)
  {
    var chain := [p, q];
    ASlowBatchDeliversMore(st, x, y, p, q, DAY, t, k);
    SlowPairIsValid(st, p, q, DAY, t, k);
    PlaceForOne(st, x, y, z, chain);
    BothGoOut(st, x, y, z, chain);
  }

  lemma {:induction false} SlowPairIsValid(st: Post, p: Provider, q: Provider, window: nat, t: nat, k: Key)
    requires SlowPair(st, p, q, window, t, k)
    ensures ValidChain([p, q]) && DistinctNames([p, q]) && AllAccept([p, q]) && Dead(st, 3) == {}
    ensures forall key :: key in st.claims ==> key == k
  {
  }

  lemma {:induction false} PlaceForOne(st: Post, x: Outgoing, y: Outgoing, z: Key, chain: seq<Provider>)
    requires PoolRoom(st.claims, chain, st.now) == 1 && Dead(st, 3) == {}
    requires forall i :: 0 <= i < |chain| ==> chain[i].limits == [Limit(1, DAY)]
    ensures var pool, day := PoolRoom(st.claims, chain, st.now), DailyRoom(st.claims, chain, st.now);
      DayBinds(pool, day) && PastPlaces(pool, day, 0, Ahead([Mail(x), Mail(y), Push(z)], Dead(st, 3), 2))
  {
    TwoAhead(x, y, z);
    forall i | 0 <= i < |chain| ensures Daily(chain[i].limits) == chain[i].limits {
      assert [Limit(1, DAY)][1..] == [];
    }
    DailyIsAll(chain, st.claims, st.now);
  }

  lemma BothGoOut(st: Post, x: Outgoing, y: Outgoing, z: Key, chain: seq<Provider>)
    requires ValidChain(chain) && DistinctNames(chain) && AllAccept(chain) && Dead(st, 3) == {}
    requires FreshKeys([Mail(x), Mail(y), Push(z)], st.claims) && Batch(st, [x, y], chain, 3).sent == [x, y]
    ensures !Overtakes(st, [Mail(x), Mail(y), Push(z)], chain, 3, 0, 2)
  {
    var queue := [Mail(x), Mail(y), Push(z)];
    TwoAhead(x, y, z);
    assert Planned(st, queue, chain, 3, 0).mails == [x, y];
    SomeMailWaitsAhead(st, queue, chain, 3, 0, 2);
  }

  lemma DailyIsAll(chain: seq<Provider>, claims: Claims, now: int)
    requires forall i :: 0 <= i < |chain| ==> Daily(chain[i].limits) == chain[i].limits && chain[i].limits != []
    ensures DailyRoom(claims, chain, now) == Some(PoolRoom(claims, chain, now))
  {
    assert DailyChain(chain) == chain;
  }

  /** The second provider's sends have left its window by `now`. */
  lemma FreeAgain(before: Claims, after: Claims, q: Provider, window: nat, other: string, now: int)
    requires q.limits == [Limit(1, window)] && q.name != other && OthersKeepStamps(before, after, other)
    requires forall c :: c in before && before[c].stamp == By(q.name) ==> before[c].at <= now - window
    ensures Room(after, q.name, q.limits, now) == 1
  {
    assert StampedWithin(after, q.name, window, now) == {};
    OneLimit(q, Limit(1, window), after, now);
  }

  lemma SlowTurns(st: Post, start: Progress, x: Outgoing, y: Outgoing, p: Provider, q: Provider, window: nat, t: nat)
    requires p.batchSize > 0 && q.batchSize > 0 && AcceptsEverything(p) && AcceptsEverything(q) && p.name != q.name
    requires q.limits == [Limit(1, window)] && forall n, items :: p.relay(n, items).elapsed == t
    requires start.sent == [] && start.refused == [] && start.remaining == [x, y] && x.key != y.key
    requires AllPending(start) && start.post.now == st.now
    requires Room(start.post.claims, p.name, p.limits, st.now) == 1
    requires forall c :: c in start.post.claims && start.post.claims[c].stamp == By(q.name) ==>
      start.post.claims[c].at <= st.now - window + t
    ensures Chain([p, q], start).sent == [x, y]
  {
    SlowFirstTurn(start, x, y, p, t);
    var mid := ProviderTurn(p, start);
    FreeAgain(start.post.claims, mid.post.claims, q, window, p.name, mid.post.now);
    assert Chain([q], mid).sent == [x, y] by {
      AllSentAtOnce([q], mid);
      assert [x] + [y] == [x, y];
    }
    assert [p, q][1..] == [q];
    ChainGoesOn([p, q], start);
  }

  lemma SlowFirstTurn(g: Progress, x: Outgoing, y: Outgoing, p: Provider, t: nat)
    requires p.batchSize > 0 && AcceptsEverything(p) && forall n, items :: p.relay(n, items).elapsed == t
    requires g.sent == [] && g.refused == [] && g.remaining == [x, y] && x.key != y.key && AllPending(g)
    requires Room(g.post.claims, p.name, p.limits, g.post.now) == 1
    ensures var mid := ProviderTurn(p, g);
      && mid.sent == [x] && mid.remaining == [y] && mid.refused == [] && AllPending(mid)
      && mid.post.now == g.post.now + t && OthersKeepStamps(g.post.claims, mid.post.claims, p.name)
  {
    FirstTurn(p, g);
    OneCall(p, g, t);
  }
}
