/** What a batch takes out of the pool when every provider accepts. */
module MailPool {
  import opened Common
  import opened MailDelivery
  import opened MailBatch
  import opened MailLaws

  // ---------------------------------------------------------------------
  // Providers that accept everything take the head of the queue

  /** Accepts every mail it is offered, however long that takes. */
  ghost predicate AcceptsEverything(p: Provider) {
    forall n, items {:trigger p.relay(n, items)} ::
      if Graded(items, p.relay(n, items)) then
        forall i :: 0 <= i < |items| ==> p.relay(n, items).verdicts.value[i]
      else Ok(p.relay(n, items).status)
  }

  ghost predicate AllAccept(chain: seq<Provider>) {
    forall i :: 0 <= i < |chain| ==> AcceptsEverything(chain[i])
  }

  lemma DeliverAccepts(p: Provider, n: nat, chunk: seq<Outgoing>)
    requires chunk != [] && AcceptsEverything(p)
    ensures var d := Deliver(p, n, chunk);
      d.sent == chunk && d.refused == [] && !d.unusable && d.elapsed == p.relay(n, chunk).elapsed
  {
    var a := p.relay(n, chunk);
    if Graded(chunk, a) {
      PickAll(chunk, a.verdicts.value, true);
    }
  }

  /** What stays the same while accepting providers take the first `m` items. */
  ghost predicate TookHead(g: Progress, m: nat, after: Progress) {
    && m <= |g.remaining|
    && after.sent == g.sent + g.remaining[..m] && after.remaining == g.remaining[m..]
    && after.refused == g.refused && after.unusable == g.unusable
    && after.post.now >= g.post.now
  }

  lemma TookHeadTwice(g: Progress, m: nat, mid: Progress, m': nat, end: Progress)
    requires TookHead(g, m, mid) && TookHead(mid, m', end)
    ensures TookHead(g, m + m', end)
  {
    assert g.remaining[..m + m'] == g.remaining[..m] + g.remaining[m..][..m'];
    assert g.remaining[m + m'..] == g.remaining[m..][m'..];
  }

  lemma AcceptedCall(p: Provider, room: int, g: Progress)
    requires p.batchSize > 0 && AcceptsEverything(p) && DistinctKeys(g.remaining)
    requires room > 0 && g.remaining != []
    ensures var chunk := NextChunk(p, room, g.remaining);
            var d := Deliver(p, |g.post.offers|, chunk);
      0 < |chunk| <= room && d.sent == chunk && !d.unusable && TookHead(g, |chunk|, Absorb(p, g, d))
  {
    var chunk := NextChunk(p, room, g.remaining);
    var d := Deliver(p, |g.post.offers|, chunk);
    DeliverAccepts(p, |g.post.offers|, chunk);
    KeysPastPrefix(g.remaining, |chunk|);
    assert Keys(d.sent) + Keys(d.refused) == Keys(chunk);
    WithoutPrefix(g.remaining, |chunk|, Keys(chunk));
  }

  lemma AcceptedCallAfter(p: Provider, room: int, g: Progress, m: nat, h: Progress)
    requires p.batchSize > 0 && AcceptsEverything(p) && DistinctKeys(g.remaining)
    requires TookHead(g, m, h) && room > 0 && h.remaining != []
    ensures var d := Deliver(p, |h.post.offers|, NextChunk(p, room, h.remaining));
      |d.sent| <= room && !d.unusable && TookHead(g, m + |d.sent|, Absorb(p, h, d))
  {
    var d := Deliver(p, |h.post.offers|, NextChunk(p, room, h.remaining));
    KeysPastPrefix(g.remaining, m);
    AcceptedCall(p, room, h);
    TookHeadTwice(g, m, h, |d.sent|, Absorb(p, h, d));
  }

  /** With `left` of the room unspent, the rest of it took the head. */
  ghost predicate HeadSoFar(g: Progress, room: nat, left: int, h: Progress) {
    0 <= left <= room && TookHead(g, room - left, h)
  }

  lemma NothingTaken(g: Progress, room: nat)
    ensures HeadSoFar(g, room, room, g)
  {
    assert g.remaining[..0] == [] && g.remaining[0..] == g.remaining;
  }

  lemma HeadInAll(g: Progress, room: nat, left: int, h: Progress)
    requires HeadSoFar(g, room, left, h) && (h.remaining == [] || left <= 0)
    ensures TookHead(g, Min(room, |g.remaining|), h)
  {
  }

  lemma HeadGoesOn(p: Provider, g: Progress, room: nat, left: int, h: Progress)
    requires p.batchSize > 0 && AcceptsEverything(p) && DistinctKeys(g.remaining)
    requires left > 0 && h.remaining != [] && HeadSoFar(g, room, left, h)
    ensures var d := Deliver(p, |h.post.offers|, NextChunk(p, left, h.remaining));
      HeadSoFar(g, room, left - |d.sent|, Absorb(p, h, d)) && !d.unusable
  {
    AcceptedCallAfter(p, left, g, room - left, h);
  }

  lemma TurnAccepts(p: Provider, room: nat, g: Progress)
    requires p.batchSize > 0 && AcceptsEverything(p) && DistinctKeys(g.remaining)
    ensures TookHead(g, Min(room, |g.remaining|), Turn(p, room, g))
  {
    var inv := (left: int, h: Progress) => HeadSoFar(g, room, left, h);
    var end := (h: Progress) => TookHead(g, Min(room, |g.remaining|), h);
    forall left, h: Progress | left > 0 && h.remaining != [] && HeadSoFar(g, room, left, h)
      ensures var d := Deliver(p, |h.post.offers|, NextChunk(p, left, h.remaining));
        HeadSoFar(g, room, left - |d.sent|, Absorb(p, h, d)) && !d.unusable
    {
      HeadGoesOn(p, g, room, left, h);
    }
    forall left, h: Progress | HeadSoFar(g, room, left, h) && (h.remaining == [] || left <= 0) ensures end(h) {
      HeadInAll(g, room, left, h);
    }
    NothingTaken(g, room);
    TurnEnds(p, room, g, inv, end);
  }

  // ---------------------------------------------------------------------
  // A turn spends nobody else's room

  lemma {:induction false} WithoutMembers(items: seq<Outgoing>, keys: set<Key>)
    ensures forall x :: x in Without(items, keys) ==> x in items && x.key !in keys
  {
    if items != [] {
      WithoutMembers(items[1..], keys);
    }
  }

  lemma SentWasOffered(p: Provider, n: nat, chunk: seq<Outgoing>)
    requires chunk != []
    ensures forall x :: x in Deliver(p, n, chunk).sent ==> x in chunk
  {
    var grades := DeliverGradesAPrefix(p, n, chunk);
    assert forall x :: x in chunk[..|grades|] ==> x in chunk;
  }

  ghost predicate AllPending(g: Progress) {
    forall x :: x in g.remaining ==> PendingRow(g.post, x.key)
  }

  /** Nobody but `name` gained or lost a stamped row. */
  ghost predicate OthersKeepStamps(before: Claims, after: Claims, name: string) {
    && (forall k :: k in before && before[k].stamp.By? && before[k].stamp.provider != name ==>
          k in after && after[k] == before[k])
    && (forall k :: k in after && after[k].stamp.By? && after[k].stamp.provider != name ==>
          k in before && after[k] == before[k])
  }

  lemma SentWerePending(p: Provider, room: int, g: Progress)
    requires p.batchSize > 0 && room > 0 && g.remaining != [] && AllPending(g)
    ensures forall k :: k in Keys(Deliver(p, |g.post.offers|, NextChunk(p, room, g.remaining)).sent) ==>
              PendingRow(g.post, k)
  {
    var chunk := NextChunk(p, room, g.remaining);
    var d := Deliver(p, |g.post.offers|, chunk);
    SentWasOffered(p, |g.post.offers|, chunk);
    forall k | k in Keys(d.sent) ensures PendingRow(g.post, k) {
      var x :| x in d.sent && x.key == k;
      assert x in g.remaining;
    }
  }

  lemma StampingKeepsOthers(before: Claims, mid: Claims, keys: set<Key>, name: string, at: int)
    requires OthersKeepStamps(before, mid, name)
    requires forall k :: k in keys ==> k in mid && mid[k].stamp.Pending?
    ensures OthersKeepStamps(before, StampAll(mid, keys, name, at), name)
  {
  }

  lemma CallKeepsPending(p: Provider, room: int, g: Progress)
    requires p.batchSize > 0 && room > 0 && g.remaining != [] && AllPending(g)
    ensures AllPending(Absorb(p, g, Deliver(p, |g.post.offers|, NextChunk(p, room, g.remaining))))
  {
    var d := Deliver(p, |g.post.offers|, NextChunk(p, room, g.remaining));
    WithoutMembers(g.remaining, Keys(d.sent) + Keys(d.refused));
  }

  lemma CallKeepsOtherStamps(before: Claims, p: Provider, room: int, g: Progress)
    requires p.batchSize > 0 && room > 0 && g.remaining != []
    requires AllPending(g) && OthersKeepStamps(before, g.post.claims, p.name)
    ensures var d := Deliver(p, |g.post.offers|, NextChunk(p, room, g.remaining));
      AllPending(Absorb(p, g, d)) && OthersKeepStamps(before, Absorb(p, g, d).post.claims, p.name)
  {
    var d := Deliver(p, |g.post.offers|, NextChunk(p, room, g.remaining));
    SentWerePending(p, room, g);
    CallKeepsPending(p, room, g);
    StampingKeepsOthers(before, g.post.claims, Keys(d.sent), p.name, g.post.now + d.elapsed);
  }

  lemma TurnKeepsOtherStamps(p: Provider, room: int, g: Progress)
    requires p.batchSize > 0 && AllPending(g)
    ensures OthersKeepStamps(g.post.claims, Turn(p, room, g).post.claims, p.name)
    ensures AllPending(Turn(p, room, g))
  {
    var inv := (left: int, h: Progress) =>
      AllPending(h) && OthersKeepStamps(g.post.claims, h.post.claims, p.name);
    forall left, h: Progress | left > 0 && h.remaining != [] && inv(left, h)
      ensures var d := Deliver(p, |h.post.offers|, NextChunk(p, left, h.remaining));
        inv(left - |d.sent|, Absorb(p, h, d))
    {
      CallKeepsOtherStamps(g.post.claims, p, left, h);
    }
    var left := TurnInduction(p, room, g, inv);
  }

  lemma RoomOfOthers(before: Claims, after: Claims, sender: string, name: string, limits: seq<Limit>, now: int)
    requires OthersKeepStamps(before, after, sender) && name != sender
    ensures Room(before, name, limits, now) == Room(after, name, limits, now)
  {
    if limits != [] {
      TightestOfOthers(before, after, sender, name, limits, now);
    }
  }

  lemma {:induction false} TightestOfOthers(before: Claims, after: Claims, sender: string, name: string,
                                            limits: seq<Limit>, now: int)
    requires OthersKeepStamps(before, after, sender) && name != sender && limits != []
    ensures Tightest(before, name, limits, now) == Tightest(after, name, limits, now)
  {
    assert StampedWithin(before, name, limits[0].window, now) == StampedWithin(after, name, limits[0].window, now);
    if |limits| > 1 {
      TightestOfOthers(before, after, sender, name, limits[1..], now);
    }
  }

  lemma {:induction false} PoolRoomOfOthers(before: Claims, after: Claims, sender: string, chain: seq<Provider>,
                                            now: int)
    requires OthersKeepStamps(before, after, sender)
    requires forall i :: 0 <= i < |chain| ==> chain[i].name != sender
    ensures PoolRoom(before, chain, now) == PoolRoom(after, chain, now)
  {
    if chain != [] {
      var rest := chain[1..];
      RoomOfOthers(before, after, sender, chain[0].name, chain[0].limits, now);
      assert forall i :: 0 <= i < |rest| ==> rest[i] == chain[i + 1];
      PoolRoomOfOthers(before, after, sender, rest, now);
    }
  }

  // ---------------------------------------------------------------------
  // As time passes, room only grows

  lemma RoomGrows(claims: Claims, name: string, limits: seq<Limit>, now: int, later: int)
    requires now <= later
    ensures Room(claims, name, limits, now) <= Room(claims, name, limits, later)
  {
    if limits != [] {
      TightestLoss(claims, claims, name, limits, now, later, {});
    }
  }

  lemma {:induction false} PoolRoomGrows(claims: Claims, chain: seq<Provider>, now: int, later: int)
    requires now <= later
    ensures PoolRoom(claims, chain, now) <= PoolRoom(claims, chain, later)
  {
    if chain != [] {
      RoomGrows(claims, chain[0].name, chain[0].limits, now, later);
      PoolRoomGrows(claims, chain[1..], now, later);
    }
  }

  /** No send of the chain's providers that counts now leaves its window by `later`. */
  ghost predicate NothingAgesOut(claims: Claims, chain: seq<Provider>, now: int, later: int) {
    forall i, l, k :: 0 <= i < |chain| && l in chain[i].limits
                      && k in claims && claims[k].stamp == By(chain[i].name) ==>
      (claims[k].at > now - l.window ==> claims[k].at > later - l.window)
  }

  lemma {:induction false} TightestStays(claims: Claims, name: string, limits: seq<Limit>, now: int, later: int)
    requires now <= later && limits != []
    requires forall l, k :: l in limits && k in claims && claims[k].stamp == By(name) ==>
      (claims[k].at > now - l.window ==> claims[k].at > later - l.window)
    ensures Tightest(claims, name, limits, now) == Tightest(claims, name, limits, later)
  {
    assert StampedWithin(claims, name, limits[0].window, now) == StampedWithin(claims, name, limits[0].window, later);
    if |limits| > 1 {
      TightestStays(claims, name, limits[1..], now, later);
    }
  }

  lemma {:induction false} PoolRoomStays(claims: Claims, chain: seq<Provider>, now: int, later: int)
    requires now <= later && NothingAgesOut(claims, chain, now, later)
    ensures PoolRoom(claims, chain, now) == PoolRoom(claims, chain, later)
  {
    if chain != [] {
      var rest := chain[1..];
      if chain[0].limits != [] {
        TightestStays(claims, chain[0].name, chain[0].limits, now, later);
      }
      assert forall i :: 0 <= i < |rest| ==> rest[i] == chain[i + 1];
      PoolRoomStays(claims, rest, now, later);
    }
  }

  // ---------------------------------------------------------------------
  // The pool, before and after

  /** `m` items at least fill the room there was at `now`, and at most the room the
      same rows leave at `later`. */
  ghost predicate Fills(claims: Claims, chain: seq<Provider>, now: int, later: int, m: nat, all: nat) {
    Min(PoolRoom(claims, chain, now), all) <= m <= Min(PoolRoom(claims, chain, later), all)
  }

  /** A first turn's share and what the rest of the chain takes, together. */
  lemma FillsOneMore(before: Claims, after: Claims, chain: seq<Provider>, now: int, mid: int, later: int, all: nat,
                     m: nat)
    requires chain != [] && DistinctNames(chain) && now <= mid <= later
    requires OthersKeepStamps(before, after, chain[0].name)
    requires Fills(after, chain[1..], mid, later, m, all - Min(Room(before, chain[0].name, chain[0].limits, now), all))
    ensures Fills(before, chain, now, later, Min(Room(before, chain[0].name, chain[0].limits, now), all) + m, all)
  {
    var rest := chain[1..];
    assert forall i :: 0 <= i < |rest| ==> rest[i] == chain[i + 1];
    PoolRoomOfOthers(before, after, chain[0].name, rest, mid);
    PoolRoomOfOthers(before, after, chain[0].name, rest, later);
    PoolRoomGrows(before, rest, now, mid);
    RoomGrows(before, chain[0].name, chain[0].limits, now, later);
  }

  lemma ChainGoesOn(chain: seq<Provider>, g: Progress)
    requires ValidChain(chain) && chain != [] && g.refused == [] && g.remaining != []
    ensures ValidChain(chain[1..]) && Chain(chain, g) == Chain(chain[1..], ProviderTurn(chain[0], g))
  {
    assert Refold(g) == g;
  }

  lemma RestAccepts(chain: seq<Provider>)
    requires ValidChain(chain) && DistinctNames(chain) && AllAccept(chain) && chain != []
    ensures ValidChain(chain[1..]) && DistinctNames(chain[1..]) && AllAccept(chain[1..])
  {
    assert forall i :: 0 <= i < |chain[1..]| ==> chain[1..][i] == chain[i + 1];
  }

  /** What a provider takes of what remains. */
  function Share(p: Provider, g: Progress): nat {
    Min(Room(g.post.claims, p.name, p.limits, g.post.now), |g.remaining|)
  }

  /** One provider takes its share, and the rest of the chain `m` more. */
  lemma {:induction false} OneProviderMore(chain: seq<Provider>, g: Progress, after: Progress, m: nat, end: Progress)
    requires DistinctNames(chain) && chain != []
    requires TookHead(g, Share(chain[0], g), after) && TookHead(after, m, end)
    requires OthersKeepStamps(g.post.claims, after.post.claims, chain[0].name)
    requires Fills(after.post.claims, chain[1..], after.post.now, end.post.now, m, |after.remaining|)
    ensures TookHead(g, Share(chain[0], g) + m, end)
    ensures Fills(g.post.claims, chain, g.post.now, end.post.now, Share(chain[0], g) + m, |g.remaining|)
  {
    TookHeadTwice(g, Share(chain[0], g), after, m, end);
    FillsOneMore(g.post.claims, after.post.claims, chain, g.post.now, after.post.now, end.post.now, |g.remaining|, m);
  }

  /** When every provider accepts, the chain delivers the head of what remains, in
      list order, and fills the pool. */
  lemma {:induction false} ChainAccepts(chain: seq<Provider>, g: Progress) returns (m: nat)
    requires ValidChain(chain) && DistinctNames(chain) && AllAccept(chain)
    requires g.refused == [] && AllPending(g) && DistinctKeys(g.remaining)
    ensures TookHead(g, m, Chain(chain, g))
    ensures Fills(g.post.claims, chain, g.post.now, Chain(chain, g).post.now, m, |g.remaining|)
    decreases |chain|
  {
    if chain == [] || g.remaining == [] {
      assert Refold(g) == g;
      m := 0;
    } else {
      RestAccepts(chain);
      FirstTurn(chain[0], g);
      ChainGoesOn(chain, g);
      m := ChainAccepts(chain[1..], ProviderTurn(chain[0], g));
      OneProviderMore(chain, g, ProviderTurn(chain[0], g), m, Chain(chain, g));
      m := Share(chain[0], g) + m;
    }
  }

  lemma FirstTurn(p: Provider, g: Progress)
    requires p.batchSize > 0 && AcceptsEverything(p)
    requires g.refused == [] && AllPending(g) && DistinctKeys(g.remaining)
    ensures var after := ProviderTurn(p, g);
      && TookHead(g, Share(p, g), after)
      && OthersKeepStamps(g.post.claims, after.post.claims, p.name)
      && after.refused == [] && AllPending(after) && DistinctKeys(after.remaining)
  {
    assert Refold(g) == g;
    var room := Room(g.post.claims, p.name, p.limits, g.post.now);
    TurnAccepts(p, room, g);
    TurnKeepsOtherStamps(p, room, g);
    KeysPastPrefix(g.remaining, Min(room, |g.remaining|));
  }

  /** Claiming stamps nobody, so the room is the one measured before it. */
  lemma StartRoom(st: Post, items: seq<Outgoing>, chain: seq<Provider>, failureCap: int, now: int)
    ensures PoolRoom(Start(st, items, failureCap).post.claims, chain, now) == PoolRoom(st.claims, chain, now)
  {
    ClaimAllIsSound(items, Dead(st, failureCap), st.claims, st.now);
    PoolRoomOfPending(st.claims, Start(st, items, failureCap).post.claims, chain, now);
  }

  lemma StartIsReady(st: Post, items: seq<Outgoing>, failureCap: int)
    ensures var g := Start(st, items, failureCap);
      g.sent == [] && g.refused == [] && AllPending(g) && DistinctKeys(g.remaining)
  {
    StartIsSound(st, items, failureCap);
    var g := Start(st, items, failureCap);
    PartsApart(g.sent + g.refused, g.remaining);
  }

  /** The wall predicted before sending is reached: with every provider accepting, a
      batch refuses nothing, delivers a head of the items it claims, in order, and
      defers the rest. That head fills the pool's room as it was when the batch
      began, and no more than the sends that counted then leave free in the end. */
  lemma AcceptedBatchFillsThePool(st: Post, items: seq<Outgoing>, chain: seq<Provider>, failureCap: int)
    requires ValidChain(chain) && DistinctNames(chain) && AllAccept(chain)
    ensures var o := Batch(st, items, chain, failureCap);
      && o.refused == [] && o.claimed == o.sent + o.deferred
      && Fills(st.claims, chain, st.now, o.post.now, |o.sent|, |o.claimed|)
  {
    var start := Start(st, items, failureCap);
    StartIsReady(st, items, failureCap);
    var m := ChainAccepts(chain, start);
    assert start.remaining == start.remaining[..m] + start.remaining[m..];
    StartRoom(st, items, chain, failureCap, st.now);
    StartRoom(st, items, chain, failureCap, Chain(chain, start).post.now);
  }

  lemma {:induction false} PoolRoomOfPending(before: Claims, after: Claims, chain: seq<Provider>, now: int)
    requires forall k :: k in before && before[k].stamp.By? ==> k in after && after[k] == before[k]
    requires forall k :: k in after && after[k].stamp.By? ==> k in before && after[k] == before[k]
    ensures PoolRoom(before, chain, now) == PoolRoom(after, chain, now)
  {
    if chain != [] {
      RoomOfOthers(before, after, chain[0].name + "?", chain[0].name, chain[0].limits, now);
      PoolRoomOfPending(before, after, chain[1..], now);
    }
  }

  // ---------------------------------------------------------------------
  // How long a batch can take

  /** No call takes longer than `e` seconds. */
  ghost predicate Brisk(chain: seq<Provider>, e: nat) {
    forall i :: 0 <= i < |chain| ==> BriskOne(chain[i], e)
  }

  ghost predicate BriskOne(p: Provider, e: nat) {
    forall n, items :: p.relay(n, items).elapsed <= e
  }

  /** `h` is at most `e` seconds for each mail sent since `g` later. */
  ghost predicate InTime(g: Progress, h: Progress, e: nat) {
    |g.sent| <= |h.sent| && h.post.now - g.post.now <= e * (|h.sent| - |g.sent|)
  }

  lemma MoreTime(e: nat, a: nat, b: nat)
    ensures e * (a + b) == e * a + e * b
    ensures b > 0 ==> e * b >= e
  {
    if b > 0 {
      assert e * (b - 1) >= 0;
    }
  }

  lemma BriskTurn(p: Provider, room: int, g: Progress, e: nat)
    requires p.batchSize > 0 && AcceptsEverything(p) && BriskOne(p, e)
    ensures InTime(g, Turn(p, room, g), e)
  {
    var inv := (left: int, h: Progress) => InTime(g, h, e);
    forall left, h: Progress | left > 0 && h.remaining != [] && inv(left, h)
      ensures var d := Deliver(p, |h.post.offers|, NextChunk(p, left, h.remaining));
        inv(left - |d.sent|, Absorb(p, h, d))
    {
      var chunk := NextChunk(p, left, h.remaining);
      DeliverAccepts(p, |h.post.offers|, chunk);
      MoreTime(e, |h.sent| - |g.sent|, |chunk|);
    }
    var left := TurnInduction(p, room, g, inv);
  }

  lemma InTimeTwice(g: Progress, h: Progress, end: Progress, e: nat)
    requires InTime(g, h, e) && InTime(h, end, e)
    ensures InTime(g, end, e)
  {
    MoreTime(e, |h.sent| - |g.sent|, |end.sent| - |h.sent|);
  }

  lemma BriskProviderTurn(p: Provider, g: Progress, e: nat)
    requires p.batchSize > 0 && AcceptsEverything(p) && BriskOne(p, e)
    ensures InTime(g, ProviderTurn(p, g), e)
  {
    BriskTurn(p, Room(g.post.claims, p.name, p.limits, g.post.now), Refold(g), e);
  }

  lemma {:induction false} BriskChain(chain: seq<Provider>, g: Progress, e: nat)
    requires ValidChain(chain) && AllAccept(chain) && Brisk(chain, e)
    ensures InTime(g, Chain(chain, g), e)
    decreases |chain|
  {
    if chain != [] && Refold(g).remaining != [] {
      var rest, t := chain[1..], ProviderTurn(chain[0], g);
      BriskProviderTurn(chain[0], g, e);
      assert forall i :: 0 <= i < |rest| ==> rest[i] == chain[i + 1];
      BriskChain(rest, t, e);
      InTimeTwice(g, t, Chain(rest, t), e);
    }
  }

  lemma MulMore(e: nat, a: nat, b: nat)
    requires a <= b
    ensures e * a <= e * b
  {
    MoreTime(e, a, b - a);
  }

  lemma {:induction false} ClaimedFit(items: seq<Outgoing>, dead: set<Address>, claims: Claims, now: int)
    ensures |ClaimAll(items, dead, claims, now).0| <= |items|
  {
    if items != [] {
      var mid := if items[0].to !in dead && Claimable(claims, items[0].key, now)
                 then claims[items[0].key := Row(Pending, now)] else claims;
      ClaimedFit(items[1..], dead, mid, now);
    }
  }

  /** A batch of accepting providers is over after one call's time for each mail. */
  lemma BriskBatch(st: Post, items: seq<Outgoing>, chain: seq<Provider>, failureCap: int, e: nat)
    requires ValidChain(chain) && AllAccept(chain) && Brisk(chain, e)
    ensures st.now <= Batch(st, items, chain, failureCap).post.now <= st.now + e * |items|
  {
    var o := Batch(st, items, chain, failureCap);
    BatchTime(st, items, chain, failureCap);
    BriskChain(chain, Start(st, items, failureCap), e);
    BatchConserves(st, items, chain, failureCap);
    assert |multiset(o.sent)| <= |multiset(o.claimed)|;
    ClaimedFit(items, Dead(st, failureCap), st.claims, st.now);
    MulMore(e, |o.sent|, |items|);
  }

  /** Whatever the batch does, no send that counts now leaves its window meanwhile. */
  ghost predicate Steady(st: Post, items: seq<Outgoing>, chain: seq<Provider>, e: nat) {
    Brisk(chain, e) && NothingAgesOut(st.claims, chain, st.now, st.now + e * |items|)
  }

  /** So the room is the same when the batch ends. */
  lemma SteadyRoom(st: Post, items: seq<Outgoing>, chain: seq<Provider>, failureCap: int, e: nat)
    requires ValidChain(chain) && AllAccept(chain) && Steady(st, items, chain, e)
    ensures PoolRoom(st.claims, chain, Batch(st, items, chain, failureCap).post.now)
         == PoolRoom(st.claims, chain, st.now)
  {
    BriskBatch(st, items, chain, failureCap, e);
    PoolRoomStays(st.claims, chain, st.now, Batch(st, items, chain, failureCap).post.now);
  }

  /** The prediction is exact when the slowest call, once for each mail, lets no send
      that counts leave its window. */
  lemma ThePoolIsFilledExactly(st: Post, items: seq<Outgoing>, chain: seq<Provider>, failureCap: int, e: nat)
    requires ValidChain(chain) && DistinctNames(chain) && AllAccept(chain)
    requires Steady(st, items, chain, e)
    ensures var o := Batch(st, items, chain, failureCap);
      |o.sent| == Min(PoolRoom(st.claims, chain, st.now), |o.claimed|)
  {
    AcceptedBatchFillsThePool(st, items, chain, failureCap);
    SteadyRoom(st, items, chain, failureCap, e);
  }
}
