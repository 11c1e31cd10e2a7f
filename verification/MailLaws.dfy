/** What one batch conserves, for any behaviour of any provider. */
module MailLaws {
  import opened Common
  import opened MailDelivery
  import opened MailBatch

  // ---------------------------------------------------------------------
  // Keys apart

  lemma {:induction false} DistinctKeysCount(items: seq<Outgoing>)
    ensures |Keys(items)| <= |items|
    ensures DistinctKeys(items) <==> |Keys(items)| == |items|
  {
    if items != [] {
      var rest := items[1..];
      DistinctKeysCount(rest);
      assert Keys(items) == {items[0].key} + Keys(rest);
      if items[0].key in Keys(rest) {
        assert {items[0].key} + Keys(rest) == Keys(rest);
        var x :| x in rest && x.key == items[0].key;
        var i :| 0 <= i < |rest| && rest[i] == x;
        assert items[i + 1].key == items[0].key;
      } else {
        assert |Keys(items)| == 1 + |Keys(rest)|;
        if DistinctKeys(rest) {
          forall i, j | 0 <= i < j < |items| ensures items[i].key != items[j].key {
            assert items[j] == rest[j - 1];
            assert rest[j - 1].key in Keys(rest);
            if i > 0 {
              assert items[i] == rest[i - 1];
            }
          }
        }
        if DistinctKeys(items) {
          forall i, j | 0 <= i < j < |rest| ensures rest[i].key != rest[j].key {
            assert rest[i] == items[i + 1] && rest[j] == items[j + 1];
          }
        }
      }
    }
  }

  /** Having distinct keys does not depend on the order. */
  lemma PermutedKeys(a: seq<Outgoing>, b: seq<Outgoing>)
    requires multiset(a) == multiset(b) && DistinctKeys(a)
    ensures DistinctKeys(b) && Keys(a) == Keys(b)
  {
    SameItems(a, b);
    DistinctKeysCount(a);
    DistinctKeysCount(b);
    assert |a| == |multiset(a)| == |multiset(b)| == |b|;
  }

  lemma SameItems(a: seq<Outgoing>, b: seq<Outgoing>)
    requires multiset(a) == multiset(b)
    ensures Elements(a) == Elements(b) && Keys(a) == Keys(b)
  {
    forall x ensures x in a <==> x in b {
      assert x in multiset(a) <==> x in multiset(b);
    }
  }

  lemma PartsApart(a: seq<Outgoing>, b: seq<Outgoing>)
    requires DistinctKeys(a + b)
    ensures DistinctKeys(a) && DistinctKeys(b) && Keys(a) !! Keys(b)
  {
    forall i, j | 0 <= i < j < |a| ensures a[i].key != a[j].key {
      assert (a + b)[i] == a[i] && (a + b)[j] == a[j];
    }
    forall i, j | 0 <= i < j < |b| ensures b[i].key != b[j].key {
      assert (a + b)[|a| + i] == b[i] && (a + b)[|a| + j] == b[j];
    }
    forall x, y | x in a && y in b ensures x.key != y.key {
      var i :| 0 <= i < |a| && a[i] == x;
      var j :| 0 <= j < |b| && b[j] == y;
      assert (a + b)[i] == x && (a + b)[|a| + j] == y;
    }
  }

  // ---------------------------------------------------------------------
  // Nothing is lost or doubled, whatever a call answers

  function All(g: Progress): seq<Outgoing> {
    g.sent + g.refused + g.remaining
  }

  ghost predicate Conserved(claimed: seq<Outgoing>, g: Progress) {
    multiset(All(g)) == multiset(claimed) && DistinctKeys(All(g))
  }

  /** The facts about one call on a chunk of `remaining` that everything below
      rests on: the graded prefix of length h leaves, split into sent and refused. */
  lemma CallSplits(p: Provider, n: nat, room: int, remaining: seq<Outgoing>, d: Delivery) returns (h: nat)
    requires p.batchSize > 0 && room > 0 && remaining != [] && DistinctKeys(remaining)
    requires d == Deliver(p, n, NextChunk(p, room, remaining))
    ensures h <= |remaining|
    ensures multiset(remaining[..h]) == multiset(d.sent) + multiset(d.refused)
    ensures Without(remaining, Keys(d.sent) + Keys(d.refused)) == remaining[h..]
  {
    var chunk := NextChunk(p, room, remaining);
    var grades := DeliverGradesAPrefix(p, n, chunk);
    h := |grades|;
    var graded := remaining[..h];
    assert chunk[..h] == graded;
    PickSplits(graded, grades);
    PickKeys(graded, grades);
    KeysPastPrefix(remaining, h);
    WithoutPrefix(remaining, h, Keys(d.sent) + Keys(d.refused));
  }

  lemma KeysPastPrefix(items: seq<Outgoing>, h: nat)
    requires h <= |items| && DistinctKeys(items)
    ensures Keys(items[..h]) !! Keys(items[h..]) && DistinctKeys(items[..h]) && DistinctKeys(items[h..])
  {
    assert items == items[..h] + items[h..];
    PartsApart(items[..h], items[h..]);
  }

  lemma CallIsLogged(p: Provider, n: nat, room: int, remaining: seq<Outgoing>)
    requires p.batchSize > 0 && room > 0 && remaining != [] && DistinctKeys(remaining)
    ensures var chunk := NextChunk(p, room, remaining); Logged(Deliver(p, n, chunk), chunk)
  {
    var chunk := NextChunk(p, room, remaining);
    KeysPastPrefix(remaining, |chunk|);
    DeliverNeverReoffers(p, n, chunk);
  }

  lemma AbsorbConserves(claimed: seq<Outgoing>, g: Progress, d: Delivery, p: Provider, h: nat)
    requires Conserved(claimed, g) && h <= |g.remaining|
    requires multiset(g.remaining[..h]) == multiset(d.sent) + multiset(d.refused)
    requires Without(g.remaining, Keys(d.sent) + Keys(d.refused)) == g.remaining[h..]
    ensures Conserved(claimed, Absorb(p, g, d))
  {
    var after := Absorb(p, g, d);
    assert g.remaining == g.remaining[..h] + g.remaining[h..];
    assert multiset(All(after)) == multiset(All(g));
    PermutedKeys(All(g), All(after));
  }

  lemma RefoldConserves(claimed: seq<Outgoing>, g: Progress)
    requires Conserved(claimed, g)
    ensures Conserved(claimed, Refold(g))
  {
    assert multiset(All(Refold(g))) == multiset(All(g));
    PermutedKeys(All(g), All(Refold(g)));
  }

  // ---------------------------------------------------------------------
  // The claim rows and the call log

  /** The rows while a batch that claimed `claimed` from state `st` runs: a sent
      item is stamped with a provider and a time inside the batch, an unsent one
      is still pending, every other row is untouched. */
  ghost predicate RowsSound(st: Post, claimed: seq<Outgoing>, g: Progress) {
    && st.now <= g.post.now
    && (forall k :: k !in Keys(claimed) ==> (k in g.post.claims <==> k in st.claims))
    && (forall k :: k !in Keys(claimed) && k in st.claims ==> g.post.claims[k] == st.claims[k])
    && (forall x :: x in g.sent ==> SentRow(st, g.post, x.key))
    && (forall x :: x in g.refused || x in g.remaining ==> PendingRow(g.post, x.key))
  }

  ghost predicate SentRow(st: Post, post: Post, k: Key) {
    k in post.claims && post.claims[k].stamp.By? && st.now <= post.claims[k].at <= post.now
  }

  ghost predicate PendingRow(post: Post, k: Key) {
    k in post.claims && post.claims[k].stamp.Pending?
  }

  /** The calls made since `st`: only claimed items were offered, the accepted
      ones are the sent ones, and none of them was offered again. */
  ghost predicate LogSound(st: Post, claimed: seq<Outgoing>, g: Progress) {
    && st.offers <= g.post.offers
    && var calls := g.post.offers[|st.offers|..];
    && OffersOnly(calls, Elements(claimed))
    && AcceptedIn(calls) == Elements(g.sent)
    && NeverReoffered(calls)
  }

  ghost predicate Sound(st: Post, claimed: seq<Outgoing>, g: Progress) {
    Conserved(claimed, g) && RowsSound(st, claimed, g) && LogSound(st, claimed, g)
  }

  /** Where the keys of one call's items are: sent ones leave `remaining` and are
      nowhere else. */
  lemma CallKeys(claimed: seq<Outgoing>, g: Progress, d: Delivery, p: Provider, h: nat)
    requires Conserved(claimed, g) && h <= |g.remaining|
    requires multiset(g.remaining[..h]) == multiset(d.sent) + multiset(d.refused)
    requires Without(g.remaining, Keys(d.sent) + Keys(d.refused)) == g.remaining[h..]
    ensures Keys(d.sent) <= Keys(claimed)
    ensures Keys(d.sent) !! Keys(g.sent)
    ensures forall x :: x in d.sent || x in d.refused ==> x in g.remaining
    ensures forall x :: x in Absorb(p, g, d).refused || x in Absorb(p, g, d).remaining ==>
              x.key !in Keys(d.sent) && (x in g.refused || x in g.remaining)
  {
    var unsent := g.refused + d.refused + g.remaining[h..];
    AbsorbConserves(claimed, g, d, p, h);
    assert All(Absorb(p, g, d)) == g.sent + (d.sent + unsent);
    PartsApart(g.sent, d.sent + unsent);
    PartsApart(d.sent, unsent);
    SameItems(g.remaining[..h], d.sent + d.refused);
    forall x | x in d.sent || x in d.refused ensures x in g.remaining {
      assert x in d.sent + d.refused && x in Elements(g.remaining[..h]);
    }
    assert Keys(d.sent + unsent) !! Keys(g.sent) && Keys(d.sent) <= Keys(d.sent + unsent) by {
      assert forall x :: x in d.sent ==> x in d.sent + unsent;
    }
    forall x | x in g.refused + d.refused || x in g.remaining[h..]
      ensures x.key !in Keys(d.sent) && (x in g.refused || x in g.remaining)
    {
      assert x in unsent && x.key in Keys(unsent);
    }
    SameItems(All(g), claimed);
    forall x | x in d.sent ensures x.key in Keys(claimed) {
      assert x in All(g);
    }
  }

  lemma AbsorbKeepsRows(st: Post, claimed: seq<Outgoing>, g: Progress, d: Delivery, p: Provider, h: nat)
    requires Conserved(claimed, g) && RowsSound(st, claimed, g) && h <= |g.remaining|
    requires multiset(g.remaining[..h]) == multiset(d.sent) + multiset(d.refused)
    requires Without(g.remaining, Keys(d.sent) + Keys(d.refused)) == g.remaining[h..]
    ensures RowsSound(st, claimed, Absorb(p, g, d))
  {
    var after := Absorb(p, g, d);
    CallKeys(claimed, g, d, p, h);
    forall x | x in after.sent ensures SentRow(st, after.post, x.key) {
      if x in g.sent {
        assert SentRow(st, g.post, x.key) && x.key in Keys(g.sent);
      } else {
        assert PendingRow(g.post, x.key);
      }
    }
    forall x | x in after.refused || x in after.remaining ensures PendingRow(after.post, x.key) {
      assert PendingRow(g.post, x.key);
    }
  }

  lemma AbsorbKeepsLog(st: Post, claimed: seq<Outgoing>, g: Progress, d: Delivery, p: Provider, chunk: seq<Outgoing>)
    requires Conserved(claimed, g) && LogSound(st, claimed, g)
    requires chunk <= g.remaining && Logged(d, chunk)
    ensures LogSound(st, claimed, Absorb(p, g, d))
  {
    var calls := g.post.offers[|st.offers|..];
    var after := Absorb(p, g, d);
    SameItems(All(g), claimed);
    assert after.post.offers[|st.offers|..] == calls + d.offers;
    PartsApart(g.sent + g.refused, g.remaining);
    assert Elements(g.sent) !! Elements(g.remaining) by {
      assert forall x :: x in g.sent ==> x in g.sent + g.refused && x.key in Keys(g.sent + g.refused);
      assert forall x :: x in g.remaining ==> x.key in Keys(g.remaining);
    }
    forall o, x | o in d.offers && x in o.items ensures x in g.remaining && x in Elements(claimed) {
      assert x in Elements(chunk) && x in g.remaining;
      assert x in All(g);
    }
    NeverReofferedAppend(calls, d.offers);
    AcceptedInAppend(calls, d.offers);
  }

  lemma AbsorbKeepsSound(st: Post, claimed: seq<Outgoing>, g: Progress, p: Provider, room: int)
    requires p.batchSize > 0 && room > 0 && g.remaining != [] && Sound(st, claimed, g)
    ensures var d := Deliver(p, |g.post.offers|, NextChunk(p, room, g.remaining));
      Sound(st, claimed, Absorb(p, g, d))
  {
    var chunk := NextChunk(p, room, g.remaining);
    var d := Deliver(p, |g.post.offers|, chunk);
    PartsApart(g.sent + g.refused, g.remaining);
    var h := CallSplits(p, |g.post.offers|, room, g.remaining, d);
    AbsorbConserves(claimed, g, d, p, h);
    AbsorbKeepsRows(st, claimed, g, d, p, h);
    CallIsLogged(p, |g.post.offers|, room, g.remaining);
    AbsorbKeepsLog(st, claimed, g, d, p, chunk);
  }

  /** The next call of a turn, and what it leaves. */
  function NextCall(p: Provider, room: int, g: Progress): Delivery
    requires p.batchSize > 0 && room > 0 && g.remaining != []
  {
    Deliver(p, |g.post.offers|, NextChunk(p, room, g.remaining))
  }

  function AfterChunk(p: Provider, room: int, g: Progress): Progress
    requires p.batchSize > 0 && room > 0 && g.remaining != []
  {
    Absorb(p, g, NextCall(p, room, g))
  }

  lemma CallShrinks(p: Provider, room: int, g: Progress)
    requires p.batchSize > 0 && room > 0 && g.remaining != [] && !NextCall(p, room, g).unusable
    ensures |AfterChunk(p, room, g).remaining| < |g.remaining|
  {
    CallMakesProgress(p, |g.post.offers|, room, g.remaining);
  }

  /** What is left of a turn, while the provider is usable. */
  function Rest(p: Provider, room: int, usable: bool, g: Progress): Progress
    requires p.batchSize > 0
  {
    if usable then Turn(p, room, g) else g
  }

  lemma {:induction false} TurnOnce(p: Provider, room: int, g: Progress)
    requires p.batchSize > 0 && room > 0 && g.remaining != []
    ensures var d := NextCall(p, room, g);
      Turn(p, room, g) == Rest(p, room - |d.sent|, !d.unusable, AfterChunk(p, room, g))
  {
  }

  /** The induction over one provider's turn, for any invariant of the room left
      and the progress made. */
  ghost predicate KeptByCalls(p: Provider, inv: (int, Progress) -> bool)
    requires p.batchSize > 0
  {
    forall room, g: Progress {:trigger inv(room, g)} ::
      room > 0 && g.remaining != [] && inv(room, g) ==>
        var d := Deliver(p, |g.post.offers|, NextChunk(p, room, g.remaining));
        inv(room - |d.sent|, Absorb(p, g, d))
  }

  lemma {:induction false} TurnInduction(p: Provider, room: int, g: Progress, inv: (int, Progress) -> bool)
    returns (left: int)
    requires p.batchSize > 0 && KeptByCalls(p, inv) && inv(room, g)
    ensures inv(left, Turn(p, room, g))
    decreases |g.remaining|
  {
    left := room;
    if g.remaining != [] && room > 0 {
      var d := Deliver(p, |g.post.offers|, NextChunk(p, room, g.remaining));
      left := room - |d.sent|;
      if !d.unusable {
        CallMakesProgress(p, |g.post.offers|, room, g.remaining);
        left := TurnInduction(p, room - |d.sent|, Absorb(p, g, d), inv);
      }
    }
  }

  /** Where a turn may end: nothing is left, the room is spent, or a call failed. */
  ghost predicate EndsWith(p: Provider, inv: (int, Progress) -> bool, end: Progress -> bool)
    requires p.batchSize > 0
  {
    && (forall room, g: Progress {:trigger inv(room, g)} ::
          inv(room, g) && (g.remaining == [] || room <= 0) ==> end(g))
    && (forall room, g: Progress {:trigger inv(room, g)} ::
          room > 0 && g.remaining != [] && inv(room, g) ==>
            var d := Deliver(p, |g.post.offers|, NextChunk(p, room, g.remaining));
            d.unusable ==> end(Absorb(p, g, d)))
  }

  lemma {:induction false} TurnEnds(p: Provider, room: int, g: Progress, inv: (int, Progress) -> bool,
                                    end: Progress -> bool)
    requires p.batchSize > 0 && KeptByCalls(p, inv) && EndsWith(p, inv, end) && inv(room, g)
    ensures end(Turn(p, room, g))
    decreases |g.remaining|
  {
    if g.remaining != [] && room > 0 {
      var d := Deliver(p, |g.post.offers|, NextChunk(p, room, g.remaining));
      if !d.unusable {
        CallMakesProgress(p, |g.post.offers|, room, g.remaining);
        TurnEnds(p, room - |d.sent|, Absorb(p, g, d), inv, end);
      }
    }
  }

  /** The same where a failed call need not keep the invariant. */
  ghost predicate LeadsTo(p: Provider, inv: (int, Progress) -> bool, end: Progress -> bool)
    requires p.batchSize > 0
  {
    && (forall room, g: Progress {:trigger inv(room, g)} ::
          inv(room, g) && (g.remaining == [] || room <= 0) ==> end(g))
    && (forall room, g: Progress {:trigger inv(room, g)} ::
          room > 0 && g.remaining != [] && inv(room, g) ==>
            var d := Deliver(p, |g.post.offers|, NextChunk(p, room, g.remaining));
            if d.unusable then end(Absorb(p, g, d)) else inv(room - |d.sent|, Absorb(p, g, d)))
  }

  lemma {:induction false} TurnLeads(p: Provider, room: int, g: Progress, inv: (int, Progress) -> bool,
                                     end: Progress -> bool)
    requires p.batchSize > 0 && LeadsTo(p, inv, end) && inv(room, g)
    ensures end(Turn(p, room, g))
    decreases |g.remaining|
  {
    if g.remaining != [] && room > 0 {
      var d := Deliver(p, |g.post.offers|, NextChunk(p, room, g.remaining));
      if !d.unusable {
        CallMakesProgress(p, |g.post.offers|, room, g.remaining);
        TurnLeads(p, room - |d.sent|, Absorb(p, g, d), inv, end);
      }
    }
  }

  lemma TurnKeepsSound(st: Post, claimed: seq<Outgoing>, p: Provider, room: int, g: Progress)
    requires p.batchSize > 0 && Sound(st, claimed, g)
    ensures Sound(st, claimed, Turn(p, room, g))
  {
    var inv := (room: int, g: Progress) => Sound(st, claimed, g);
    forall room, g: Progress | room > 0 && g.remaining != [] && inv(room, g)
      ensures var d := Deliver(p, |g.post.offers|, NextChunk(p, room, g.remaining));
        inv(room - |d.sent|, Absorb(p, g, d))
    {
      AbsorbKeepsSound(st, claimed, g, p, room);
    }
    var left := TurnInduction(p, room, g, inv);
  }

  lemma RefoldKeepsSound(st: Post, claimed: seq<Outgoing>, g: Progress)
    requires Sound(st, claimed, g)
    ensures Sound(st, claimed, Refold(g))
  {
    RefoldConserves(claimed, g);
  }

  lemma ProviderTurnKeepsSound(st: Post, claimed: seq<Outgoing>, p: Provider, g: Progress)
    requires p.batchSize > 0 && Sound(st, claimed, g)
    ensures Sound(st, claimed, ProviderTurn(p, g))
  {
    RefoldKeepsSound(st, claimed, g);
    var room := Room(g.post.claims, p.name, p.limits, g.post.now);
    TurnKeepsSound(st, claimed, p, room, Refold(g));
    var after := Turn(p, room, Refold(g));
    RefoldKeepsSound(st, claimed, after);
    assert All(Refold(after).(unusable := after.unusable + {p.name})) == All(Refold(after));
  }

  lemma {:induction false} ChainKeepsSound(st: Post, claimed: seq<Outgoing>, chain: seq<Provider>, g: Progress)
    requires ValidChain(chain) && Sound(st, claimed, g)
    ensures Sound(st, claimed, Chain(chain, g))
    decreases |chain|
  {
    RefoldKeepsSound(st, claimed, g);
    if chain != [] && Refold(g).remaining != [] {
      ProviderTurnKeepsSound(st, claimed, chain[0], g);
      ChainKeepsSound(st, claimed, chain[1..], ProviderTurn(chain[0], g));
    }
  }

  // ---------------------------------------------------------------------
  // Claiming

  /** Claiming takes distinct keys, marks exactly them pending now, and touches
      nothing else. */
  ghost predicate ClaimedSoundly(items: seq<Outgoing>, claims: Claims, now: int, taken: seq<Outgoing>, after: Claims) {
    && DistinctKeys(taken)
    && (forall x :: x in taken ==> x in items && Claimable(claims, x.key, now))
    && after.Keys == claims.Keys + Keys(taken)
    && (forall k :: k in Keys(taken) ==> after[k] == Row(Pending, now))
    && (forall k :: k in claims && k !in Keys(taken) ==> after[k] == claims[k])
  }

  lemma {:induction false} ClaimAllIsSound(items: seq<Outgoing>, dead: set<Address>, claims: Claims, now: int)
    ensures var (taken, after) := ClaimAll(items, dead, claims, now);
      ClaimedSoundly(items, claims, now, taken, after)
  {
    if items != [] {
      var it := items[0];
      if it.to !in dead && Claimable(claims, it.key, now) {
        var mid := claims[it.key := Row(Pending, now)];
        var (taken, after) := ClaimAll(items[1..], dead, mid, now);
        ClaimAllIsSound(items[1..], dead, mid, now);
        assert !Claimable(mid, it.key, now);
        var all := [it] + taken;
        assert Keys(all) == {it.key} + Keys(taken);
        forall i, j | 0 <= i < j < |all| ensures all[i].key != all[j].key {
          assert all[j] in taken;
        }
      } else {
        ClaimAllIsSound(items[1..], dead, claims, now);
      }
    }
  }

  lemma StartIsSound(st: Post, items: seq<Outgoing>, failureCap: int)
    ensures var g := Start(st, items, failureCap);
      Sound(st, g.remaining, g)
  {
    var g := Start(st, items, failureCap);
    ClaimAllIsSound(items, Dead(st, failureCap), st.claims, st.now);
    assert All(g) == g.remaining;
    assert g.post.offers[|st.offers|..] == [];
    assert AcceptedIn([]) == {};
    forall x | x in g.remaining ensures PendingRow(g.post, x.key) {
      assert x.key in Keys(g.remaining);
    }
  }

  // ---------------------------------------------------------------------
  // The laws of a whole batch

  /** Every claimed item ends in exactly one of sent, refused and deferred. */
  ghost predicate Accounted(o: Outcome) {
    && multiset(o.claimed) == multiset(o.sent) + multiset(o.refused) + multiset(o.deferred)
    && DistinctKeys(o.claimed)
    && Keys(o.sent) !! Keys(o.refused) !! Keys(o.deferred)
  }

  /** Of the claimed keys exactly the delivered ones keep a row, stamped with a
      provider during the batch; no other row changes. */
  ghost predicate OnlyDeliveredStayClaimed(st: Post, o: Outcome) {
    && (forall k :: k in Keys(o.claimed) ==> (k in o.post.claims <==> k in o.Delivered()))
    && (forall k :: k in o.Delivered() ==> SentRow(st, o.post, k))
    && (forall k :: k !in Keys(o.claimed) ==> (k in o.post.claims <==> k in st.claims))
    && (forall k :: k !in Keys(o.claimed) && k in st.claims ==> o.post.claims[k] == st.claims[k])
  }

  /** In the calls the batch made, only claimed items were offered, the accepted
      ones are those reported sent, and none of them was offered again. */
  ghost predicate NothingReoffered(st: Post, o: Outcome) {
    && st.offers <= o.post.offers
    && var calls := o.post.offers[|st.offers|..];
    && OffersOnly(calls, Elements(o.claimed))
    && AcceptedIn(calls) == Elements(o.sent)
    && NeverReoffered(calls)
  }

  lemma BatchEndIsSound(st: Post, items: seq<Outgoing>, chain: seq<Provider>, failureCap: int)
    requires ValidChain(chain)
    ensures var start := Start(st, items, failureCap); Sound(st, start.remaining, Chain(chain, start))
    ensures DistinctKeys(Start(st, items, failureCap).remaining)
  {
    var start := Start(st, items, failureCap);
    StartIsSound(st, items, failureCap);
    assert All(start) == start.remaining;
    ChainKeepsSound(st, start.remaining, chain, start);
  }

  lemma BatchConserves(st: Post, items: seq<Outgoing>, chain: seq<Provider>, failureCap: int)
    requires ValidChain(chain)
    ensures Accounted(Batch(st, items, chain, failureCap))
  {
    BatchEndIsSound(st, items, chain, failureCap);
    var end := Chain(chain, Start(st, items, failureCap));
    PartsApart(end.sent + end.refused, end.remaining);
    PartsApart(end.sent, end.refused);
    assert Keys(end.sent + end.refused) == Keys(end.sent) + Keys(end.refused);
  }

  lemma BatchKeepsExactlyDeliveredClaims(st: Post, items: seq<Outgoing>, chain: seq<Provider>, failureCap: int)
    requires ValidChain(chain)
    ensures OnlyDeliveredStayClaimed(st, Batch(st, items, chain, failureCap))
  {
    BatchEndIsSound(st, items, chain, failureCap);
    BatchConserves(st, items, chain, failureCap);
    var o := Batch(st, items, chain, failureCap);
    var end := Chain(chain, Start(st, items, failureCap));
    KeysOfParts(o);
    forall k | k in o.Delivered() ensures SentRow(st, o.post, k) {
      assert SentRow(st, end.post, k);
    }
  }

  lemma KeysOfParts(o: Outcome)
    requires Accounted(o)
    ensures Keys(o.claimed) == Keys(o.sent) + Keys(o.refused) + Keys(o.deferred)
  {
    var parts := o.sent + o.refused + o.deferred;
    SameItems(o.claimed, parts);
    assert Keys(parts) == Keys(o.sent) + Keys(o.refused) + Keys(o.deferred);
  }

  lemma BatchNeverReoffers(st: Post, items: seq<Outgoing>, chain: seq<Provider>, failureCap: int)
    requires ValidChain(chain)
    ensures NothingReoffered(st, Batch(st, items, chain, failureCap))
  {
    BatchEndIsSound(st, items, chain, failureCap);
  }

  // ---------------------------------------------------------------------
  // Quotas

  /** Rows of a provider that are not `added` were there before: its usage grew by
      the added ones at most, in any window. */
  lemma UsedGrowth(before: Claims, after: Claims, name: string, window: nat, now: int, later: int, added: set<Key>)
    requires now <= later
    requires forall k :: k in after && after[k].stamp == By(name) && k !in added ==>
               k in before && before[k] == after[k]
    ensures Used(after, name, window, later) <= Used(before, name, window, now) + |added|
  {
    UnionCardinality(StampedWithin(after, name, window, later), StampedWithin(before, name, window, now), added);
  }

  lemma SentFits(p: Provider, n: nat, chunk: seq<Outgoing>)
    requires chunk != []
    ensures |Deliver(p, n, chunk).sent| <= |chunk|
  {
    var grades := DeliverGradesAPrefix(p, n, chunk);
    var graded := chunk[..|grades|];
    PickSplits(graded, grades);
    assert |multiset(graded)| == |graded|;
  }

  lemma AbsorbUsage(p: Provider, g: Progress, d: Delivery, name: string, window: nat)
    ensures var post := Absorb(p, g, d).post;
      Used(post.claims, name, window, post.now)
      <= Used(g.post.claims, name, window, g.post.now) + if name == p.name then |d.sent| else 0
  {
    var post := Absorb(p, g, d).post;
    DistinctKeysCount(d.sent);
    UsedGrowth(g.post.claims, post.claims, name, window, g.post.now, post.now,
               if name == p.name then Keys(d.sent) else {});
  }

  /** A provider's turn spends at most its room, and nobody else's. */
  lemma TurnUsage(p: Provider, room: nat, g: Progress, name: string, window: nat)
    requires p.batchSize > 0
    ensures var post := Turn(p, room, g).post;
      Used(post.claims, name, window, post.now)
      <= Used(g.post.claims, name, window, g.post.now) + if name == p.name then room else 0
  {
    var used := Used(g.post.claims, name, window, g.post.now);
    var inv := (left: int, h: Progress) =>
      left >= 0 && Used(h.post.claims, name, window, h.post.now) <= used + if name == p.name then room - left else 0;
    forall left, h: Progress | left > 0 && h.remaining != [] && inv(left, h)
      ensures var d := Deliver(p, |h.post.offers|, NextChunk(p, left, h.remaining));
        inv(left - |d.sent|, Absorb(p, h, d))
    {
      var d := Deliver(p, |h.post.offers|, NextChunk(p, left, h.remaining));
      SentFits(p, |h.post.offers|, NextChunk(p, left, h.remaining));
      AbsorbUsage(p, h, d, name, window);
    }
    var left := TurnInduction(p, room, g, inv);
  }

  lemma {:induction false} TightestIsTight(claims: Claims, name: string, limits: seq<Limit>, now: int, l: Limit)
    requires l in limits
    ensures Tightest(claims, name, limits, now) <= l.max - Used(claims, name, l.window, now)
  {
    if limits[0] != l {
      TightestIsTight(claims, name, limits[1..], now, l);
    }
  }

  lemma {:induction false} ChainUsage(chain: seq<Provider>, g: Progress, name: string, l: Limit)
    requires ValidChain(chain)
    requires forall i :: 0 <= i < |chain| && chain[i].name == name ==> l in chain[i].limits
    ensures var post := Chain(chain, g).post;
      Used(post.claims, name, l.window, post.now) <= Max(Used(g.post.claims, name, l.window, g.post.now), l.max)
    decreases |chain|
  {
    if chain != [] && Refold(g).remaining != [] {
      var p := chain[0];
      var room := Room(g.post.claims, p.name, p.limits, g.post.now);
      TurnUsage(p, room, Refold(g), name, l.window);
      if p.name == name {
        TightestIsTight(g.post.claims, name, p.limits, g.post.now, l);
      }
      var rest := chain[1..];
      assert forall i :: 0 <= i < |rest| ==> rest[i] == chain[i + 1];
      ChainUsage(rest, ProviderTurn(p, g), name, l);
    }
  }

  /** Whatever the providers answer, a batch leaves each provider's usage in each
      of its windows at most at the limit, or where it was if that is higher. */
  lemma UsageStaysWithinLimits(st: Post, items: seq<Outgoing>, chain: seq<Provider>, failureCap: int, name: string,
                               l: Limit)
    requires ValidChain(chain)
    requires forall i :: 0 <= i < |chain| && chain[i].name == name ==> l in chain[i].limits
    ensures var post := Batch(st, items, chain, failureCap).post;
      Used(post.claims, name, l.window, post.now) <= Max(Used(st.claims, name, l.window, st.now), l.max)
  {
    var start := Start(st, items, failureCap);
    var end := Chain(chain, start);
    ClaimAllIsSound(items, Dead(st, failureCap), st.claims, st.now);
    UsedGrowth(st.claims, start.post.claims, name, l.window, st.now, st.now, {});
    ChainUsage(chain, start, name, l);
    UsedGrowth(end.post.claims, Settle(end).claims, name, l.window, end.post.now, end.post.now, {});
  }

  // ---------------------------------------------------------------------
  // Room lost is mail sent

  predicate DistinctNames(chain: seq<Provider>) {
    forall i, j :: 0 <= i < j < |chain| ==> chain[i].name != chain[j].name
  }

  /** `after` has no stamped rows that were not in `before`, save the keys `sent`. */
  ghost predicate OnlySentStamped(before: Claims, after: Claims, sent: set<Key>) {
    forall k :: k in after && after[k].stamp.By? && k !in sent ==> k in before && before[k] == after[k]
  }

  function StampedBy(claims: Claims, keys: set<Key>, name: string): set<Key> {
    set k | k in keys && k in claims && claims[k].stamp == By(name)
  }

  lemma {:induction false} TightestLoss(before: Claims, after: Claims, name: string, limits: seq<Limit>, now: int,
                                        later: int, added: set<Key>)
    requires limits != [] && now <= later
    requires forall k :: k in after && after[k].stamp == By(name) && k !in added ==>
               k in before && before[k] == after[k]
    ensures Tightest(before, name, limits, now) <= Tightest(after, name, limits, later) + |added|
  {
    UsedGrowth(before, after, name, limits[0].window, now, later, added);
    if |limits| > 1 {
      TightestLoss(before, after, name, limits[1..], now, later, added);
    }
  }

  /** The pool's room shrinks by at most one for each mail sent. */
  lemma {:induction false} PoolRoomLoss(chain: seq<Provider>, before: Claims, after: Claims, now: int, later: int,
                                        sent: set<Key>, keys: set<Key>)
    requires DistinctNames(chain) && now <= later && OnlySentStamped(before, after, sent)
    requires forall i :: 0 <= i < |chain| ==> StampedBy(after, sent, chain[i].name) <= keys
    ensures PoolRoom(before, chain, now) <= PoolRoom(after, chain, later) + |keys|
  {
    if chain != [] {
      var p, rest := chain[0], chain[1..];
      var mine := StampedBy(after, sent, p.name);
      if p.limits != [] {
        TightestLoss(before, after, p.name, p.limits, now, later, mine);
      }
      forall i | 0 <= i < |rest| ensures StampedBy(after, sent, rest[i].name) <= keys - mine {
        assert rest[i] == chain[i + 1];
      }
      PoolRoomLoss(rest, before, after, now, later, sent, keys - mine);
      assert |keys| == |mine| + |keys - mine| by {
        assert mine <= keys;
        assert keys == mine + (keys - mine);
      }
    }
  }

  /** A batch takes at most one place of the pool for each mail it delivers. */
  lemma BatchPoolLoss(st: Post, items: seq<Outgoing>, chain: seq<Provider>, failureCap: int, pool: seq<Provider>)
    requires ValidChain(chain) && DistinctNames(pool)
    ensures var o := Batch(st, items, chain, failureCap);
      PoolRoom(st.claims, pool, st.now) <= PoolRoom(o.post.claims, pool, o.post.now) + |o.sent|
  {
    var o := Batch(st, items, chain, failureCap);
    BatchKeepsExactlyDeliveredClaims(st, items, chain, failureCap);
    BatchTime(st, items, chain, failureCap);
    PoolRoomLoss(pool, st.claims, o.post.claims, st.now, o.post.now, o.Delivered(), o.Delivered());
    DistinctKeysCount(o.sent);
  }

  lemma BatchTime(st: Post, items: seq<Outgoing>, chain: seq<Provider>, failureCap: int)
    requires ValidChain(chain)
    ensures st.now <= Batch(st, items, chain, failureCap).post.now
  {
    BatchEndIsSound(st, items, chain, failureCap);
  }
}
