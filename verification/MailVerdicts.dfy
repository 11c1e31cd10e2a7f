/** Whom a batch condemns: which rejections count against an address. */
module MailVerdicts {
  import opened Common
  import opened MailDelivery
  import opened MailBatch
  import opened MailLaws

  /** The items one call's answer rejects for good: graded bad, or alone in a
      content rejection. */
  function Rejected(o: Offer): seq<Outgoing> {
    if Graded(o.items, o.answer) then Pick(o.items, o.answer.verdicts.value, false)
    else if ContentRejected(o.answer.status) && |o.items| == 1 then o.items
    else []
  }

  function RejectedIn(offers: seq<Offer>): set<Outgoing> {
    set o, x | o in offers && x in Rejected(o) :: x
  }

  lemma RejectedInAppend(a: seq<Offer>, b: seq<Offer>)
    ensures RejectedIn(a + b) == RejectedIn(a) + RejectedIn(b)
  {
    forall x | x in RejectedIn(a) + RejectedIn(b) ensures x in RejectedIn(a + b) {
      if x in RejectedIn(a) {
        var o :| o in a && x in Rejected(o);
        assert o in a + b;
      } else {
        var o :| o in b && x in Rejected(o);
        assert o in a + b;
      }
    }
  }

  lemma RejectedInOne(o: Offer)
    ensures RejectedIn([o]) == Elements(Rejected(o))
  {
    assert o in [o];
  }

  /** What a delivery reports as refused is what its calls rejected, all of them calls
      to its provider. */
  ghost predicate RefusedInCalls(d: Delivery, name: string) {
    RejectedIn(d.offers) == Elements(d.refused) && forall o :: o in d.offers ==> o.provider == name
  }

  lemma HalvesReject(o: Offer, left: Delivery, right: Delivery, d: Delivery)
    requires Rejected(o) == [] && RefusedInCalls(left, o.provider) && RefusedInCalls(right, o.provider)
    requires d.offers == [o] + left.offers + right.offers && d.refused == left.refused + right.refused
    ensures RefusedInCalls(d, o.provider)
  {
    RejectedInOne(o);
    RejectedInAppend([o], left.offers);
    RejectedInAppend([o] + left.offers, right.offers);
  }

  lemma {:induction false} DeliverRejects(p: Provider, n: nat, chunk: seq<Outgoing>)
    requires chunk != []
    ensures RefusedInCalls(Deliver(p, n, chunk), p.name)
    decreases |chunk|
  {
    var a := p.relay(n, chunk);
    var o := Offer(p.name, chunk, a);
    if Graded(chunk, a) || Ok(a.status) || !ContentRejected(a.status) || |chunk| == 1 {
      RejectedInOne(o);
    } else {
      var mid := |chunk| / 2;
      var left := Deliver(p, n + 1, chunk[..mid]);
      DeliverRejects(p, n + 1, chunk[..mid]);
      if left.unusable {
        var none := Delivery([], [], true, [], 0);
        assert [o] + left.offers + [] == [o] + left.offers && left.refused + [] == left.refused;
        HalvesReject(o, left, none, Deliver(p, n, chunk));
      } else {
        DeliverRejects(p, n + 1 + |left.offers|, chunk[mid..]);
        HalvesReject(o, left, Deliver(p, n + 1 + |left.offers|, chunk[mid..]), Deliver(p, n, chunk));
      }
    }
  }

  /** The calls made from one state of a batch to a later one. */
  function CallsSince(g: Progress, h: Progress): seq<Offer> {
    if |g.post.offers| <= |h.post.offers| then h.post.offers[|g.post.offers|..] else []
  }

  /** `h` only added to the log, calls to the one provider, and its refused items are
      what those calls rejected. */
  ghost predicate TurnLogged(g: Progress, h: Progress, name: string) {
    && g.post.offers <= h.post.offers && g.sent <= h.sent
    && RejectedIn(CallsSince(g, h)) == Elements(h.refused)
    && forall o :: o in CallsSince(g, h) ==> o.provider == name
  }

  lemma CallLogged(g: Progress, h: Progress, p: Provider, d: Delivery)
    requires TurnLogged(g, h, p.name) && RefusedInCalls(d, p.name)
    ensures TurnLogged(g, Absorb(p, h, d), p.name)
  {
    var after := Absorb(p, h, d);
    assert CallsSince(g, after) == CallsSince(g, h) + d.offers;
    RejectedInAppend(CallsSince(g, h), d.offers);
  }

  lemma TurnRejects(p: Provider, room: int, g: Progress)
    requires p.batchSize > 0 && g.refused == []
    ensures TurnLogged(g, Turn(p, room, g), p.name)
  {
    var inv := (left: int, h: Progress) => TurnLogged(g, h, p.name);
    forall left, h: Progress | left > 0 && h.remaining != [] && inv(left, h)
      ensures var d := Deliver(p, |h.post.offers|, NextChunk(p, left, h.remaining));
        inv(left - |d.sent|, Absorb(p, h, d))
    {
      DeliverRejects(p, |h.post.offers|, NextChunk(p, left, h.remaining));
      CallLogged(g, h, p, Deliver(p, |h.post.offers|, NextChunk(p, left, h.remaining)));
    }
    assert CallsSince(g, g) == [];
    var left := TurnInduction(p, room, g, inv);
  }

  // ---------------------------------------------------------------------
  // One provider's turn in a chain

  lemma {:induction false} ChainSplit(a: seq<Provider>, b: seq<Provider>, g: Progress)
    requires ValidChain(a) && ValidChain(b)
    ensures ValidChain(a + b) && Chain(a + b, g) == Chain(b, Chain(a, g))
    decreases |a|
  {
    if a == [] {
      assert a + b == b;
    } else if Refold(g).remaining == [] {
      assert Refold(Refold(g)) == Refold(g);
    } else {
      assert (a + b)[1..] == a[1..] + b;
      ChainSplit(a[1..], b, ProviderTurn(a[0], g));
    }
  }

  /** Where the batch stands when the i-th provider's turn begins. */
  function Before(chain: seq<Provider>, i: nat, g: Progress): Progress
    requires ValidChain(chain) && i < |chain|
  {
    Refold(Chain(chain[..i], g))
  }

  /** And where its calls leave it. */
  function AfterCalls(chain: seq<Provider>, i: nat, g: Progress): Progress
    requires ValidChain(chain) && i < |chain|
  {
    var b := Before(chain, i, g);
    Turn(chain[i], Room(b.post.claims, chain[i].name, chain[i].limits, b.post.now), b)
  }

  /** What calls to the i-th provider in its turn rejected. */
  function RejectedByTurn(chain: seq<Provider>, i: nat, g: Progress): set<Outgoing>
    requires ValidChain(chain) && i < |chain|
  {
    RejectedIn(CallsSince(Before(chain, i, g), AfterCalls(chain, i, g)))
  }

  /** The rest of the chain after a turn, if there was anything to do. */
  lemma ChainFrom(chain: seq<Provider>, i: nat, g: Progress)
    requires ValidChain(chain) && i < |chain|
    ensures ValidChain(chain[i + 1..]) && ValidChain(chain[..i])
    ensures Chain(chain, g) ==
              if Before(chain, i, g).remaining == [] then Before(chain, i, g)
              else Chain(chain[i + 1..], ProviderTurn(chain[i], Chain(chain[..i], g)))
  {
    var a, b := chain[..i], chain[i..];
    assert chain == a + b;
    assert forall k :: 0 <= k < |b| ==> b[k] == chain[i + k];
    ChainSplit(a, b, g);
    assert b[1..] == chain[i + 1..];
  }

  lemma {:induction false} SentStays(chain: seq<Provider>, g: Progress)
    requires ValidChain(chain)
    ensures g.sent <= Chain(chain, g).sent && g.post.offers <= Chain(chain, g).post.offers
    decreases |chain|
  {
    if chain != [] && Refold(g).remaining != [] {
      TurnRejects(chain[0], Room(g.post.claims, chain[0].name, chain[0].limits, g.post.now), Refold(g));
      SentStays(chain[1..], ProviderTurn(chain[0], g));
    }
  }

  lemma TurnIsSound(st: Post, claimed: seq<Outgoing>, chain: seq<Provider>, i: nat, g: Progress)
    requires ValidChain(chain) && i < |chain| && Sound(st, claimed, g)
    ensures Sound(st, claimed, Before(chain, i, g)) && Sound(st, claimed, AfterCalls(chain, i, g))
    ensures TurnLogged(Before(chain, i, g), AfterCalls(chain, i, g), chain[i].name)
  {
    var b := Before(chain, i, g);
    var room := Room(b.post.claims, chain[i].name, chain[i].limits, b.post.now);
    ChainKeepsSound(st, claimed, chain[..i], g);
    RefoldKeepsSound(st, claimed, Chain(chain[..i], g));
    TurnKeepsSound(st, claimed, chain[i], room, b);
    TurnRejects(chain[i], room, b);
  }

  // ---------------------------------------------------------------------
  // Who refused the condemned

  lemma RefusedIsUnsent(st: Post, claimed: seq<Outgoing>, g: Progress, x: Outgoing)
    requires Sound(st, claimed, g) && x in g.refused
    ensures x in claimed && x !in g.sent
  {
    PartsApart(g.sent + g.refused, g.remaining);
    PartsApart(g.sent, g.refused);
    assert x.key in Keys(g.refused) && (x in g.sent ==> x.key in Keys(g.sent));
    SameItems(All(g), claimed);
    assert x in Elements(All(g));
  }

  lemma TurnsSentIsSent(chain: seq<Provider>, i: nat, g: Progress)
    requires ValidChain(chain) && i < |chain| && Chain(chain, g).refused != []
    ensures Before(chain, i, g).remaining != [] && AfterCalls(chain, i, g).sent <= Chain(chain, g).sent
  {
    ChainFrom(chain, i, g);
    SentStays(chain[i + 1..], ProviderTurn(chain[i], Chain(chain[..i], g)));
  }

  lemma LeftOrRefused(st: Post, claimed: seq<Outgoing>, t: Progress, x: Outgoing)
    requires Sound(st, claimed, t) && x in claimed && x !in t.sent
    ensures x in t.refused <==> x !in t.remaining
  {
    SameItems(claimed, All(t));
    assert x in Elements(claimed);
    PartsApart(t.sent + t.refused, t.remaining);
    assert x in t.refused ==> x in t.sent + t.refused && x.key in Keys(t.sent + t.refused);
    assert x in t.remaining ==> x.key in Keys(t.remaining);
  }

  /** An item that is condemned was sent by no provider; so a provider's turn either
      leaves it, or some call of that turn rejected it. */
  lemma RefusedUnlessLeft(st: Post, claimed: seq<Outgoing>, chain: seq<Provider>, i: nat, g: Progress, x: Outgoing)
    requires ValidChain(chain) && i < |chain| && Sound(st, claimed, g) && x in Chain(chain, g).refused
    ensures x in RejectedByTurn(chain, i, g) <==> x !in AfterCalls(chain, i, g).remaining
  {
    ChainKeepsSound(st, claimed, chain, g);
    RefusedIsUnsent(st, claimed, Chain(chain, g), x);
    TurnsSentIsSent(chain, i, g);
    TurnIsSound(st, claimed, chain, i, g);
    LeftOrRefused(st, claimed, AfterCalls(chain, i, g), x);
  }

  /** An address is condemned although a provider did not refuse it exactly when that
      provider's turn left it: each provider of the chain rejected a condemned item in
      some call of its turn if and only if its calls did not leave it waiting. */
  lemma CondemnedWereRejectedUnlessLeft(st: Post, items: seq<Outgoing>, chain: seq<Provider>, failureCap: int,
                                        i: nat, x: Outgoing)
    requires ValidChain(chain) && i < |chain| && x in Batch(st, items, chain, failureCap).refused
    ensures var start := Start(st, items, failureCap);
      x in RejectedByTurn(chain, i, start) <==> x !in AfterCalls(chain, i, start).remaining
  {
    StartIsSound(st, items, failureCap);
    RefusedUnlessLeft(st, Start(st, items, failureCap).remaining, chain, i, Start(st, items, failureCap), x);
  }

  /** The last verdict is the last provider's: a batch condemns exactly what calls of
      the last turn rejected, unless nothing was left by then or that turn was a streak
      of rejections with nothing delivered. */
  lemma {:induction false} LastTurn(chain: seq<Provider>, g: Progress)
    requires ValidChain(chain) && chain != []
    ensures var last := |chain| - 1;
      Chain(chain, g).refused ==
        if Before(chain, last, g).remaining == [] || Systemic(AfterCalls(chain, last, g), chain[last].name) then []
        else AfterCalls(chain, last, g).refused
  {
    var last := |chain| - 1;
    ChainFrom(chain, last, g);
    assert chain[last + 1..] == [];
  }

  lemma OnlyTheLastProviderCondemns(st: Post, items: seq<Outgoing>, chain: seq<Provider>, failureCap: int)
    requires ValidChain(chain) && chain != []
    ensures var start, last := Start(st, items, failureCap), |chain| - 1;
      Elements(Batch(st, items, chain, failureCap).refused) ==
        if || Before(chain, last, start).remaining == []
           || (|AfterCalls(chain, last, start).refused| >= 3
               && SentBy(AfterCalls(chain, last, start).sentBy, chain[last].name) == 0)
        then {}
        else RejectedByTurn(chain, last, start)
  {
    var start, last := Start(st, items, failureCap), |chain| - 1;
    LastTurn(chain, start);
    StartIsSound(st, items, failureCap);
    TurnIsSound(st, start.remaining, chain, last, start);
  }

  // ---------------------------------------------------------------------
  // When every provider had its say

  /** The provider answers every call, and every answer is a verdict. */
  ghost predicate AlwaysJudges(p: Provider) {
    forall n, items {:trigger p.relay(n, items)} ::
      var a := p.relay(n, items); Graded(items, a) || Ok(a.status) || ContentRejected(a.status)
  }

  lemma {:induction false} JudgedIsUsable(p: Provider, n: nat, chunk: seq<Outgoing>)
    requires chunk != [] && AlwaysJudges(p)
    ensures !Deliver(p, n, chunk).unusable
    decreases |chunk|
  {
    var a := p.relay(n, chunk);
    if !Graded(chunk, a) && !Ok(a.status) && |chunk| > 1 {
      var mid := |chunk| / 2;
      JudgedIsUsable(p, n + 1, chunk[..mid]);
      JudgedIsUsable(p, n + 1 + |Deliver(p, n + 1, chunk[..mid]).offers|, chunk[mid..]);
    }
  }

  lemma CallFits(p: Provider, room: int, g: Progress)
    requires p.batchSize > 0 && room > 0 && g.remaining != [] && DistinctKeys(g.remaining)
    ensures var d := Deliver(p, |g.post.offers|, NextChunk(p, room, g.remaining));
            var after := Absorb(p, g, d);
      |after.remaining| <= |g.remaining| - |d.sent| && DistinctKeys(after.remaining)
  {
    var d := Deliver(p, |g.post.offers|, NextChunk(p, room, g.remaining));
    var h := CallSplits(p, |g.post.offers|, room, g.remaining, d);
    KeysPastPrefix(g.remaining, h);
    assert |multiset(g.remaining[..h])| == |multiset(d.sent)| + |multiset(d.refused)|;
  }

  /** With room for everything and an answer to every call, a turn leaves nothing. */
  lemma TurnLeavesNothing(p: Provider, room: int, g: Progress)
    requires p.batchSize > 0 && AlwaysJudges(p) && DistinctKeys(g.remaining) && room >= |g.remaining|
    ensures Turn(p, room, g).remaining == []
  {
    var inv := (left: int, h: Progress) => left >= |h.remaining| && DistinctKeys(h.remaining);
    var end := (h: Progress) => h.remaining == [];
    forall left, h: Progress | left > 0 && h.remaining != [] && inv(left, h)
      ensures var d := Deliver(p, |h.post.offers|, NextChunk(p, left, h.remaining));
        inv(left - |d.sent|, Absorb(p, h, d)) && !d.unusable
    {
      CallFits(p, left, h);
      JudgedIsUsable(p, |h.post.offers|, NextChunk(p, left, h.remaining));
    }
    TurnEnds(p, room, g, inv, end);
  }

  lemma UnsentArePending(st: Post, claimed: seq<Outgoing>, g: Progress)
    requires Sound(st, claimed, g)
    ensures forall k :: k in Keys(claimed) && k !in Keys(g.sent) ==> PendingRow(g.post, k)
  {
    SameItems(All(g), claimed);
    forall k | k in Keys(claimed) && k !in Keys(g.sent) ensures PendingRow(g.post, k) {
      var x :| x in All(g) && x.key == k;
      assert x !in g.sent;
    }
  }

  lemma SentRowsAlone(st: Post, claimed: seq<Outgoing>, g: Progress, name: string)
    requires Sound(st, claimed, g)
    ensures forall k :: k in g.post.claims && g.post.claims[k].stamp == By(name) && k !in Keys(g.sent) ==>
              k in st.claims && st.claims[k] == g.post.claims[k]
  {
    UnsentArePending(st, claimed, g);
  }

  /** Room is lost to mail sent, and to nothing else. */
  lemma RoomForTheRest(st: Post, claimed: seq<Outgoing>, g: Progress, p: Provider)
    requires Sound(st, claimed, g) && g.refused == []
    requires Room(st.claims, p.name, p.limits, st.now) >= |claimed|
    ensures Room(g.post.claims, p.name, p.limits, g.post.now) >= |g.remaining|
  {
    assert |multiset(All(g))| == |multiset(claimed)|;
    DistinctKeysCount(g.sent);
    if p.limits != [] {
      SentRowsAlone(st, claimed, g, p.name);
      TightestLoss(st.claims, g.post.claims, p.name, p.limits, st.now, g.post.now, Keys(g.sent));
    }
  }

  /** When every provider has room for all that was claimed, and none fails, an address
      is condemned only once every provider has rejected it in a call. */
  lemma EveryProviderRefusedTheCondemned(st: Post, items: seq<Outgoing>, chain: seq<Provider>, failureCap: int,
                                         i: nat, x: Outgoing)
    requires ValidChain(chain) && i < |chain| && x in Batch(st, items, chain, failureCap).refused
    requires AlwaysJudges(chain[i])
    requires Room(st.claims, chain[i].name, chain[i].limits, st.now) >= |Start(st, items, failureCap).remaining|
    ensures x in RejectedByTurn(chain, i, Start(st, items, failureCap))
  {
    var start := Start(st, items, failureCap);
    StartIsSound(st, items, failureCap);
    TurnIsSound(st, start.remaining, chain, i, start);
    var b := Before(chain, i, start);
    RoomForTheRest(st, start.remaining, b, chain[i]);
    PartsApart(b.sent + b.refused, b.remaining);
    TurnLeavesNothing(chain[i], Room(b.post.claims, chain[i].name, chain[i].limits, b.post.now), b);
    CondemnedWereRejectedUnlessLeft(st, items, chain, failureCap, i, x);
  }

  const FULL := Provider("mailjet", (n, items) => Answer(Some(200), None, 0), 50, [Limit(0, 3600)])
  const PICKY := Provider("brevo", (n, items) => Answer(Some(422), None, 0), 1, [Limit(300, 86400)])

  /** Without room it is not asked: an address condemned by one of two providers, the
      first of which was never offered the mail. */
  lemma CondemnedWithoutEveryProvider(st: Post, item: Outgoing)
    requires st.claims == map[] && st.failures == map[] && st.suppressed == {}
    ensures var o := Batch(st, [item], [FULL, PICKY], 3);
      && o.refused == [item] && o.post.failures == map[item.to := 1]
      && o.post.offers == st.offers + [Offer("brevo", [item], Answer(Some(422), None, 0))]
  {
    var start := Start(st, [item], 3);
    OneClaim(st, item);
    FullIsSkipped(start);
    OneRefusedMail(start, item);
    var end := Chain([FULL, PICKY], start);
    assert [item][1..] == [];
    assert Strike(map[], [item]) == Strike(map[item.to := 1], []);
  }

  lemma OneClaim(st: Post, item: Outgoing)
    requires st.claims == map[] && st.failures == map[] && st.suppressed == {}
    ensures Start(st, [item], 3)
        == Progress(st.(claims := map[item.key := Row(Pending, st.now)]), [], [], [item], map[], {})
  {
    var after := map[item.key := Row(Pending, st.now)];
    assert Dead(st, 3) == {};
    assert [item][1..] == [];
    assert ClaimAll([], {}, after, st.now) == ([], after);
    assert st.claims[item.key := Row(Pending, st.now)] == after;
    assert Claimable(st.claims, item.key, st.now) && item.to !in {};
    assert [item] + [] == [item] && [item][0] == item;
    assert ClaimAll([item], {}, st.claims, st.now) == ([item], after);
  }

  /** A provider without room is passed over. */
  lemma FullIsSkipped(g: Progress)
    requires g.refused == [] && g.remaining != []
    ensures Chain([FULL, PICKY], g) == Chain([PICKY], g)
  {
    var chain := [FULL, PICKY];
    assert chain[1..] == [PICKY];
    assert Refold(g) == g;
    assert Room(g.post.claims, "mailjet", FULL.limits, g.post.now) == 0;
    assert ProviderTurn(FULL, g) == g;
  }

  lemma OneRefusedMail(g: Progress, item: Outgoing)
    requires g.remaining == [item] && g.refused == [] && g.sentBy == map[]
    requires forall k :: k in g.post.claims ==> g.post.claims[k].stamp.Pending?
    ensures var offer := Offer("brevo", [item], Answer(Some(422), None, 0));
            var end := Chain([PICKY], g);
      && end.refused == [item] && end.remaining == []
      && end.post == g.post.(offers := g.post.offers + [offer])
  {
    assert StampedWithin(g.post.claims, "brevo", 86400, g.post.now) == {};
    assert Room(g.post.claims, "brevo", PICKY.limits, g.post.now) == 300;
    assert Refold(g) == g;
    assert NextChunk(PICKY, 300, [item]) == [item];
    var d := Deliver(PICKY, |g.post.offers|, [item]);
    assert d == Delivery([], [item], false, [Offer("brevo", [item], Answer(Some(422), None, 0))], 0);
    var after := Absorb(PICKY, g, d);
    assert after.remaining == [] by {
      assert [item][..1] == [item] && [item][1..] == [];
      WithoutPrefix([item], 1, Keys(d.sent) + Keys(d.refused));
    }
    assert after.post.claims == g.post.claims;
    assert Turn(PICKY, 300, g) == Turn(PICKY, 300, after) == after;
    assert after.refused == [item];
    assert !Systemic(after, "brevo");
    assert ProviderTurn(PICKY, g) == after;
    assert [PICKY][1..] == [];
    assert Chain([PICKY], g) == after;
  }

  // ---------------------------------------------------------------------
  // A provider rejecting our side strikes nobody

  lemma TurnCountsSends(p: Provider, room: int, g: Progress, name: string)
    requires p.batchSize > 0 && SentBy(g.sentBy, name) <= |g.sent|
    ensures var t := Turn(p, room, g); SentBy(t.sentBy, name) <= |t.sent| && |g.sent| <= |t.sent|
  {
    var inv := (left: int, h: Progress) => SentBy(h.sentBy, name) <= |h.sent| && |g.sent| <= |h.sent|;
    var left := TurnInduction(p, room, g, inv);
  }

  lemma {:induction false} ChainCountsSends(chain: seq<Provider>, g: Progress)
    requires ValidChain(chain) && forall name :: SentBy(g.sentBy, name) <= |g.sent|
    ensures var end := Chain(chain, g);
      |end.refused| >= SYSTEMIC_REJECTION_MIN && (chain != [] || g.refused == []) ==> end.sent != []
    decreases |chain|
  {
    if chain != [] && Refold(g).remaining != [] {
      var p := chain[0];
      var t := ProviderTurn(p, g);
      var room := Room(g.post.claims, p.name, p.limits, g.post.now);
      forall name ensures SentBy(t.sentBy, name) <= |t.sent| {
        TurnCountsSends(p, room, Refold(g), name);
      }
      assert |t.refused| >= SYSTEMIC_REJECTION_MIN ==> SentBy(t.sentBy, p.name) > 0;
      if chain[1..] == [] {
        assert Chain(chain, g) == t;
      } else {
        ChainCountsSends(chain[1..], t);
      }
    }
  }

  /** A batch in which nothing was delivered condemns two addresses at most,
      however many the providers rejected. */
  lemma SystemicRejectionStrikesNobody(st: Post, items: seq<Outgoing>, chain: seq<Provider>, failureCap: int)
    requires ValidChain(chain)
    ensures var o := Batch(st, items, chain, failureCap);
      o.sent == [] ==> |o.refused| < SYSTEMIC_REJECTION_MIN
  {
    ChainCountsSends(chain, Start(st, items, failureCap));
  }
}
