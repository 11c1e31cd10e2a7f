/** What one push batch keeps, whatever the relays answer. */
module PushLaws {
  import opened Common
  import opened Devices
  import Mail = MailBatch
  import opened PushBatch

  ghost predicate DistinctKeys(items: seq<Item>) {
    forall i, j :: 0 <= i < j < |items| ==> items[i].key != items[j].key
  }

  // ---------------------------------------------------------------------
  // Claiming

  ghost predicate PendingSound(t: Tables, cfg: Config, pending: seq<Pending>) {
    forall i :: 0 <= i < |pending| ==>
      && Reachable(t, cfg, pending[i].item) && Mail.Claimable(t.claims, pending[i].item.key, t.now)
      && pending[i].platform == t.rows[pending[i].item.device].platform
      && pending[i].item.token == Some(pending[i].token)
  }

  ghost predicate ClaimedSound(t: Tables, cfg: Config, items: seq<Item>, c: Claimed) {
    && PendingSound(t, cfg, c.pending)
    && DistinctKeys(ItemsOf(c.pending))
    && multiset(items) == multiset(ItemsOf(c.pending)) + multiset(c.undeliverable) + multiset(c.skipped)
    && (forall k :: k in KeysOf(ItemsOf(c.pending)) ==> k in c.claims && c.claims[k] == Mail.Row(Mail.Pending, t.now))
    && SameElsewhere(t.claims, c.claims, KeysOf(ItemsOf(c.pending)))
  }

  /** Outside `keys` nothing changed. */
  ghost predicate SameElsewhere(before: Mail.Claims, after: Mail.Claims, keys: set<Key>) {
    forall k :: k !in keys ==> (k in after <==> k in before) && (k in before ==> after[k] == before[k])
  }

  lemma ItemsOfAppend(pending: seq<Pending>, p: Pending)
    ensures ItemsOf(pending + [p]) == ItemsOf(pending) + [p.item]
  {
  }

  lemma KeysOfAppend(items: seq<Item>, it: Item)
    ensures KeysOf(items + [it]) == KeysOf(items) + {it.key}
  {
  }

  lemma ClaimOne(t: Tables, cfg: Config, c: Claimed, it: Item, p: Pending)
    requires PendingSound(t, cfg, c.pending) && DistinctKeys(ItemsOf(c.pending))
    requires forall k :: k in KeysOf(ItemsOf(c.pending)) ==>
               k in c.claims && c.claims[k] == Mail.Row(Mail.Pending, t.now)
    requires SameElsewhere(t.claims, c.claims, KeysOf(ItemsOf(c.pending)))
    requires Reachable(t, cfg, it) && Mail.Claimable(c.claims, it.key, t.now)
        && p == Pending(it, t.rows[it.device].platform, t.rows[it.device].token)
    ensures var after, claims := c.pending + [p], c.claims[it.key := Mail.Row(Mail.Pending, t.now)];
      && PendingSound(t, cfg, after) && DistinctKeys(ItemsOf(after)) && ItemsOf(after) == ItemsOf(c.pending) + [it]
      && (forall k :: k in KeysOf(ItemsOf(after)) ==> k in claims && claims[k] == Mail.Row(Mail.Pending, t.now))
      && SameElsewhere(t.claims, claims, KeysOf(ItemsOf(after)))
  {
    ItemsOfAppend(c.pending, p);
    KeysOfAppend(ItemsOf(c.pending), it);
    assert it.key !in KeysOf(ItemsOf(c.pending));
    forall i | 0 <= i < |c.pending| ensures c.pending[i].item.key != it.key {
      assert ItemsOf(c.pending)[i] in ItemsOf(c.pending);
    }
  }

  lemma PassedOver(t: Tables, cfg: Config, items: seq<Item>, c: Claimed, it: Item)
    requires ClaimedSound(t, cfg, items, c)
    ensures ClaimedSound(t, cfg, items + [it], c.(undeliverable := c.undeliverable + [it]))
    ensures ClaimedSound(t, cfg, items + [it], c.(skipped := c.skipped + [it]))
  {
  }

  lemma Taken(t: Tables, cfg: Config, items: seq<Item>, c: Claimed, it: Item)
    requires ClaimedSound(t, cfg, items, c) && Reachable(t, cfg, it) && Mail.Claimable(c.claims, it.key, t.now)
    ensures var p := Pending(it, t.rows[it.device].platform, t.rows[it.device].token);
      ClaimedSound(t, cfg, items + [it],
                   c.(pending := c.pending + [p], claims := c.claims[it.key := Mail.Row(Mail.Pending, t.now)]))
  {
    ClaimOne(t, cfg, c, it, Pending(it, t.rows[it.device].platform, t.rows[it.device].token));
  }

  lemma {:induction false} ClaimingIsSound(t: Tables, cfg: Config, items: seq<Item>)
    ensures ClaimedSound(t, cfg, items, ClaimItems(t, cfg, items))
  {
    if items != [] {
      var n := |items| - 1;
      var before := ClaimItems(t, cfg, items[..n]);
      ClaimingIsSound(t, cfg, items[..n]);
      assert items == items[..n] + [items[n]];
      if Reachable(t, cfg, items[n]) && Mail.Claimable(before.claims, items[n].key, t.now) {
        Taken(t, cfg, items[..n], before, items[n]);
      } else {
        PassedOver(t, cfg, items[..n], before, items[n]);
      }
    }
  }

  // ---------------------------------------------------------------------
  // The loop's invariants

  function Handled(g: Progress): multiset<Item> {
    multiset(g.delivered) + multiset(g.dropped) + multiset(g.released) + multiset(ItemsOf(g.dead))
  }

  ghost predicate Ended(v: Verdict) {
    v.Down? || v.Auth?
  }

  /** The platform accepted a push of the batch. */
  ghost predicate Delivered(log: seq<Try>, platform: Platform) {
    exists j :: 0 <= j < |log| && log[j].platform == platform && log[j].verdict.Accepted?
  }

  ghost predicate SentByLogged(g: Progress) {
    forall p :: p in g.sentBy <==> Delivered(g.log, p)
  }

  /** The log of what was tried fits the budget and stops where a platform did. */
  ghost predicate LogSound(t: Tables, cfg: Config, claimed: seq<Pending>, g: Progress) {
    && |g.log| == g.attempts
    && (cfg.maxItems > 0 ==> g.attempts <= cfg.maxItems)
    && (forall i :: 0 <= i < |g.log| ==> cfg.maxSeconds > 0 ==> g.log[i].startedAt - t.now < cfg.maxSeconds)
    && (forall i :: 0 <= i < |g.log| ==>
          exists p :: p in claimed && p.item == g.log[i].item && p.platform == g.log[i].platform)
    && (forall i :: 0 <= i < |g.log| && Ended(g.log[i].verdict) ==> g.log[i].platform in g.unusable)
    && (forall i, j :: 0 <= i < j < |g.log| && Ended(g.log[i].verdict) ==> g.log[j].platform != g.log[i].platform)
    && SentByLogged(g)
  }

  /** A delivered key is stamped, a dropped one is gone, every other claimed one is
      still pending; no other row changed. */
  ghost predicate ClaimsSound(c: Claimed, g: Progress) {
    && SameElsewhere(c.claims, g.t.claims, KeysOf(ItemsOf(c.pending)))
    && forall k :: k in KeysOf(ItemsOf(c.pending)) ==>
         if k in KeysOf(g.delivered) then k in g.t.claims && g.t.claims[k].stamp.By?
         else if k in KeysOf(g.dropped) then k !in g.t.claims
         else k in g.t.claims && g.t.claims[k].stamp.Pending?
  }

  /** An invariant of the loop: `rest` is what it has still to look at. */
  lemma {:induction false} LoopInduction(relay: Relay, cfg: Config, started: int, g: Progress, pending: seq<Pending>,
                                         inv: (Progress, seq<Pending>) -> bool)
    requires inv(g, pending)
    requires forall h: Progress, rest: seq<Pending> :: rest != [] && inv(h, rest) ==>
               inv(One(relay, cfg, started, h, rest[0]), rest[1..])
    ensures inv(Loop(relay, cfg, started, g, pending), [])
    decreases |pending|
  {
    if pending != [] {
      LoopInduction(relay, cfg, started, One(relay, cfg, started, g, pending[0]), pending[1..], inv);
    }
  }

  lemma SettledHandles(g: Progress, p: Pending, verdict: Verdict, t: Tables)
    ensures Handled(Settled(g, p, verdict, t)) == Handled(g) + multiset{p.item}
  {
    assert ItemsOf(g.dead + [p]) == ItemsOf(g.dead) + [p.item];
  }

  lemma OneHandles(relay: Relay, cfg: Config, started: int, g: Progress, p: Pending)
    ensures Handled(One(relay, cfg, started, g, p)) == Handled(g) + multiset{p.item}
  {
    if p.platform !in g.unusable && !OverBudget(cfg, started, g) {
      var (verdict, t) := Attempted(relay, g.t, p);
      SettledHandles(g, p, verdict, t);
    }
  }

  lemma HeadHandled(relay: Relay, cfg: Config, started: int, g: Progress, rest: seq<Pending>)
    requires rest != []
    ensures Handled(One(relay, cfg, started, g, rest[0])) + multiset(ItemsOf(rest[1..]))
      == Handled(g) + multiset(ItemsOf(rest))
  {
    OneHandles(relay, cfg, started, g, rest[0]);
    assert ItemsOf(rest) == [rest[0].item] + ItemsOf(rest[1..]);
  }

  lemma LoopHandlesAll(relay: Relay, cfg: Config, started: int, g: Progress, pending: seq<Pending>)
    requires Handled(g) == multiset{}
    ensures Handled(Loop(relay, cfg, started, g, pending)) == multiset(ItemsOf(pending))
  {
    var all := multiset(ItemsOf(pending));
    var inv := (h: Progress, rest: seq<Pending>) => Handled(h) + multiset(ItemsOf(rest)) == all;
    forall h: Progress, rest: seq<Pending> | rest != [] && inv(h, rest)
      ensures inv(One(relay, cfg, started, h, rest[0]), rest[1..])
    {
      HeadHandled(relay, cfg, started, h, rest);
    }
    LoopInduction(relay, cfg, started, g, pending, inv);
  }

  lemma OneLogs(relay: Relay, cfg: Config, t: Tables, claimed: seq<Pending>, g: Progress, p: Pending)
    requires LogSound(t, cfg, claimed, g) && p in claimed
    ensures LogSound(t, cfg, claimed, One(relay, cfg, t.now, g, p))
  {
    if p.platform !in g.unusable && !OverBudget(cfg, t.now, g) {
      var (verdict, after) := Attempted(relay, g.t, p);
      LogOne(t, cfg, claimed, g, p, verdict, after);
    }
  }

  lemma SentByOne(g: Progress, p: Pending, verdict: Verdict, after: Tables)
    requires SentByLogged(g)
    ensures SentByLogged(Settled(g, p, verdict, after))
  {
    var h := Settled(g, p, verdict, after);
    assert h.log == g.log + [Try(p.item, p.platform, g.t.now, verdict)];
    forall q ensures q in h.sentBy <==> Delivered(h.log, q) {
      if q in g.sentBy {
        var i :| 0 <= i < |g.log| && g.log[i].platform == q && g.log[i].verdict.Accepted?;
        assert h.log[i] == g.log[i];
      } else if q == p.platform && verdict.Accepted? {
        assert h.log[|g.log|].platform == q;
      }
    }
  }

  lemma LogOne(t: Tables, cfg: Config, claimed: seq<Pending>, g: Progress, p: Pending, verdict: Verdict, after: Tables)
    requires LogSound(t, cfg, claimed, g) && p in claimed && p.platform !in g.unusable && !OverBudget(cfg, t.now, g)
    ensures LogSound(t, cfg, claimed, Settled(g, p, verdict, after))
  {
    assert Settled(g, p, verdict, after).log == g.log + [Try(p.item, p.platform, g.t.now, verdict)];
    SentByOne(g, p, verdict, after);
  }

  lemma LoopLogs(relay: Relay, cfg: Config, t: Tables, claimed: seq<Pending>, g: Progress)
    requires LogSound(t, cfg, claimed, g)
    ensures LogSound(t, cfg, claimed, Loop(relay, cfg, t.now, g, claimed))
  {
    var inv := (h: Progress, rest: seq<Pending>) =>
      LogSound(t, cfg, claimed, h) && forall p :: p in rest ==> p in claimed;
    forall h: Progress, rest: seq<Pending> | rest != [] && inv(h, rest)
      ensures inv(One(relay, cfg, t.now, h, rest[0]), rest[1..])
    {
      OneLogs(relay, cfg, t, claimed, h, rest[0]);
    }
    LoopInduction(relay, cfg, t.now, g, claimed, inv);
  }

  /** What the loop has yet to look at keeps its pending claims. */
  ghost predicate RestApart(c: Claimed, g: Progress, rest: seq<Pending>) {
    && DistinctKeys(ItemsOf(rest))
    && (forall i :: 0 <= i < |rest| ==> rest[i].item.key in KeysOf(ItemsOf(c.pending)))
    && (forall i :: 0 <= i < |rest| ==>
          rest[i].item.key !in KeysOf(g.delivered) && rest[i].item.key !in KeysOf(g.dropped))
  }

  lemma RestShrinks(c: Claimed, g: Progress, rest: seq<Pending>, after: Progress)
    requires rest != [] && RestApart(c, g, rest)
    requires KeysOf(after.delivered) + KeysOf(after.dropped)
        <= KeysOf(g.delivered) + KeysOf(g.dropped) + {rest[0].item.key}
    ensures RestApart(c, after, rest[1..])
  {
    forall i, j | 0 <= i < j < |rest[1..]| ensures ItemsOf(rest[1..])[i].key != ItemsOf(rest[1..])[j].key {
      assert ItemsOf(rest)[i + 1].key != ItemsOf(rest)[j + 1].key;
    }
    forall i | 0 <= i < |rest[1..]| ensures rest[1..][i].item.key != rest[0].item.key {
      assert ItemsOf(rest)[0].key != ItemsOf(rest)[i + 1].key;
    }
  }

  lemma SettledKeepsClaims(c: Claimed, g: Progress, p: Pending, verdict: Verdict, t: Tables)
    requires ClaimsSound(c, g) && t.claims == g.t.claims && p.item.key in KeysOf(ItemsOf(c.pending))
    requires p.item.key !in KeysOf(g.delivered) && p.item.key !in KeysOf(g.dropped)
    ensures ClaimsSound(c, Settled(g, p, verdict, t))
    ensures var after := Settled(g, p, verdict, t);
      KeysOf(after.delivered) + KeysOf(after.dropped) <= KeysOf(g.delivered) + KeysOf(g.dropped) + {p.item.key}
  {
    KeysOfAppend(g.delivered, p.item);
    KeysOfAppend(g.dropped, p.item);
  }

  lemma OneKeepsClaims(relay: Relay, cfg: Config, started: int, c: Claimed, g: Progress, rest: seq<Pending>)
    requires rest != [] && ClaimsSound(c, g) && RestApart(c, g, rest)
    ensures ClaimsSound(c, One(relay, cfg, started, g, rest[0]))
    ensures RestApart(c, One(relay, cfg, started, g, rest[0]), rest[1..])
  {
    var p := rest[0];
    if p.platform !in g.unusable && !OverBudget(cfg, started, g) {
      var (verdict, t) := Attempted(relay, g.t, p);
      SettledKeepsClaims(c, g, p, verdict, t);
    }
    RestShrinks(c, g, rest, One(relay, cfg, started, g, p));
  }

  lemma LoopKeepsClaims(relay: Relay, cfg: Config, started: int, c: Claimed, g: Progress)
    requires ClaimsSound(c, g) && RestApart(c, g, c.pending)
    ensures ClaimsSound(c, Loop(relay, cfg, started, g, c.pending))
  {
    var inv := (h: Progress, rest: seq<Pending>) => ClaimsSound(c, h) && RestApart(c, h, rest);
    forall h: Progress, rest: seq<Pending> | rest != [] && inv(h, rest)
      ensures inv(One(relay, cfg, started, h, rest[0]), rest[1..])
    {
      OneKeepsClaims(relay, cfg, started, c, h, rest);
    }
    LoopInduction(relay, cfg, started, g, c.pending, inv);
  }

  // ---------------------------------------------------------------------
  // The judgement

  lemma {:induction false} JudgedSplits(t: Tables, sentBy: set<Platform>, dead: seq<Pending>)
    ensures multiset(ItemsOf(dead))
        == multiset(Judged(t, sentBy, dead, true)) + multiset(Judged(t, sentBy, dead, false))
  {
    if dead != [] {
      JudgedSplits(t, sentBy, dead[..|dead| - 1]);
      assert ItemsOf(dead) == ItemsOf(dead[..|dead| - 1]) + [dead[|dead| - 1].item];
    }
  }

  lemma {:induction false} JudgingKeepsClaims(t: Tables, items: seq<Item>)
    ensures RetireAll(t, items).claims == t.claims && HoldAll(t, items).claims == t.claims
  {
    if items != [] {
      JudgingKeepsClaims(t, items[..|items| - 1]);
    }
  }

  // ---------------------------------------------------------------------
  // The laws of a whole batch

  ghost predicate Accounted(items: seq<Item>, o: Outcome) {
    && multiset(items) == multiset(o.claimed) + multiset(o.skipped) + multiset(o.unreachable)
    && multiset(o.claimed) == multiset(o.delivered) + multiset(o.dropped) + multiset(o.retired) + multiset(o.released)
    && DistinctKeys(o.claimed)
  }

  lemma FinishAccounts(c: Claimed, g: Progress)
    requires Handled(g) == multiset(ItemsOf(c.pending))
    ensures var o := Finish(c, g);
      multiset(ItemsOf(c.pending))
        == multiset(o.delivered) + multiset(o.dropped) + multiset(o.retired) + multiset(o.released)
  {
    JudgedSplits(g.t, g.sentBy, g.dead);
  }

  /** Every item was unreachable, already claimed, delivered, refused for good, dead or
      released, exactly one of these; and no two claimed items share a key. */
  lemma EveryPushIsAccountedFor(relay: Relay, cfg: Config, t: Tables, items: seq<Item>)
    ensures Accounted(items, Batch(relay, cfg, t, items))
  {
    var c := ClaimItems(t, cfg, items);
    ClaimingIsSound(t, cfg, items);
    assert Handled(Start(t, c)) == multiset{} by {
      assert ItemsOf([]) == [];
    }
    LoopHandlesAll(relay, cfg, t.now, Start(t, c), c.pending);
    FinishAccounts(c, Loop(relay, cfg, t.now, Start(t, c), c.pending));
  }

  lemma KeysApart(all: seq<Item>, a: seq<Item>, rest: multiset<Item>, k: Key)
    requires DistinctKeys(all) && multiset(all) == multiset(a) + rest && k in KeysOf(a)
    ensures forall x :: x in rest ==> x.key != k
  {
    var y :| y in a && y.key == k;
    forall x | x in rest ensures x.key != k {
      if x == y {
        TwiceIsNotDistinct(all, x);
      } else {
        assert x in multiset(all) && y in multiset(all);
        var i :| 0 <= i < |all| && all[i] == x;
        var j :| 0 <= j < |all| && all[j] == y;
        assert i < j || j < i;
      }
    }
  }

  lemma {:induction false} TwiceIsNotDistinct(all: seq<Item>, x: Item)
    requires DistinctKeys(all)
    ensures multiset(all)[x] <= 1
  {
    if all != [] {
      var n := |all| - 1;
      assert all == all[..n] + [all[n]];
      TwiceIsNotDistinct(all[..n], x);
      assert all[n] !in all[..n];
    }
  }

  lemma FinishReleases(c: Claimed, g: Progress)
    ensures Finish(c, g).t.claims == g.t.claims - KeysOf(Finish(c, g).retired) - KeysOf(Finish(c, g).released)
  {
    var retire, hold := Judged(g.t, g.sentBy, g.dead, true), Judged(g.t, g.sentBy, g.dead, false);
    JudgingKeepsClaims(g.t, retire);
    JudgingKeepsClaims(RetireAll(g.t, retire), hold);
  }

  lemma LoopEndsSound(relay: Relay, cfg: Config, t: Tables, items: seq<Item>)
    ensures var c := ClaimItems(t, cfg, items);
      ClaimsSound(c, Loop(relay, cfg, t.now, Start(t, c), c.pending))
        && SameElsewhere(t.claims, c.claims, KeysOf(ItemsOf(c.pending)))
  {
    var c := ClaimItems(t, cfg, items);
    ClaimingIsSound(t, cfg, items);
    forall i | 0 <= i < |c.pending| ensures c.pending[i].item.key in KeysOf(ItemsOf(c.pending)) {
      assert ItemsOf(c.pending)[i] in ItemsOf(c.pending);
    }
    LoopKeepsClaims(relay, cfg, t.now, c, Start(t, c));
  }

  /** Of the claimed keys exactly the delivered ones keep a row, stamped with the
      platform; no other row changes. */
  ghost predicate OnlyDeliveredStayClaimed(t: Tables, o: Outcome) {
    && (forall k :: k in KeysOf(o.claimed) ==> (k in o.t.claims <==> k in KeysOf(o.delivered)))
    && (forall k :: k in KeysOf(o.delivered) ==> k in o.t.claims && o.t.claims[k].stamp.By?)
    && SameElsewhere(t.claims, o.t.claims, KeysOf(o.claimed))
  }

  lemma ClaimsInTheEnd(t: Tables, c: Claimed, g: Progress, o: Outcome)
    requires ClaimsSound(c, g) && SameElsewhere(t.claims, c.claims, KeysOf(o.claimed))
    requires o.claimed == ItemsOf(c.pending) && o.delivered == g.delivered && o.dropped == g.dropped
    requires o.t.claims == g.t.claims - KeysOf(o.retired) - KeysOf(o.released)
    requires KeysOf(o.retired) + KeysOf(o.released) + KeysOf(o.delivered) + KeysOf(o.dropped) == KeysOf(o.claimed)
    requires forall k :: k in KeysOf(o.delivered) ==> k !in KeysOf(o.retired) && k !in KeysOf(o.released)
    ensures OnlyDeliveredStayClaimed(t, o)
  {
  }

  /** No claim made by a batch is left pending. */
  lemma NoClaimIsLeftPending(relay: Relay, cfg: Config, t: Tables, items: seq<Item>)
    ensures OnlyDeliveredStayClaimed(t, Batch(relay, cfg, t, items))
  {
    var c := ClaimItems(t, cfg, items);
    var g := Loop(relay, cfg, t.now, Start(t, c), c.pending);
    var o := Batch(relay, cfg, t, items);
    LoopEndsSound(relay, cfg, t, items);
    EveryPushIsAccountedFor(relay, cfg, t, items);
    FinishReleases(c, g);
    ReleasedAreClaimed(o);
    forall k | k in KeysOf(o.delivered) ensures k !in KeysOf(o.retired) && k !in KeysOf(o.released) {
      WhereAKeyIs(o, k);
    }
    ClaimsInTheEnd(t, c, g, o);
  }

  lemma ReleasedAreClaimed(o: Outcome)
    requires multiset(o.claimed)
        == multiset(o.delivered) + multiset(o.dropped) + multiset(o.retired) + multiset(o.released)
    ensures KeysOf(o.retired) + KeysOf(o.released) + KeysOf(o.delivered) + KeysOf(o.dropped) == KeysOf(o.claimed)
  {
    forall x | x in o.claimed ensures x in o.delivered || x in o.dropped || x in o.retired || x in o.released {
      assert x in multiset(o.claimed);
    }
    forall x | x in o.delivered || x in o.dropped || x in o.retired || x in o.released ensures x in o.claimed {
      assert x in multiset(o.claimed);
    }
  }

  lemma WhereAKeyIs(o: Outcome, k: Key)
    requires multiset(o.claimed)
        == multiset(o.delivered) + multiset(o.dropped) + multiset(o.retired) + multiset(o.released)
    requires DistinctKeys(o.claimed) && k in KeysOf(o.delivered)
    ensures k !in KeysOf(o.dropped) && k !in KeysOf(o.retired) && k !in KeysOf(o.released)
  {
    KeysApart(o.claimed, o.delivered, multiset(o.dropped) + multiset(o.retired) + multiset(o.released), k);
    assert forall x :: x in o.dropped || x in o.retired || x in o.released ==>
        x in multiset(o.dropped) + multiset(o.retired) + multiset(o.released);
  }

  lemma BatchLogs(relay: Relay, cfg: Config, t: Tables, items: seq<Item>)
    ensures var c := ClaimItems(t, cfg, items);
      LogSound(t, cfg, c.pending, Loop(relay, cfg, t.now, Start(t, c), c.pending))
  {
    var c := ClaimItems(t, cfg, items);
    LoopLogs(relay, cfg, t, c.pending, Start(t, c));
  }

  /** The budget bounds the attempts and when the last one starts. */
  lemma AttemptsStayInBudget(relay: Relay, cfg: Config, t: Tables, items: seq<Item>)
    ensures var o := Batch(relay, cfg, t, items);
      && (cfg.maxItems > 0 ==> |o.log| <= cfg.maxItems)
      && (cfg.maxSeconds > 0 ==> forall i :: 0 <= i < |o.log| ==> o.log[i].startedAt - t.now < cfg.maxSeconds)
  {
    BatchLogs(relay, cfg, t, items);
  }

  /** Once a platform is down, out of quota or refuses our credentials twice, nothing
      more is tried on it. */
  lemma NothingFollowsAnOutage(relay: Relay, cfg: Config, t: Tables, items: seq<Item>, i: nat, j: nat)
    requires var o := Batch(relay, cfg, t, items); i < j < |o.log| && Ended(o.log[i].verdict)
    ensures var o := Batch(relay, cfg, t, items); o.log[j].platform != o.log[i].platform
  {
    BatchLogs(relay, cfg, t, items);
  }

  /** A push goes out only to the token its device held when the batch read it, on a
      device that was not retired, and verified unless it is the verification itself. */
  lemma PushesReachOnlyVerifiedTokens(relay: Relay, cfg: Config, t: Tables, items: seq<Item>, i: nat)
    requires i < |Batch(relay, cfg, t, items).log|
    ensures var tried := Batch(relay, cfg, t, items).log[i];
      && tried.item.device in t.rows && !t.rows[tried.item.device].retired
      && tried.item.token == Some(t.rows[tried.item.device].token)
      && (t.rows[tried.item.device].verifiedAt.Some? || tried.item.verification)
      && tried.platform == t.rows[tried.item.device].platform && tried.platform in cfg.configured
      && tried.item in items
  {
    BatchLogs(relay, cfg, t, items);
    ClaimingIsSound(t, cfg, items);
    var c := ClaimItems(t, cfg, items);
    var tried := Batch(relay, cfg, t, items).log[i];
    var p :| p in c.pending && p.item == tried.item && p.platform == tried.platform;
    var k :| 0 <= k < |c.pending| && c.pending[k] == p;
    assert ItemsOf(c.pending)[k] in multiset(items);
  }

  // ---------------------------------------------------------------------
  // Retirement within a batch

  lemma {:induction false} WhoIsRetired(t: Tables, items: seq<Item>, d: Id)
    requires d in t.rows && !t.rows[d].retired
    ensures d in RetireAll(t, items).rows
    ensures RetireAll(t, items).rows[d].retired ==>
      exists it :: it in items && it.device == d && it.token == Some(t.rows[d].token)
    ensures RetireAll(t, items).rows[d] == t.rows[d].(retired := RetireAll(t, items).rows[d].retired)
  {
    if items != [] {
      WhoIsRetired(t, items[..|items| - 1], d);
    }
  }

  lemma {:induction false} HoldingRetiresNobody(t: Tables, items: seq<Item>, d: Id)
    requires d in t.rows
    ensures d in HoldAll(t, items).rows && HoldAll(t, items).rows[d].retired == t.rows[d].retired
  {
    if items != [] {
      HoldingRetiresNobody(t, items[..|items| - 1], d);
    }
  }

  lemma {:induction false} JudgedHaveEvidence(t: Tables, sentBy: set<Platform>, dead: seq<Pending>, it: Item)
    requires it in Judged(t, sentBy, dead, true)
    ensures exists a :: a in dead && a.item == it && Evidence(t, sentBy, a)
  {
    if dead != [] && !(Evidence(t, sentBy, dead[|dead| - 1]) && dead[|dead| - 1].item == it) {
      JudgedHaveEvidence(t, sentBy, dead[..|dead| - 1], it);
    }
  }

  lemma {:induction false} LoopRetiresNobody(relay: Relay, cfg: Config, started: int, g: Progress,
                                             pending: seq<Pending>, d: Id)
    requires d in g.t.rows
    ensures d in Loop(relay, cfg, started, g, pending).t.rows
    ensures Loop(relay, cfg, started, g, pending).t.rows[d].retired == g.t.rows[d].retired
    decreases |pending|
  {
    if pending != [] {
      LoopRetiresNobody(relay, cfg, started, One(relay, cfg, started, g, pending[0]), pending[1..], d);
    }
  }

  /** Finishing retires only devices whose dead answer has evidence. */
  lemma FinishRetiresOnEvidence(c: Claimed, g: Progress, d: Id)
    requires d in g.t.rows && !g.t.rows[d].retired
    requires d in Finish(c, g).t.rows && Finish(c, g).t.rows[d].retired
    ensures exists a :: a in g.dead && a.item.device == d && Evidence(g.t, g.sentBy, a)
  {
    var retire, hold := Judged(g.t, g.sentBy, g.dead, true), Judged(g.t, g.sentBy, g.dead, false);
    WhoIsRetired(g.t, retire, d);
    HoldingRetiresNobody(RetireAll(g.t, retire), hold, d);
    var it :| it in retire && it.device == d && it.token == Some(g.t.rows[d].token);
    JudgedHaveEvidence(g.t, g.sentBy, g.dead, it);
  }

  /** A batch retires a device only when its platform accepted a push in the same
      batch, or since the moment remembered as the device's first dead answer. */
  lemma RetirementNeedsEvidenceInABatch(relay: Relay, cfg: Config, t: Tables, items: seq<Item>, d: Id)
    requires d in t.rows && !t.rows[d].retired
    requires d in Batch(relay, cfg, t, items).t.rows && Batch(relay, cfg, t, items).t.rows[d].retired
    ensures var c := ClaimItems(t, cfg, items); var g := Loop(relay, cfg, t.now, Start(t, c), c.pending);
      exists a :: a in g.dead && a.item.device == d && Evidence(g.t, g.sentBy, a)
    ensures var c := ClaimItems(t, cfg, items); var g := Loop(relay, cfg, t.now, Start(t, c), c.pending);
      forall p :: p in g.sentBy ==> Delivered(g.log, p)
  {
    var c := ClaimItems(t, cfg, items);
    var g := Loop(relay, cfg, t.now, Start(t, c), c.pending);
    BatchLogs(relay, cfg, t, items);
    LoopRetiresNobody(relay, cfg, t.now, Start(t, c), c.pending, d);
    FinishRetiresOnEvidence(c, g, d);
  }

  // ---------------------------------------------------------------------
  // What the verification sender is told

  /** Every dead answer is in the log. */
  ghost predicate DeadLogged(g: Progress) {
    forall p :: p in g.dead ==> exists i :: 0 <= i < |g.log| && IsDeadAnswer(g.log[i], p)
  }

  predicate IsDeadAnswer(try: Try, p: Pending) {
    try.item == p.item && try.platform == p.platform && try.verdict.DeadToken?
  }

  lemma OneLogsTheDead(relay: Relay, cfg: Config, started: int, g: Progress, p: Pending)
    requires DeadLogged(g)
    ensures DeadLogged(One(relay, cfg, started, g, p))
  {
    var h := One(relay, cfg, started, g, p);
    forall q | q in h.dead ensures exists i :: 0 <= i < |h.log| && IsDeadAnswer(h.log[i], q) {
      if q in g.dead {
        var i :| 0 <= i < |g.log| && IsDeadAnswer(g.log[i], q);
        assert h.log[i] == g.log[i];
      } else {
        assert IsDeadAnswer(h.log[|g.log|], q);
      }
    }
  }

  lemma LoopLogsTheDead(relay: Relay, cfg: Config, started: int, g: Progress, pending: seq<Pending>)
    requires DeadLogged(g)
    ensures DeadLogged(Loop(relay, cfg, started, g, pending))
  {
    var inv := (h: Progress, rest: seq<Pending>) => DeadLogged(h);
    forall h: Progress, rest: seq<Pending> | rest != [] && inv(h, rest)
      ensures inv(One(relay, cfg, started, h, rest[0]), rest[1..])
    {
      OneLogsTheDead(relay, cfg, started, h, rest[0]);
    }
    LoopInduction(relay, cfg, started, g, pending, inv);
  }

  /** A logged answer that says something about the item itself: it could not be sent,
      or its platform delivers. */
  ghost predicate SaysSomething(g: Progress, try: Try) {
    || try.verdict.Unsendable?
    || (Refusal(try.verdict) && Delivered(g.log, try.platform))
    || exists a :: a in g.dead && IsDeadAnswer(try, a) && Evidence(g.t, g.sentBy, a)
  }

  /** Some logged answer to the item refused it and says something about it. */
  ghost predicate RefusedWithReason(g: Progress, k: Key) {
    exists i :: 0 <= i < |g.log| && g.log[i].item.key == k && Refusal(g.log[i].verdict) && SaysSomething(g, g.log[i])
  }

  lemma DeadFailuresHaveEvidence(g: Progress, k: Key)
    requires DeadLogged(g) && k in KeysOf(Judged(g.t, g.sentBy, g.dead, true))
    ensures RefusedWithReason(g, k)
  {
    var it :| it in Judged(g.t, g.sentBy, g.dead, true) && it.key == k;
    JudgedHaveEvidence(g.t, g.sentBy, g.dead, it);
    var a :| a in g.dead && a.item == it && Evidence(g.t, g.sentBy, a);
    var i :| 0 <= i < |g.log| && IsDeadAnswer(g.log[i], a);
    assert SaysSomething(g, g.log[i]);
  }

  lemma PayloadFailuresHaveEvidence(g: Progress, k: Key)
    requires SentByLogged(g) && k in FailedPayloads(g.log, g.sentBy)
    ensures RefusedWithReason(g, k)
  {
    var i :| 0 <= i < |g.log| && CountsAgainst(g.log[i], g.sentBy) && g.log[i].item.key == k;
    assert SaysSomething(g, g.log[i]);
  }

  lemma BatchReports(relay: Relay, cfg: Config, t: Tables, items: seq<Item>)
    ensures var c := ClaimItems(t, cfg, items); var g := Loop(relay, cfg, t.now, Start(t, c), c.pending);
      DeadLogged(g) && SentByLogged(g)
  {
    BatchLogs(relay, cfg, t, items);
    LoopLogsTheDead(relay, cfg, t.now, Start(t, ClaimItems(t, cfg, items)), ClaimItems(t, cfg, items).pending);
  }

  /** What a batch reports as failed was refused, and only on an answer that says
      something about the item: one that could not be sent, one from a platform that
      delivered in the batch, or a dead token with evidence. */
  lemma FailuresNeedEvidence(relay: Relay, cfg: Config, t: Tables, items: seq<Item>, k: Key)
    requires k in Batch(relay, cfg, t, items).failed
    ensures k in Batch(relay, cfg, t, items).refused
    ensures var c := ClaimItems(t, cfg, items);
      RefusedWithReason(Loop(relay, cfg, t.now, Start(t, c), c.pending), k)
  {
    var c := ClaimItems(t, cfg, items);
    var g := Loop(relay, cfg, t.now, Start(t, c), c.pending);
    BatchReports(relay, cfg, t, items);
    FailedHaveReason(g, k);
  }

  lemma FailedHaveReason(g: Progress, k: Key)
    requires DeadLogged(g) && SentByLogged(g) && k in FailedKeys(g)
    ensures RefusedWithReason(g, k)
  {
    if k in FailedPayloads(g.log, g.sentBy) {
      PayloadFailuresHaveEvidence(g, k);
    } else {
      DeadFailuresHaveEvidence(g, k);
    }
  }
}
