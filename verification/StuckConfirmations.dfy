/** When a pass of app/confirmations.py sends nothing, and how a crash makes it so. With
    providers that accept and have room a pass sends nothing exactly when the key of every
    sign-up it reaches is taken. A poller that dies between the batch and its stamps leaves
    such a state behind, and the sign-ups behind those it reached wait. */
module StuckConfirmations {
  import opened Common
  import opened MailDelivery
  import opened MailBatch
  import opened MailLaws
  import opened MailPool
  import opened DigestQueue
  import opened PoolPremises
  import opened Confirmations

  // ---------------------------------------------------------------------
  // A pass sends nothing exactly when no sign-up it reaches can be claimed

  lemma {:induction false} NothingToClaim(items: seq<Outgoing>, dead: set<Address>, claims: Claims, now: int)
    requires forall x :: x in items ==> !Claimable(claims, x.key, now)
    ensures ClaimAll(items, dead, claims, now) == ([], claims)
  {
    if items != [] {
      NothingToClaim(items[1..], dead, claims, now);
    }
  }

  lemma {:induction false} SomethingToClaim(items: seq<Outgoing>, dead: set<Address>, claims: Claims, now: int,
                                            x: Outgoing)
    requires x in items && x.to !in dead && Claimable(claims, x.key, now)
    ensures ClaimAll(items, dead, claims, now).0 != []
  {
    if !(items[0].to !in dead && Claimable(claims, items[0].key, now)) {
      SomethingToClaim(items[1..], dead, claims, now, x);
    }
  }

  lemma {:induction false} UnsentAreAlive(table: seq<SignUp>, now: int, maxAge: int, dead: set<Address>)
    ensures forall s :: s in Unsent(table, now, maxAge, dead) ==> s.email !in dead
  {
    if table != [] {
      UnsentAreAlive(table[..|table| - 1], now, maxAge, dead);
    }
  }

  /** Nobody the pass reaches can be claimed. */
  ghost predicate AllTaken(st: Post, table: seq<SignUp>, chain: seq<Provider>, cfg: Settings, failureCap: int,
                           maxAge: int) {
    forall s :: s in Reached(st, table, chain, cfg, failureCap, maxAge) ==>
                  !Claimable(st.claims, cfg.keyOf(s.id), st.now)
  }

  lemma {:induction false} NothingStamped(table: seq<SignUp>, ids: set<Id>, now: int)
    requires ids == {}
    ensures Stamped(table, ids, now) == table
  {
    if table != [] {
      NothingStamped(table[..|table| - 1], ids, now);
    }
  }

  /** Such a pass leaves everything as it was. */
  lemma ATakenPassChangesNothing(st: Post, table: seq<SignUp>, chain: seq<Provider>, cfg: Settings, failureCap: int,
                                 maxAge: int)
    requires ValidChain(chain) && AllTaken(st, table, chain, cfg, failureCap, maxAge)
    ensures var (o, after) := Pass(st, table, chain, cfg, failureCap, maxAge);
      o.sent == [] && o.post == st && after == table
  {
    var reached := Reached(st, table, chain, cfg, failureCap, maxAge);
    var items := Mails(reached, cfg);
    NothingToClaim(items, Dead(st, failureCap), st.claims, st.now);
    var start := Start(st, items, failureCap);
    assert start.remaining == [] && start.refused == [] && Refold(start) == start;
    assert st.claims - {} - {} == st.claims;
    assert Keys([]) == {} && DeliveredIds(reached, cfg, {}) == {};
    NothingStamped(table, {}, st.now);
  }

  lemma SomeoneIsClaimed(st: Post, table: seq<SignUp>, chain: seq<Provider>, cfg: Settings, failureCap: int,
                         maxAge: int)
    requires ValidChain(chain) && !AllTaken(st, table, chain, cfg, failureCap, maxAge)
    ensures Pass(st, table, chain, cfg, failureCap, maxAge).0.claimed != []
  {
    var reached := Reached(st, table, chain, cfg, failureCap, maxAge);
    var items := Mails(reached, cfg);
    var s :| s in reached && Claimable(st.claims, cfg.keyOf(s.id), st.now);
    UnsentAreAlive(table, st.now, maxAge, Dead(st, failureCap));
    var i :| 0 <= i < |reached| && reached[i] == s;
    assert items[i] == Outgoing(s.email, cfg.keyOf(s.id));
    SomethingToClaim(items, Dead(st, failureCap), st.claims, st.now, items[i]);
  }

  /** When the providers accept and have room, a pass sends nothing if and only if the
      key of every sign-up it reaches is taken. */
  lemma APassSendsNothingExactlyWhenAllAreTaken(st: Post, table: seq<SignUp>, chain: seq<Provider>, cfg: Settings,
                                                failureCap: int, maxAge: int)
    requires ValidChain(chain) && DistinctNames(chain) && AllAccept(chain) && PoolRoom(st.claims, chain, st.now) > 0
    ensures Pass(st, table, chain, cfg, failureCap, maxAge).0.sent == [] <==>
              AllTaken(st, table, chain, cfg, failureCap, maxAge)
  {
    if AllTaken(st, table, chain, cfg, failureCap, maxAge) {
      ATakenPassChangesNothing(st, table, chain, cfg, failureCap, maxAge);
    } else {
      SomeoneIsClaimed(st, table, chain, cfg, failureCap, maxAge);
      AcceptedBatchFillsThePool(st, Mails(Reached(st, table, chain, cfg, failureCap, maxAge), cfg), chain, failureCap);
    }
  }

  // ---------------------------------------------------------------------
  // A poller that dies between the batch and the stamps

  /** What a poller leaves that dies there, some time later: the mails are out and their
      keys claimed for good, and the table is as it was. */
  predicate LeftBy(o: Outcome, later: Post) {
    o.post.now <= later.now && later == o.post.(now := later.now)
  }

  /** Every sign-up waits for its mail, and is young enough. */
  predicate AllWait(table: seq<SignUp>, now: int, maxAge: int) {
    forall s :: s in table ==> !s.confirmed && !s.deleted && s.sentAt.None? && s.created > now - maxAge
  }

  lemma {:induction false} UnsentAll(table: seq<SignUp>, now: int, maxAge: int)
    requires AllWait(table, now, maxAge)
    ensures Unsent(table, now, maxAge, {}) == table
  {
    if table != [] {
      var n := |table| - 1;
      UnsentAll(table[..n], now, maxAge);
      assert table == table[..n] + [table[n]];
    }
  }

  lemma {:induction false} NoneSentToday(table: seq<SignUp>, now: int)
    requires forall s :: s in table ==> s.sentAt.None?
    ensures SentWithinADay(table, now) == 0
  {
    if table != [] {
      NoneSentToday(table[..|table| - 1], now);
    }
  }

  /** One accepting provider of `max` mails a day, with a pressure line no higher than
      the reserve, so that sign-ups live on the reserve, which fits twice into the day. */
  ghost predicate OnReserve(p: Provider, max: nat, cfg: Settings) {
    && p.batchSize > 0 && AcceptsEverything(p) && p.limits == [Limit(max, DAY)]
    && cfg.pressurePct > 0 && PoolQuota([p], cfg) > 0 && PressureLine([p], cfg) <= cfg.reserve
    && 0 < cfg.reserve && 2 * cfg.reserve <= max
    && forall a, b :: cfg.keyOf(a) == cfg.keyOf(b) ==> a == b
  }

  /** With at most the reserve's worth of mail used, the room is the reserve. */
  lemma RoomIsTheReserve(st: Post, table: seq<SignUp>, p: Provider, max: nat, cfg: Settings)
    requires OnReserve(p, max, cfg) && SentWithinADay(table, st.now) == 0
    requires Used(st.claims, p.name, DAY, st.now) <= cfg.reserve
    ensures ConfirmationRoom(st, table, [p], cfg) == Some(cfg.reserve)
  {
    assert p.limits[1..] == [] && Daily(p.limits) == p.limits;
    var daily := DailyChain([p]);
    assert daily == [daily[0]];
    OneLimit(daily[0], Limit(max, DAY), st.claims, st.now);
  }

  lemma ReachesTheReserve(st: Post, table: seq<SignUp>, p: Provider, max: nat, cfg: Settings, failureCap: int,
                          maxAge: int)
    requires OnReserve(p, max, cfg) && cfg.reserve <= |table| && AllWait(table, st.now, maxAge)
        && Dead(st, failureCap) == {}
    requires Used(st.claims, p.name, DAY, st.now) <= cfg.reserve
    ensures Reached(st, table, [p], cfg, failureCap, maxAge) == table[..cfg.reserve]
  {
    UnsentAll(table, st.now, maxAge);
    NoneSentToday(table, st.now);
    RoomIsTheReserve(st, table, p, max, cfg);
  }

  lemma DistinctMails(reached: seq<SignUp>, cfg: Settings)
    requires DistinctIds(reached) && forall a, b :: cfg.keyOf(a) == cfg.keyOf(b) ==> a == b
    ensures DistinctKeys(Mails(reached, cfg))
  {
  }

  lemma {:induction false} NobodyDies(chain: seq<Provider>, g: Progress)
    requires ValidChain(chain) && g.post.failures == map[] && g.post.suppressed == {}
    ensures Chain(chain, g).post.failures == map[] && Chain(chain, g).post.suppressed == {}
    decreases |chain|
  {
    if chain != [] && Refold(g).remaining != [] {
      var p := chain[0];
      var room := Room(g.post.claims, p.name, p.limits, g.post.now);
      var inv := (left: int, h: Progress) => h.post.failures == map[] && h.post.suppressed == {};
      var left := TurnInduction(p, room, Refold(g), inv);
      NobodyDies(chain[1..], ProviderTurn(p, g));
    }
  }

  /** The first pass delivers to all it reaches, and nobody is struck. */
  lemma FirstPass(st: Post, items: seq<Outgoing>, p: Provider, max: nat, cfg: Settings, failureCap: int)
    requires OnReserve(p, max, cfg) && Blank(st) && DistinctKeys(items) && |items| <= cfg.reserve
    ensures var o := Batch(st, items, [p], failureCap);
      o.sent == items && Dead(o.post, failureCap) == {}
    ensures var o := Batch(st, items, [p], failureCap);
      Used(o.post.claims, p.name, DAY, o.post.now) <= |items|
  {
    var o, start := Batch(st, items, [p], failureCap), Start(st, items, failureCap);
    AllAreClaimed(st, items, [p], failureCap);
    StartIsReady(st, items, failureCap);
    UsedNothing(p.name, DAY, st.now);
    StartRoom(st, items, [p], failureCap, st.now);
    OneLimit(p, Limit(max, DAY), st.claims, st.now);
    OneLimit(p, Limit(max, DAY), start.post.claims, st.now);
    AllSentAtOnce([p], start);
    assert [] + items == items;
    NobodyDies([p], start);
    AcceptedBatchFillsThePool(st, items, [p], failureCap);
    OnlySentRows(st, items, [p], failureCap);
    SentKeysCount(st, items, [p], failureCap);
    SubsetCardinality(StampedWithin(o.post.claims, p.name, DAY, o.post.now), Keys(o.sent));
  }

  lemma UsedLater(claims: Claims, name: string, now: int, wait: nat)
    ensures Used(claims, name, DAY, now + wait) <= Used(claims, name, DAY, now)
  {
    SubsetCardinality(StampedWithin(claims, name, DAY, now + wait), StampedWithin(claims, name, DAY, now));
  }

  predicate IsStamped(claims: Claims, key: Key) {
    key in claims && claims[key].stamp.By?
  }

  /** The sign-ups' keys are stamped, and so claimed for good. */
  predicate Taken(claims: Claims, reached: seq<SignUp>, cfg: Settings) {
    forall s :: s in reached ==> IsStamped(claims, cfg.keyOf(s.id))
  }

  lemma DeliveredStaysTaken(st: Post, reached: seq<SignUp>, p: Provider, cfg: Settings, failureCap: int)
    requires p.batchSize > 0 && Blank(st)
    requires Batch(st, Mails(reached, cfg), [p], failureCap).sent == Mails(reached, cfg)
    ensures Taken(Batch(st, Mails(reached, cfg), [p], failureCap).post.claims, reached, cfg)
  {
    var items := Mails(reached, cfg);
    OnlySentRows(st, items, [p], failureCap);
    forall s | s in reached ensures IsStamped(Batch(st, items, [p], failureCap).post.claims, cfg.keyOf(s.id)) {
      var i :| 0 <= i < |reached| && reached[i] == s;
      assert items[i].key in Keys(items);
    }
  }

  /** As many mails as the reserve are out, with nobody struck. */
  predicate OutAndUnstamped(later: Post, table: seq<SignUp>, p: Provider, cfg: Settings, failureCap: int)
    requires cfg.reserve <= |table|
  {
    && Dead(later, failureCap) == {} && Used(later.claims, p.name, DAY, later.now) <= cfg.reserve
    && Taken(later.claims, table[..cfg.reserve], cfg)
  }

  lemma PassOnReserve(st: Post, table: seq<SignUp>, p: Provider, max: nat, cfg: Settings, failureCap: int, maxAge: int)
    requires OnReserve(p, max, cfg) && Blank(st) && DistinctIds(table) && cfg.reserve < |table|
    requires AllWait(table, st.now, maxAge)
    ensures Reached(st, table, [p], cfg, failureCap, maxAge) == table[..cfg.reserve]
    ensures var o := Pass(st, table, [p], cfg, failureCap, maxAge).0;
      o.sent == Mails(table[..cfg.reserve], cfg) && OutAndUnstamped(o.post, table, p, cfg, failureCap)
  {
    assert Dead(st, failureCap) == {};
    UsedNothing(p.name, DAY, st.now);
    ReachesTheReserve(st, table, p, max, cfg, failureCap, maxAge);
    DistinctMails(table[..cfg.reserve], cfg);
    FirstPass(st, Mails(table[..cfg.reserve], cfg), p, max, cfg, failureCap);
    DeliveredStaysTaken(st, table[..cfg.reserve], p, cfg, failureCap);
  }

  lemma StillOut(post: Post, later: Post, table: seq<SignUp>, p: Provider, cfg: Settings, failureCap: int)
    requires cfg.reserve <= |table| && OutAndUnstamped(post, table, p, cfg, failureCap)
    requires post.now <= later.now && later == post.(now := later.now)
    ensures OutAndUnstamped(later, table, p, cfg, failureCap)
  {
    UsedLater(post.claims, p.name, post.now, later.now - post.now);
  }

  lemma NextPass(later: Post, table: seq<SignUp>, p: Provider, max: nat, cfg: Settings, failureCap: int, maxAge: int)
    requires OnReserve(p, max, cfg) && cfg.reserve < |table| && AllWait(table, later.now, maxAge)
    requires OutAndUnstamped(later, table, p, cfg, failureCap)
    ensures var (o, after) := Pass(later, table, [p], cfg, failureCap, maxAge);
      && Reached(later, table, [p], cfg, failureCap, maxAge) == table[..cfg.reserve]
      && o.sent == [] && o.post == later && after == table
  {
    ReachesTheReserve(later, table, p, max, cfg, failureCap, maxAge);
    ATakenPassChangesNothing(later, table, [p], cfg, failureCap, maxAge);
  }

  /** The pass delivers to as many sign-ups as the reserve lets it reach, and the poller
      dies before it stamps them. However long one waits, as long as they are young
      enough to be reached, the next pass reaches the same sign-ups again, sends nothing,
      and those behind them wait. */
  lemma ACrashBlocksTheQueue(st: Post, table: seq<SignUp>, p: Provider, max: nat, cfg: Settings, failureCap: int,
                             maxAge: int, later: Post)
    requires OnReserve(p, max, cfg) && Blank(st) && DistinctIds(table) && cfg.reserve < |table|
    requires AllWait(table, st.now, maxAge) && AllWait(table, later.now, maxAge)
    requires LeftBy(Pass(st, table, [p], cfg, failureCap, maxAge).0, later)
    ensures Pass(st, table, [p], cfg, failureCap, maxAge).0.sent == Mails(table[..cfg.reserve], cfg)
    ensures var (o, after) := Pass(later, table, [p], cfg, failureCap, maxAge);
      && Reached(later, table, [p], cfg, failureCap, maxAge) == table[..cfg.reserve]
      && o.sent == [] && o.post == later && after == table
  {
    PassOnReserve(st, table, p, max, cfg, failureCap, maxAge);
    StillOut(Pass(st, table, [p], cfg, failureCap, maxAge).0.post, later, table, p, cfg, failureCap);
    NextPass(later, table, p, max, cfg, failureCap, maxAge);
  }
}
