/** The confirmation mails of pending sign-ups (app/confirmations.py): sent by the
    poller after the digests, oldest first, and no further than the pressure line or
    a daily reserve allows. */
module Confirmations {
  import opened Common
  import opened MailDelivery
  import opened MailBatch
  import opened MailLaws
  import opened Outbox
  import opened DigestQueue

  type Id = nat

  /** A subscription row, as far as its confirmation mail goes. */
  datatype SignUp = SignUp(id: Id, email: Address, created: int, confirmed: bool, deleted: bool, sentAt: Option<int>)

  /** MAIL_POOL_PRESSURE_PCT, CONFIRMATION_RESERVE_PER_DAY, each provider's daily cap
      (0 for none), and the idempotency key of a sign-up's mail. */
  datatype Settings = Settings(pressurePct: nat, reserve: nat, quota: map<string, nat>, keyOf: Id -> Key)

  function Quota(cfg: Settings, name: string): nat {
    if name in cfg.quota then cfg.quota[name] else 0
  }

  /** Sends in the rolling day and summed daily caps of the providers that have one. */
  function PoolUsed(claims: Claims, chain: seq<Provider>, cfg: Settings, now: int): nat {
    if chain == [] then 0
    else
      PoolUsed(claims, chain[1..], cfg, now)
      + (if Quota(cfg, chain[0].name) > 0 then Used(claims, chain[0].name, DAY, now) else 0)
  }

  function PoolQuota(chain: seq<Provider>, cfg: Settings): nat {
    if chain == [] then 0 else PoolQuota(chain[1..], cfg) + Quota(cfg, chain[0].name)
  }

  function PressureLine(chain: seq<Provider>, cfg: Settings): nat {
    PoolQuota(chain, cfg) * cfg.pressurePct / 100
  }

  function SentWithinADay(table: seq<SignUp>, now: int): nat {
    if table == [] then 0
    else
      var last := table[|table| - 1];
      SentWithinADay(table[..|table| - 1], now) + (if last.sentAt.Some? && last.sentAt.value > now - DAY then 1 else 0)
  }

  /** How many confirmations may go out; None when no line is set. */
  function ConfirmationRoom(st: Post, table: seq<SignUp>, chain: seq<Provider>, cfg: Settings): Option<nat> {
    if cfg.pressurePct == 0 || PoolQuota(chain, cfg) == 0 then None
    else
      var day := DailyRoom(st.claims, chain, st.now);
      var takes := if day.None? then PoolRoom(st.claims, chain, st.now) else day.value;
      var line := PressureLine(chain, cfg) - PoolUsed(st.claims, chain, cfg, st.now);
      Some(Min(takes, Max(0, Max(line, cfg.reserve - SentWithinADay(table, st.now)))))
  }

  /** Sign-ups a send can reach, oldest first. */
  function Unsent(table: seq<SignUp>, now: int, maxAge: int, dead: set<Address>): seq<SignUp> {
    if table == [] then []
    else
      var before := Unsent(table[..|table| - 1], now, maxAge, dead);
      var s := table[|table| - 1];
      if !s.confirmed && !s.deleted && s.sentAt.None? && s.created > now - maxAge && s.email !in dead
      then before + [s] else before
  }

  function Reached(st: Post, table: seq<SignUp>, chain: seq<Provider>, cfg: Settings, failureCap: int,
                   maxAge: int): seq<SignUp> {
    var pending := Unsent(table, st.now, maxAge, Dead(st, failureCap));
    var room := ConfirmationRoom(st, table, chain, cfg);
    if room.None? then pending else pending[..Min(room.value, |pending|)]
  }

  function Mails(reached: seq<SignUp>, cfg: Settings): (r: seq<Outgoing>)
    ensures |r| == |reached|
    ensures forall i :: 0 <= i < |r| ==> r[i] == Outgoing(reached[i].email, cfg.keyOf(reached[i].id))
  {
    seq(|reached|, i requires 0 <= i < |reached| => Outgoing(reached[i].email, cfg.keyOf(reached[i].id)))
  }

  /** The rows of the delivered sign-ups, stamped. */
  function Stamped(table: seq<SignUp>, ids: set<Id>, now: int): seq<SignUp> {
    if table == [] then []
    else
      var s := table[|table| - 1];
      Stamped(table[..|table| - 1], ids, now) + [if s.id in ids then s.(sentAt := Some(now)) else s]
  }

  function DeliveredIds(reached: seq<SignUp>, cfg: Settings, delivered: set<Key>): set<Id> {
    set s | s in reached && cfg.keyOf(s.id) in delivered :: s.id
  }

  function Pass(st: Post, table: seq<SignUp>, chain: seq<Provider>, cfg: Settings, failureCap: int,
                maxAge: int): (Outcome, seq<SignUp>)
    requires ValidChain(chain)
  {
    var reached := Reached(st, table, chain, cfg, failureCap, maxAge);
    var o := Batch(st, Mails(reached, cfg), chain, failureCap);
    (o, Stamped(table, DeliveredIds(reached, cfg, o.Delivered()), o.post.now))
  }

  // ---------------------------------------------------------------------
  // The line or the reserve

  predicate DistinctIds(table: seq<SignUp>) {
    forall i, j :: 0 <= i < j < |table| ==> table[i].id != table[j].id
  }

  /** The pool's usage grows by at most one for each mail sent. */
  lemma {:induction false} PoolUsedGrowth(chain: seq<Provider>, cfg: Settings, before: Claims, after: Claims,
                                          now: int, later: int, sent: set<Key>, keys: set<Key>)
    requires DistinctNames(chain) && now <= later && OnlySentStamped(before, after, sent)
    requires forall i :: 0 <= i < |chain| ==> StampedBy(after, sent, chain[i].name) <= keys
    ensures PoolUsed(after, chain, cfg, later) <= PoolUsed(before, chain, cfg, now) + |keys|
  {
    if chain != [] {
      var p, rest := chain[0], chain[1..];
      var mine := StampedBy(after, sent, p.name);
      UsedGrowth(before, after, p.name, DAY, now, later, mine);
      forall i | 0 <= i < |rest| ensures StampedBy(after, sent, rest[i].name) <= keys - mine {
        assert rest[i] == chain[i + 1];
      }
      PoolUsedGrowth(rest, cfg, before, after, now, later, sent, keys - mine);
      SplitCount(keys, mine);
    }
  }

  lemma SplitCount(keys: set<Key>, part: set<Key>)
    requires part <= keys
    ensures |keys| == |part| + |keys - part|
  {
    assert keys == part + (keys - part);
  }

  lemma BatchUsage(st: Post, items: seq<Outgoing>, chain: seq<Provider>, cfg: Settings, failureCap: int)
    requires ValidChain(chain) && DistinctNames(chain)
    ensures var o := Batch(st, items, chain, failureCap);
      PoolUsed(o.post.claims, chain, cfg, o.post.now) <= PoolUsed(st.claims, chain, cfg, st.now) + |o.sent|
  {
    var o := Batch(st, items, chain, failureCap);
    BatchKeepsExactlyDeliveredClaims(st, items, chain, failureCap);
    BatchTime(st, items, chain, failureCap);
    PoolUsedGrowth(chain, cfg, st.claims, o.post.claims, st.now, o.post.now, o.Delivered(), o.Delivered());
    DistinctKeysCount(o.sent);
  }

  lemma {:induction false} StampedGrowth(table: seq<SignUp>, ids: set<Id>, now: int, later: int)
    requires DistinctIds(table) && now <= later
    ensures SentWithinADay(Stamped(table, ids, later), later) <= SentWithinADay(table, now) + |ids|
  {
    if table != [] {
      var n := |table| - 1;
      var rest := if table[n].id in ids then ids - {table[n].id} else ids;
      StampedGrowth(table[..n], rest, now, later);
      SameStamps(table[..n], ids, rest, later);
      assert Stamped(table, ids, later)[..n] == Stamped(table[..n], ids, later) by {
        StampedLength(table[..n], ids, later);
      }
    }
  }

  lemma {:induction false} StampedLength(table: seq<SignUp>, ids: set<Id>, now: int)
    ensures |Stamped(table, ids, now)| == |table|
  {
    if table != [] {
      StampedLength(table[..|table| - 1], ids, now);
    }
  }

  lemma {:induction false} SameStamps(table: seq<SignUp>, ids: set<Id>, other: set<Id>, now: int)
    requires forall i :: 0 <= i < |table| ==> (table[i].id in ids <==> table[i].id in other)
    ensures Stamped(table, ids, now) == Stamped(table, other, now)
  {
    if table != [] {
      SameStamps(table[..|table| - 1], ids, other, now);
    }
  }

  lemma {:induction false} CountFits(reached: seq<SignUp>, cfg: Settings, delivered: set<Key>)
    requires forall a, b :: cfg.keyOf(a) == cfg.keyOf(b) ==> a == b
    ensures |DeliveredIds(reached, cfg, delivered)| <= |delivered|
    decreases |reached|
  {
    if reached == [] {
      assert DeliveredIds(reached, cfg, delivered) == {};
    } else {
      var n := |reached| - 1;
      var id := reached[n].id;
      var k := cfg.keyOf(id);
      if k in delivered {
        CountFits(reached[..n], cfg, delivered - {k});
        assert DeliveredIds(reached, cfg, delivered) == DeliveredIds(reached[..n], cfg, delivered - {k}) + {id} by {
          forall s | s in reached && cfg.keyOf(s.id) in delivered && s.id != id
            ensures s in reached[..n] && cfg.keyOf(s.id) in delivered - {k}
          {
            var i :| 0 <= i < |reached| && reached[i] == s;
            assert i != n && reached[..n][i] == s;
          }
        }
      } else {
        CountFits(reached[..n], cfg, delivered);
        assert DeliveredIds(reached, cfg, delivered) == DeliveredIds(reached[..n], cfg, delivered) by {
          forall s | s in reached && cfg.keyOf(s.id) in delivered ensures s in reached[..n] {
            var i :| 0 <= i < |reached| && reached[i] == s;
            assert i != n && reached[..n][i] == s;
          }
        }
      }
    }
  }

  lemma SentFitsTheRoom(st: Post, table: seq<SignUp>, chain: seq<Provider>, cfg: Settings, failureCap: int, maxAge: int)
    requires ValidChain(chain)
    ensures var (o, _) := Pass(st, table, chain, cfg, failureCap, maxAge);
      |o.sent| <= |Reached(st, table, chain, cfg, failureCap, maxAge)|
  {
    var items := Mails(Reached(st, table, chain, cfg, failureCap, maxAge), cfg);
    var o := Batch(st, items, chain, failureCap);
    BatchConserves(st, items, chain, failureCap);
    assert |multiset(o.sent)| <= |multiset(o.claimed)|;
    ClaimedAreHealthy(items, Dead(st, failureCap), st.claims, st.now);
    HealthyFits(items, Dead(st, failureCap));
  }

  lemma StampsOfAPass(st: Post, table: seq<SignUp>, chain: seq<Provider>, cfg: Settings, failureCap: int, maxAge: int)
    requires ValidChain(chain) && DistinctIds(table) && forall a, b :: cfg.keyOf(a) == cfg.keyOf(b) ==> a == b
    ensures var (o, after) := Pass(st, table, chain, cfg, failureCap, maxAge);
      SentWithinADay(after, o.post.now) <= SentWithinADay(table, st.now) + |o.sent|
  {
    var reached := Reached(st, table, chain, cfg, failureCap, maxAge);
    var items := Mails(reached, cfg);
    var o := Batch(st, items, chain, failureCap);
    BatchTime(st, items, chain, failureCap);
    CountFits(reached, cfg, o.Delivered());
    BatchConserves(st, items, chain, failureCap);
    DeliveredCount(st, items, chain, failureCap);
    StampedGrowth(table, DeliveredIds(reached, cfg, o.Delivered()), st.now, o.post.now);
  }

  lemma DeliveredCount(st: Post, items: seq<Outgoing>, chain: seq<Provider>, failureCap: int)
    requires ValidChain(chain)
    ensures var o := Batch(st, items, chain, failureCap); |o.Delivered()| <= |o.sent|
  {
    BatchKeepsExactlyDeliveredClaims(st, items, chain, failureCap);
    DistinctKeysCount(Batch(st, items, chain, failureCap).sent);
  }

  /** A pass that sends anything ends with the pool's usage at or below the pressure
      line, or with the day's confirmations at or below the reserve, whatever the
      providers do. */
  lemma APassEndsWithinLineOrReserve(st: Post, table: seq<SignUp>, chain: seq<Provider>, cfg: Settings,
                                     failureCap: int, maxAge: int)
    requires ValidChain(chain) && DistinctNames(chain) && DistinctIds(table)
    requires forall a, b :: cfg.keyOf(a) == cfg.keyOf(b) ==> a == b
    requires cfg.pressurePct > 0 && PoolQuota(chain, cfg) > 0
    ensures var (o, after) := Pass(st, table, chain, cfg, failureCap, maxAge);
      o.sent != [] ==>
        || PoolUsed(o.post.claims, chain, cfg, o.post.now) <= PressureLine(chain, cfg)
        || SentWithinADay(after, o.post.now) <= cfg.reserve
  {
    SentFitsTheRoom(st, table, chain, cfg, failureCap, maxAge);
    BatchUsage(st, Mails(Reached(st, table, chain, cfg, failureCap, maxAge), cfg), chain, cfg, failureCap);
    StampsOfAPass(st, table, chain, cfg, failureCap, maxAge);
  }

  // ---------------------------------------------------------------------
  // The pass itself

  class ConfirmationDesk {
    const box: Outbox
    var table: seq<SignUp>    // in order of created

    constructor (box: Outbox, table: seq<SignUp>)
      ensures this.box == box && this.table == table
    {
      this.box, this.table := box, table;
    }

    method Queue(failureCap: int, maxAge: int) returns (pending: seq<SignUp>)
      ensures pending == Unsent(table, box.now, maxAge, Dead(box.State(), failureCap))
    {
      pending := [];
      var dead := Dead(box.State(), failureCap);
      var i := 0;
      while i < |table|
        invariant 0 <= i <= |table| && pending == Unsent(table[..i], box.now, maxAge, dead)
      {
        var s := table[i];
        assert table[..i + 1][..i] == table[..i];
        if !s.confirmed && !s.deleted && s.sentAt.None? && s.created > box.now - maxAge && s.email !in dead {
          pending := pending + [s];
        }
        i := i + 1;
      }
      assert table[..i] == table;
    }

    method SetSent(ids: set<Id>)
      modifies this
      ensures table == Stamped(old(table), ids, box.now)
    {
      var done: seq<SignUp> := [];
      while |done| < |table|
        invariant |done| <= |table| && table == old(table) && done == Stamped(table[..|done|], ids, box.now)
      {
        var s := table[|done|];
        assert table[..|done| + 1][..|done|] == table[..|done|];
        done := done + [if s.id in ids then s.(sentAt := Some(box.now)) else s];
      }
      assert table[..|done|] == table;
      table := done;
    }

    method SendPendingConfirmations(chain: seq<Provider>, cfg: Settings, failureCap: int, maxAge: int)
      requires ValidChain(chain)
      modifies this, box
      ensures var (o, after) := Pass(old(box.State()), old(table), chain, cfg, failureCap, maxAge);
        box.State() == o.post && table == after
    {
      var pending := Queue(failureCap, maxAge);
      var room := ConfirmationRoom(box.State(), table, chain, cfg);
      if room.Some? {
        pending := pending[..Min(room.value, |pending|)];
      }
      var r := box.SendBatch(Mails(pending, cfg), chain, failureCap);
      SetSent(DeliveredIds(pending, cfg, r.delivered));
    }
  }
}
