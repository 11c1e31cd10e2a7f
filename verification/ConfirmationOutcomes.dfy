/** What a pass of app/confirmations.py does, said of its rows: how many confirmation mails
    may go out, whose they are, and which rows it stamps. */
module ConfirmationOutcomes {
  import opened Common
  import opened MailDelivery
  import opened MailBatch
  import opened MailLaws
  import opened MailOutcomes
  import opened DigestQueue
  import opened Confirmations

  // ---------------------------------------------------------------------
  // The pool's usage and quota

  /** The mails of the last 24 hours, of all providers of the chain with a daily cap. */
  function SentByCapped(claims: Claims, chain: seq<Provider>, cfg: Settings, now: int): set<Key> {
    set k | k in claims && claims[k].stamp.By? && now - claims[k].at < 86400
              && Capped(claims[k].stamp.provider, chain, cfg)
  }

  predicate Capped(name: string, chain: seq<Provider>, cfg: Settings) {
    name in cfg.quota && cfg.quota[name] > 0 && exists i :: 0 <= i < |chain| && chain[i].name == name
  }

  lemma {:induction false} PoolUsedIs(claims: Claims, chain: seq<Provider>, cfg: Settings, now: int)
    requires DistinctNames(chain)
    ensures PoolUsed(claims, chain, cfg, now) == |SentByCapped(claims, chain, cfg, now)|
  {
    if chain != [] {
      var p, rest := chain[0], chain[1..];
      PoolUsedIs(claims, rest, cfg, now);
      var mine := if Quota(cfg, p.name) > 0 then StampedWithin(claims, p.name, DAY, now) else {};
      var others := SentByCapped(claims, rest, cfg, now);
      assert mine !! others;
      CappedByOne(chain, cfg);
      assert SentByCapped(claims, chain, cfg, now) == mine + others;
    }
  }

  lemma CappedByOne(chain: seq<Provider>, cfg: Settings)
    requires chain != []
    ensures forall name :: Capped(name, chain, cfg) <==>
              Capped(name, chain[1..], cfg) || (name == chain[0].name && Quota(cfg, name) > 0)
  {
    forall name ensures Capped(name, chain, cfg) <==>
              Capped(name, chain[1..], cfg) || (name == chain[0].name && Quota(cfg, name) > 0)
    {
      if i :| 0 <= i < |chain| && chain[i].name == name && i > 0 {
        assert chain[1..][i - 1].name == name;
      }
      if i :| 0 <= i < |chain[1..]| && chain[1..][i].name == name {
        assert chain[i + 1].name == name;
      }
    }
  }

  /** The summed daily caps: nothing for an empty chain, a provider's own cap for one of
      one, and the sum of both for two joined. */
  lemma {:induction false} PoolQuotaAdds(a: seq<Provider>, b: seq<Provider>, cfg: Settings)
    ensures PoolQuota(a + b, cfg) == PoolQuota(a, cfg) + PoolQuota(b, cfg)
    ensures PoolQuota([], cfg) == 0
    ensures forall i :: 0 <= i < |a| ==>
              PoolQuota([a[i]], cfg) == if a[i].name in cfg.quota then cfg.quota[a[i].name] else 0
  {
    forall p: Provider ensures PoolQuota([p], cfg) == Quota(cfg, p.name) {
      assert [p][1..] == [];
    }
    if a == [] {
      assert a + b == b;
    } else {
      assert (a + b)[1..] == a[1..] + b;
      PoolQuotaAdds(a[1..], b, cfg);
    }
  }

  // ---------------------------------------------------------------------
  // How many may go out

  /** The confirmations stamped in the last 24 hours. */
  function SentToday(table: seq<SignUp>, now: int): set<nat> {
    set i: nat | i < |table| && table[i].sentAt.Some? && now - table[i].sentAt.value < 86400
  }

  lemma {:induction false} SentTodayCount(table: seq<SignUp>, now: int)
    ensures SentWithinADay(table, now) == |SentToday(table, now)|
  {
    if table != [] {
      var n := |table| - 1;
      var before, all := SentToday(table[..n], now), SentToday(table, now);
      SentTodayCount(table[..n], now);
      assert n !in before && all == before + if n in all then {n} else {};
    }
  }

  lemma UpTo(quota: nat, pct: nat, used: nat, m: nat)
    ensures m <= quota * pct / 100 - used <==> 100 * (used + m) <= quota * pct
  {
  }

  /** The m-th confirmation of a pass may go out if and only if the providers can take m
      today, and the pool's usage with them stays within the pressure percentage of its
      quota, or the day's confirmations with them within the reserve. Without a pressure
      line, or without any daily cap, there is no bound. */
  lemma HowManyMayGoOut(st: Post, table: seq<SignUp>, chain: seq<Provider>, cfg: Settings, m: nat)
    requires DistinctNames(chain) && m > 0
    ensures var room, day := ConfirmationRoom(st, table, chain, cfg), DailyRoom(st.claims, chain, st.now);
      if cfg.pressurePct == 0 || PoolQuota(chain, cfg) == 0 then room.None?
      else
        room.Some? &&
        (m <= room.value <==>
           && m <= (if day.Some? then day.value else PoolRoom(st.claims, chain, st.now))
           && (|| 100 * (|SentByCapped(st.claims, chain, cfg, st.now)| + m) <= cfg.pressurePct * PoolQuota(chain, cfg)
               || |SentToday(table, st.now)| + m <= cfg.reserve))
  {
    PoolUsedIs(st.claims, chain, cfg, st.now);
    SentTodayCount(table, st.now);
    UpTo(PoolQuota(chain, cfg), cfg.pressurePct, |SentByCapped(st.claims, chain, cfg, st.now)|, m);
  }

  // ---------------------------------------------------------------------
  // Whose they are

  /** The sign-up at place i still waits for its mail, is young enough, and its address
      may be mailed. */
  predicate WaitsAt(st: Post, table: seq<SignUp>, failureCap: int, maxAge: int, i: nat) {
    && i < |table| && !table[i].confirmed && !table[i].deleted && table[i].sentAt.None?
    && st.now - table[i].created < maxAge && MayMail(st, failureCap, table[i].email)
  }

  function WaitingBefore(st: Post, table: seq<SignUp>, failureCap: int, maxAge: int, n: nat): set<nat> {
    set i: nat | i < n && WaitsAt(st, table, failureCap, maxAge, i)
  }

  /** `at` are the places in the table of those in the queue. */
  predicate QueuedAt(st: Post, table: seq<SignUp>, failureCap: int, maxAge: int, queue: seq<SignUp>, at: seq<nat>) {
    && |at| == |queue| && Increasing(at)
    && (forall j :: 0 <= j < |at| ==> WaitsAt(st, table, failureCap, maxAge, at[j]) && table[at[j]] == queue[j])
    && forall i: nat | i < |table| && WaitsAt(st, table, failureCap, maxAge, i) :: i in at
  }

  lemma QueuedMore(st: Post, table: seq<SignUp>, failureCap: int, maxAge: int, queue: seq<SignUp>, at: seq<nat>)
    requires table != [] && QueuedAt(st, table[..|table| - 1], failureCap, maxAge, queue, at)
    ensures var n := |table| - 1;
      if WaitsAt(st, table, failureCap, maxAge, n) then
        QueuedAt(st, table, failureCap, maxAge, queue + [table[n]], at + [n])
      else QueuedAt(st, table, failureCap, maxAge, queue, at)
  {
    var n := |table| - 1;
    assert forall i: nat :: i < n ==>
        WaitsAt(st, table, failureCap, maxAge, i) == WaitsAt(st, table[..n], failureCap, maxAge, i);
  }

  lemma {:induction false} UnsentAt(st: Post, table: seq<SignUp>, failureCap: int, maxAge: int) returns (at: seq<nat>)
    ensures QueuedAt(st, table, failureCap, maxAge, Unsent(table, st.now, maxAge, Dead(st, failureCap)), at)
  {
    if table == [] {
      at := [];
    } else {
      var n := |table| - 1;
      at := UnsentAt(st, table[..n], failureCap, maxAge);
      QueuedMore(st, table, failureCap, maxAge, Unsent(table[..n], st.now, maxAge, Dead(st, failureCap)), at);
      WhoIsDead(st, failureCap, table[n].email);
      if WaitsAt(st, table, failureCap, maxAge, n) {
        at := at + [n];
      }
    }
  }

  // ---------------------------------------------------------------------
  // The pass

  /** How many of a queue of that length the pass reaches. */
  function Reach(st: Post, table: seq<SignUp>, chain: seq<Provider>, cfg: Settings, queued: nat): nat {
    var room := ConfirmationRoom(st, table, chain, cfg);
    if room.Some? && room.value < queued then room.value else queued
  }

  lemma {:induction false} StampedAt(table: seq<SignUp>, ids: set<Id>, now: int, i: nat)
    requires i < |table|
    ensures |Stamped(table, ids, now)| == |table|
    ensures Stamped(table, ids, now)[i] ==
              table[i].(sentAt := if table[i].id in ids then Some(now) else table[i].sentAt)
  {
    var n := |table| - 1;
    StampedLength(table[..n], ids, now);
    if i < n {
      StampedAt(table[..n], ids, now, i);
    }
  }

  /** A pass mails the longest-waiting sign-ups in the table's order, as many as may go out,
      as one batch, and stamps exactly those whose mail was delivered. */
  lemma WhatAPassDoes(st: Post, table: seq<SignUp>, chain: seq<Provider>, cfg: Settings, failureCap: int, maxAge: int)
    returns (queue: seq<SignUp>, at: seq<nat>)
    requires ValidChain(chain) && DistinctIds(table)
    ensures QueuedAt(st, table, failureCap, maxAge, queue, at)
    ensures var n := Reach(st, table, chain, cfg, |queue|);
            var (o, after) := Pass(st, table, chain, cfg, failureCap, maxAge);
      && o == Batch(st, Mails(queue[..n], cfg), chain, failureCap)
      && |after| == |table|
      && forall i :: 0 <= i < |table| ==>
           after[i] == table[i].(sentAt :=
             if i in at[..n] && cfg.keyOf(table[i].id) in o.Delivered() then Some(o.post.now) else table[i].sentAt)
  {
    queue := Unsent(table, st.now, maxAge, Dead(st, failureCap));
    at := UnsentAt(st, table, failureCap, maxAge);
    var n := Reach(st, table, chain, cfg, |queue|);
    var (o, after) := Pass(st, table, chain, cfg, failureCap, maxAge);
    assert queue[..|queue|] == queue;
    assert Reached(st, table, chain, cfg, failureCap, maxAge) == queue[..n];
    StampedLength(table, DeliveredIds(queue[..n], cfg, o.Delivered()), o.post.now);
    forall i | 0 <= i < |table|
      ensures after[i] == table[i].(sentAt :=
        if i in at[..n] && cfg.keyOf(table[i].id) in o.Delivered() then Some(o.post.now) else table[i].sentAt)
    {
      StampedAt(table, DeliveredIds(queue[..n], cfg, o.Delivered()), o.post.now, i);
      DeliveredAt(st, table, cfg, failureCap, maxAge, queue, at, n, o.Delivered(), i);
    }
  }

  lemma DeliveredAt(st: Post, table: seq<SignUp>, cfg: Settings, failureCap: int, maxAge: int, queue: seq<SignUp>,
                    at: seq<nat>, n: nat, delivered: set<Key>, i: nat)
    requires DistinctIds(table) && QueuedAt(st, table, failureCap, maxAge, queue, at) && n <= |queue| && i < |table|
    ensures table[i].id in DeliveredIds(queue[..n], cfg, delivered) <==>
              i in at[..n] && cfg.keyOf(table[i].id) in delivered
  {
    if table[i].id in DeliveredIds(queue[..n], cfg, delivered) {
      var s :| s in queue[..n] && cfg.keyOf(s.id) in delivered && s.id == table[i].id;
      var j :| 0 <= j < n && queue[j] == s;
      assert table[at[j]].id == table[i].id && at[..n][j] == i;
    }
    if i in at[..n] && cfg.keyOf(table[i].id) in delivered {
      var j :| 0 <= j < n && at[j] == i;
      assert queue[..n][j] == table[i];
    }
  }
}
