/** What one push batch achieves (app/push.py). */
module PushOutcomes {
  import opened Common
  import opened Devices
  import Mail = MailBatch
  import opened PushBatch
  import opened PushLaws

  // Said of the log of `send_push_batch`: who is tried, what the relays answered, and what
  // becomes of every item and device.

  // ---------------------------------------------------------------------
  // Who is tried

  /** The attempt was for the j-th of the claimed items. */
  predicate TriedAt(a: Try, pending: seq<Pending>, j: int) {
    0 <= j < |pending| && pending[j].item == a.item && pending[j].platform == a.platform
  }

  predicate IsOf(a: Try, pending: seq<Pending>, lo: int, hi: int) {
    exists j :: lo <= j < hi && TriedAt(a, pending, j)
  }

  ghost predicate Within(log: seq<Try>, from: nat, upTo: nat, pending: seq<Pending>, lo: int, hi: int)
    requires upTo <= |log|
  {
    forall i :: from <= i < upTo ==> IsOf(log[i], pending, lo, hi)
  }

  /** The clock once `e` attempts were made, until the next one starts. */
  function Clock(log: seq<Try>, e: nat, end: int): int {
    if e < |log| then log[e].startedAt else end
  }

  /** Of the first `e` attempts one found the platform down, out of quota, or refusing our
      credentials twice. */
  predicate Stopped(log: seq<Try>, e: nat, platform: Platform)
    requires e <= |log|
  {
    exists i :: 0 <= i < e && log[i].platform == platform && (log[i].verdict.Down? || log[i].verdict.Auth?)
  }

  predicate Spent(cfg: Config, started: int, tried: nat, now: int) {
    (cfg.maxItems > 0 && tried >= cfg.maxItems) || (cfg.maxSeconds > 0 && now - started >= cfg.maxSeconds)
  }

  /** The k-th item's turn comes after `e` attempts: it is the next one unless its
      platform was stopped or the budget spent by then. */
  ghost predicate HasTurn(cfg: Config, started: int, pending: seq<Pending>, k: nat, log: seq<Try>, from: nat, e: nat,
                          end: int)
    requires k < |pending| && e <= |log|
  {
    && Within(log, from, e, pending, 0, k)
    && if Stopped(log, e, pending[k].platform) || Spent(cfg, started, e, Clock(log, e, end)) then
         Within(log, e, |log|, pending, k + 1, |pending|)
       else
         && e < |log| && log[e].item == pending[k].item && log[e].platform == pending[k].platform
         && Within(log, e + 1, |log|, pending, k + 1, |pending|)
  }

  /** The loop's own books agree with its log. */
  ghost predicate Tracked(g: Progress) {
    && g.attempts == |g.log|
    && forall p :: p in g.unusable <==> Stopped(g.log, |g.log|, p)
  }

  lemma OneTracks(relay: Relay, cfg: Config, started: int, g: Progress, p: Pending)
    requires Tracked(g)
    ensures var h := One(relay, cfg, started, g, p);
      && Tracked(h)
      && (if p.platform in g.unusable || OverBudget(cfg, started, g) then h.log == g.log && h.t == g.t
          else
            && |h.log| == |g.log| + 1 && h.log[..|g.log|] == g.log && h.log[|g.log|].startedAt == g.t.now
            && h.log[|g.log|].item == p.item && h.log[|g.log|].platform == p.platform)
  {
    var h := One(relay, cfg, started, g, p);
    if !(p.platform in g.unusable || OverBudget(cfg, started, g)) {
      forall q ensures q in h.unusable <==> Stopped(h.log, |h.log|, q) {
        if Stopped(g.log, |g.log|, q) {
          var i :| 0 <= i < |g.log| && g.log[i].platform == q && (g.log[i].verdict.Down? || g.log[i].verdict.Auth?);
          assert h.log[i] == g.log[i];
        }
        assert q in h.unusable && q !in g.unusable ==> h.log[|g.log|].platform == q;
      }
    }
  }

  lemma Later(log: seq<Try>, from: nat, upTo: nat, pending: seq<Pending>, lo: nat, hi: nat)
    requires pending != [] && upTo <= |log| && Within(log, from, upTo, pending[1..], lo, hi)
    ensures Within(log, from, upTo, pending, lo + 1, hi + 1)
  {
    forall i | from <= i < upTo ensures IsOf(log[i], pending, lo + 1, hi + 1) {
      assert IsOf(log[i], pending[1..], lo, hi);
      var j :| lo <= j < hi && TriedAt(log[i], pending[1..], j);
      assert TriedAt(log[i], pending, j + 1);
    }
  }

  lemma Wider(log: seq<Try>, from: nat, upTo: nat, pending: seq<Pending>, lo: nat, hi: nat, at: nat)
    requires upTo <= |log| && Within(log, from + 1, upTo, pending, lo, hi) && from < upTo
    requires at < |pending| && pending[at].item == log[from].item && pending[at].platform == log[from].platform
    requires hi <= |pending|
    ensures Within(log, from, upTo, pending, Min(lo, at), Max(hi, at + 1))
  {
    forall i | from <= i < upTo ensures IsOf(log[i], pending, Min(lo, at), Max(hi, at + 1)) {
      if i > from {
        assert IsOf(log[i], pending, lo, hi);
      } else {
        assert TriedAt(log[i], pending, at);
      }
    }
  }

  lemma {:induction false} LoopAdds(relay: Relay, cfg: Config, started: int, g: Progress, pending: seq<Pending>)
    requires Tracked(g)
    ensures var h := Loop(relay, cfg, started, g, pending);
      && Tracked(h) && |g.log| <= |h.log| && h.log[..|g.log|] == g.log
      && Within(h.log, |g.log|, |h.log|, pending, 0, |pending|)
      && Clock(h.log, |g.log|, h.t.now) == g.t.now
    decreases |pending|
  {
    if pending != [] {
      var g1 := One(relay, cfg, started, g, pending[0]);
      var h := Loop(relay, cfg, started, g, pending);
      OneTracks(relay, cfg, started, g, pending[0]);
      LoopAdds(relay, cfg, started, g1, pending[1..]);
      assert h.log[..|g.log|] == h.log[..|g1.log|][..|g.log|];
      Later(h.log, |g1.log|, |h.log|, pending, 0, |pending| - 1);
      if |g1.log| > |g.log| {
        assert h.log[|g.log|] == h.log[..|g1.log|][|g.log|];
        Wider(h.log, |g.log|, |h.log|, pending, 1, |pending|, 0);
      } else {
        forall i | |g.log| <= i < |h.log| ensures IsOf(h.log[i], pending, 0, |pending|) {
          assert IsOf(h.log[i], pending, 1, |pending|);
        }
      }
    }
  }

  lemma StoppedBefore(log: seq<Try>, longer: seq<Try>, platform: Platform)
    requires |log| <= |longer| && longer[..|log|] == log
    ensures Stopped(longer, |log|, platform) == Stopped(log, |log|, platform)
  {
    assert forall i :: 0 <= i < |log| ==> longer[i] == log[i];
  }

  lemma FirstTurn(relay: Relay, cfg: Config, started: int, g: Progress, pending: seq<Pending>)
    requires Tracked(g) && pending != []
    ensures var h := Loop(relay, cfg, started, g, pending);
      |g.log| <= |h.log| && HasTurn(cfg, started, pending, 0, h.log, |g.log|, |g.log|, h.t.now)
  {
    var g1 := One(relay, cfg, started, g, pending[0]);
    var h := Loop(relay, cfg, started, g, pending);
    OneTracks(relay, cfg, started, g, pending[0]);
    LoopAdds(relay, cfg, started, g, pending);
    LoopAdds(relay, cfg, started, g1, pending[1..]);
    Later(h.log, |g1.log|, |h.log|, pending, 0, |pending| - 1);
    StoppedBefore(g.log, h.log, pending[0].platform);
    if |g1.log| > |g.log| {
      assert h.log[|g.log|] == h.log[..|g1.log|][|g.log|];
    }
  }

  lemma LaterTurn(cfg: Config, started: int, pending: seq<Pending>, k: nat, log: seq<Try>, from: nat, e: nat, end: int)
    requires 0 < k < |pending| && e <= |log| && HasTurn(cfg, started, pending[1..], k - 1, log, from, e, end)
    ensures Within(log, from, e, pending, 1, k)
    ensures HasTurn(cfg, started, pending, k, log, e, e, end)
  {
    assert pending[1..][k - 1] == pending[k];
    Later(log, from, e, pending, 0, k - 1);
    if Stopped(log, e, pending[k].platform) || Spent(cfg, started, e, Clock(log, e, end)) {
      Later(log, e, |log|, pending, k, |pending| - 1);
    } else {
      Later(log, e + 1, |log|, pending, k, |pending| - 1);
    }
  }

  lemma {:induction false} LoopTurns(relay: Relay, cfg: Config, started: int, g: Progress, pending: seq<Pending>,
                                     k: nat)
    returns (e: nat)
    requires k < |pending| && Tracked(g)
    ensures var h := Loop(relay, cfg, started, g, pending);
      |g.log| <= e <= |h.log| && HasTurn(cfg, started, pending, k, h.log, |g.log|, e, h.t.now)
    decreases |pending|
  {
    var g1 := One(relay, cfg, started, g, pending[0]);
    var h := Loop(relay, cfg, started, g, pending);
    OneTracks(relay, cfg, started, g, pending[0]);
    if k == 0 {
      e := |g.log|;
      FirstTurn(relay, cfg, started, g, pending);
    } else {
      e := LoopTurns(relay, cfg, started, g1, pending[1..], k - 1);
      LaterTurn(cfg, started, pending, k, h.log, |g1.log|, e, h.t.now);
      LoopAdds(relay, cfg, started, g1, pending[1..]);
      forall i | |g.log| <= i < e ensures IsOf(h.log[i], pending, 0, k) {
        if i < |g1.log| {
          assert h.log[i] == h.log[..|g1.log|][i] == g1.log[|g.log|];
          assert TriedAt(h.log[i], pending, 0);
        } else {
          assert IsOf(h.log[i], pending, 1, k);
        }
      }
    }
  }

  lemma {:induction false} JudgingKeepsTime(t: Tables, items: seq<Item>)
    ensures RetireAll(t, items).now == HoldAll(t, items).now == t.now
    ensures RetireAll(t, items).requests == HoldAll(t, items).requests == t.requests
  {
    if items != [] {
      JudgingKeepsTime(t, items[..|items| - 1]);
    }
  }

  /** Where the batch's loop ends. */
  function LoopEnd(relay: Relay, cfg: Config, t: Tables, items: seq<Item>): Progress {
    var c := ClaimItems(t, cfg, items);
    Loop(relay, cfg, t.now, Start(t, c), c.pending)
  }

  lemma FinishKeepsLog(relay: Relay, cfg: Config, t: Tables, items: seq<Item>)
    ensures var o, g := Batch(relay, cfg, t, items), LoopEnd(relay, cfg, t, items);
      && o.log == g.log && o.t.now == g.t.now && o.t.requests == g.t.requests
      && o.claimed == ItemsOf(ClaimItems(t, cfg, items).pending)
  {
    var g := LoopEnd(relay, cfg, t, items);
    var retire, hold := Judged(g.t, g.sentBy, g.dead, true), Judged(g.t, g.sentBy, g.dead, false);
    JudgingKeepsTime(g.t, retire);
    JudgingKeepsTime(RetireAll(g.t, retire), hold);
  }

  predicate Tried(log: seq<Try>, it: Item) {
    exists i :: 0 <= i < |log| && log[i].item == it
  }

  lemma ItemsWithin(log: seq<Try>, from: nat, upTo: nat, pending: seq<Pending>, lo: nat, hi: nat)
    requires upTo <= |log| && lo <= hi <= |pending| && Within(log, from, upTo, pending, lo, hi)
    ensures forall i :: from <= i < upTo ==> log[i].item in ItemsOf(pending)[lo..hi]
  {
    forall i | from <= i < upTo ensures log[i].item in ItemsOf(pending)[lo..hi] {
      assert IsOf(log[i], pending, lo, hi);
      var j :| lo <= j < hi && TriedAt(log[i], pending, j);
      assert ItemsOf(pending)[lo..hi][j - lo] == log[i].item;
    }
  }

  lemma NotTwice(items: seq<Item>, k: nat)
    requires DistinctKeys(items) && k < |items|
    ensures items[k] !in items[..k] && items[k] !in items[k + 1..]
  {
  }

  /** A turn, said of the items. */
  lemma TurnOfAnItem(cfg: Config, started: int, pending: seq<Pending>, k: nat, log: seq<Try>, e: nat, end: int)
    requires k < |pending| && e <= |log| && HasTurn(cfg, started, pending, k, log, 0, e, end)
    requires DistinctKeys(ItemsOf(pending))
    ensures var all := ItemsOf(pending);
      && (forall i :: 0 <= i < e ==> log[i].item in all[..k])
      && (forall i :: e <= i < |log| ==> log[i].item in all[k..])
      && (forall i :: 0 <= i < |log| && i != e ==> log[i].item != all[k])
      && (if Stopped(log, e, pending[k].platform) || Spent(cfg, started, e, Clock(log, e, end)) then
            !Tried(log, all[k])
          else e < |log| && log[e].item == all[k] && log[e].platform == pending[k].platform)
  {
    var all, n := ItemsOf(pending), |pending|;
    NotTwice(all, k);
    ItemsWithin(log, 0, e, pending, 0, k);
    assert all[k..] == [all[k]] + all[k + 1..] && all[k + 1..n] == all[k + 1..];
    if Stopped(log, e, pending[k].platform) || Spent(cfg, started, e, Clock(log, e, end)) {
      ItemsWithin(log, e, |log|, pending, k + 1, n);
    } else {
      ItemsWithin(log, e + 1, |log|, pending, k + 1, n);
    }
  }

  /** A claimed item is tried when its turn comes, unless an earlier attempt on its own
      platform found it down, out of quota or refusing our credentials twice, or the
      budget was spent by then. Attempts are made in the order of the list: those before
      the turn are on items before it, those from the turn on, on the item and those after
      it. */
  lemma EveryClaimedItemHasItsTurn(relay: Relay, cfg: Config, t: Tables, items: seq<Item>, k: nat) returns (e: nat)
    requires k < |Batch(relay, cfg, t, items).claimed|
    ensures var o := Batch(relay, cfg, t, items); var it := o.claimed[k];
      && e <= |o.log| && it.device in t.rows
      && (forall i :: 0 <= i < e ==> o.log[i].item in o.claimed[..k])
      && (forall i :: e <= i < |o.log| ==> o.log[i].item in o.claimed[k..])
      && (forall i :: 0 <= i < |o.log| && i != e ==> o.log[i].item != it)
      && (if Stopped(o.log, e, t.rows[it.device].platform) || Spent(cfg, t.now, e, Clock(o.log, e, o.t.now)) then
            !Tried(o.log, it)
          else e < |o.log| && o.log[e].item == it && o.log[e].platform == t.rows[it.device].platform)
  {
    var c := ClaimItems(t, cfg, items);
    FinishKeepsLog(relay, cfg, t, items);
    ClaimingIsSound(t, cfg, items);
    e := LoopTurns(relay, cfg, t.now, Start(t, c), c.pending, k);
    var g := LoopEnd(relay, cfg, t, items);
    TurnOfAnItem(cfg, t.now, c.pending, k, g.log, e, g.t.now);
  }

  // ---------------------------------------------------------------------
  // What the relays answered

  /** The log is the relays' own answers from the n-th request and the time `now` on, one
      request each and a second one after refused credentials, up to `n2` and `now2`. */
  ghost predicate Answers(relay: Relay, n: nat, now: int, log: seq<Try>, n2: nat, now2: int)
    decreases |log|
  {
    if log == [] then n == n2 && now == now2
    else
      var a := log[0];
      && a.startedAt == now && a.item.token.Some?
      && var first := relay(n, a.platform, a.item.token.value, a.item.key);
      if !first.verdict.Auth? then
        a.verdict == first.verdict && Answers(relay, n + 1, now + first.elapsed, log[1..], n2, now2)
      else
        var second := relay(n + 1, a.platform, a.item.token.value, a.item.key);
        && a.verdict == second.verdict
        && Answers(relay, n + 2, now + first.elapsed + second.elapsed, log[1..], n2, now2)
  }

  ghost predicate Addressed(pending: seq<Pending>) {
    forall i :: 0 <= i < |pending| ==> pending[i].item.token == Some(pending[i].token)
  }

  lemma {:induction false} LoopAnswers(relay: Relay, cfg: Config, started: int, g: Progress, pending: seq<Pending>)
    requires Addressed(pending)
    ensures var h := Loop(relay, cfg, started, g, pending);
      && |g.log| <= |h.log| && h.log[..|g.log|] == g.log
      && Answers(relay, g.t.requests, g.t.now, h.log[|g.log|..], h.t.requests, h.t.now)
    decreases |pending|
  {
    if pending != [] {
      var g1 := One(relay, cfg, started, g, pending[0]);
      var h := Loop(relay, cfg, started, g, pending);
      LoopAnswers(relay, cfg, started, g1, pending[1..]);
      if pending[0].platform !in g.unusable && !OverBudget(cfg, started, g) {
        var (verdict, t) := Attempted(relay, g.t, pending[0]);
        assert g1.log == g.log + [Try(pending[0].item, pending[0].platform, g.t.now, verdict)];
        assert g1.t.now == t.now && g1.t.requests == t.requests;
        assert h.log[..|g.log|] == h.log[..|g1.log|][..|g.log|] == g.log;
        assert h.log[|g.log|] == h.log[..|g1.log|][|g.log|] == g1.log[|g.log|];
        assert h.log[|g.log|..][1..] == h.log[|g1.log|..];
      }
    }
  }

  /** The log is what the relays answered. */
  lemma TheLogIsTheRelays(relay: Relay, cfg: Config, t: Tables, items: seq<Item>)
    ensures var o := Batch(relay, cfg, t, items);
      Answers(relay, t.requests, t.now, o.log, o.t.requests, o.t.now)
  {
    var c := ClaimItems(t, cfg, items);
    FinishKeepsLog(relay, cfg, t, items);
    ClaimingIsSound(t, cfg, items);
    LoopAnswers(relay, cfg, t.now, Start(t, c), c.pending);
    var g := LoopEnd(relay, cfg, t, items);
    assert g.log[0..] == g.log;
  }

  // ---------------------------------------------------------------------
  // What becomes of an item

  predicate Got(log: seq<Try>, it: Item, verdict: Verdict) {
    exists i :: 0 <= i < |log| && log[i].item == it && log[i].verdict == verdict
  }

  /** The loop sorts the items by their answers. */
  ghost predicate SortedByAnswer(g: Progress) {
    && (forall it :: it in g.delivered <==> Got(g.log, it, Accepted))
    && (forall it :: it in g.dropped <==> Got(g.log, it, Dropped) || Got(g.log, it, Unsendable))
    && (forall it :: it in ItemsOf(g.dead) <==> Got(g.log, it, DeadToken))
  }

  lemma GotOneMore(log: seq<Try>, a: Try, it: Item, verdict: Verdict)
    ensures Got(log + [a], it, verdict) <==> Got(log, it, verdict) || (a.item == it && a.verdict == verdict)
  {
    var longer := log + [a];
    assert longer[|log|] == a;
    if i :| 0 <= i < |log| && log[i].item == it && log[i].verdict == verdict {
      assert longer[i] == log[i];
    }
  }

  lemma OneSorts(relay: Relay, cfg: Config, started: int, g: Progress, p: Pending)
    requires SortedByAnswer(g)
    ensures SortedByAnswer(One(relay, cfg, started, g, p))
  {
    if p.platform !in g.unusable && !OverBudget(cfg, started, g) {
      var h := One(relay, cfg, started, g, p);
      var (verdict, t) := Attempted(relay, g.t, p);
      var a := Try(p.item, p.platform, g.t.now, verdict);
      assert h.log == g.log + [a];
      assert ItemsOf(g.dead + [p]) == ItemsOf(g.dead) + [p.item];
      forall it: Item, v: Verdict
        ensures Got(h.log, it, v) <==> Got(g.log, it, v) || (a.item == it && a.verdict == v)
      {
        GotOneMore(g.log, a, it, v);
      }
    }
  }

  lemma LoopSorts(relay: Relay, cfg: Config, started: int, g: Progress, pending: seq<Pending>)
    requires SortedByAnswer(g)
    ensures SortedByAnswer(Loop(relay, cfg, started, g, pending))
  {
    var inv := (h: Progress, rest: seq<Pending>) => SortedByAnswer(h);
    forall h: Progress, rest: seq<Pending> | rest != [] && inv(h, rest)
      ensures inv(One(relay, cfg, started, h, rest[0]), rest[1..])
    {
      OneSorts(relay, cfg, started, h, rest[0]);
    }
    LoopInduction(relay, cfg, started, g, pending, inv);
  }

  // ---------------------------------------------------------------------
  // What the loop does to the tables

  /** A push for the device was accepted. */
  predicate Reached(log: seq<Try>, d: Id) {
    exists i :: 0 <= i < |log| && log[i].item.device == d && log[i].verdict.Accepted?
  }

  /** In the loop a device's row changes only in that an accepted push clears its
      remembered dead answer. */
  ghost predicate RowsKept(t: Tables, g: Progress) {
    && g.t.rows.Keys == t.rows.Keys && g.t.subs == t.subs
    && forall d :: d in t.rows ==>
         g.t.rows[d] == t.rows[d].(deadSince := if Reached(g.log, d) then None else t.rows[d].deadSince)
  }

  /** A delivered key is stamped with its platform at the time of the answer. */
  ghost predicate Stamped(g: Progress) {
    forall i :: 0 <= i < |g.log| && g.log[i].verdict.Accepted? ==>
      && g.log[i].item.key in g.t.claims
      && g.t.claims[g.log[i].item.key] == Mail.Row(Mail.By(NameOf(g.log[i].platform)), Clock(g.log, i + 1, g.t.now))
  }

  /** What is still to be looked at has other keys than what was tried. */
  ghost predicate Apart(g: Progress, rest: seq<Pending>) {
    && DistinctKeys(ItemsOf(rest))
    && forall i, j :: 0 <= i < |g.log| && 0 <= j < |rest| ==> g.log[i].item.key != rest[j].item.key
  }

  ghost predicate KnownIn(t: Tables, p: Pending) {
    && p.item.device in t.rows && t.rows[p.item.device].token == p.token
    && t.rows[p.item.device].platform == p.platform && p.item.token == Some(p.token)
  }

  ghost predicate DeadKnown(t: Tables, g: Progress) {
    forall p :: p in g.dead ==> KnownIn(t, p)
  }

  lemma LoopKnowsTheDead(relay: Relay, cfg: Config, t: Tables, g: Progress, pending: seq<Pending>)
    requires DeadKnown(t, g) && forall i :: 0 <= i < |pending| ==> KnownIn(t, pending[i])
    ensures DeadKnown(t, Loop(relay, cfg, t.now, g, pending))
  {
    var inv := (h: Progress, rest: seq<Pending>) =>
      DeadKnown(t, h) && forall i :: 0 <= i < |rest| ==> KnownIn(t, rest[i]);
    LoopInduction(relay, cfg, t.now, g, pending, inv);
  }

  lemma ReachedOneMore(log: seq<Try>, a: Try, d: Id)
    ensures Reached(log + [a], d) <==> Reached(log, d) || (a.item.device == d && a.verdict.Accepted?)
  {
    var longer := log + [a];
    assert longer[|log|] == a;
    if i :| 0 <= i < |log| && log[i].item.device == d && log[i].verdict.Accepted? {
      assert longer[i] == log[i];
    }
  }

  lemma SettledKeepsRows(t: Tables, g: Progress, p: Pending, verdict: Verdict, after: Tables)
    requires RowsKept(t, g) && KnownIn(t, p) && after.rows == g.t.rows && after.subs == g.t.subs
    ensures RowsKept(t, Settled(g, p, verdict, after))
  {
    var h := Settled(g, p, verdict, after);
    forall d | d in t.rows
      ensures h.t.rows[d] == t.rows[d].(deadSince := if Reached(h.log, d) then None else t.rows[d].deadSince)
    {
      ReachedOneMore(g.log, Try(p.item, p.platform, g.t.now, verdict), d);
    }
  }

  lemma SettledStamps(g: Progress, p: Pending, verdict: Verdict, after: Tables)
    requires Stamped(g) && after.claims == g.t.claims
    requires forall i :: 0 <= i < |g.log| ==> g.log[i].item.key != p.item.key
    ensures Stamped(Settled(g, p, verdict, after))
  {
    var h := Settled(g, p, verdict, after);
    forall i | 0 <= i < |h.log| && h.log[i].verdict.Accepted?
      ensures h.log[i].item.key in h.t.claims && h.t.claims[h.log[i].item.key]
           == Mail.Row(Mail.By(NameOf(h.log[i].platform)), Clock(h.log, i + 1, h.t.now))
    {
      if i < |g.log| {
        assert h.log[i] == g.log[i];
      }
    }
  }

  lemma OneKeepsTables(relay: Relay, cfg: Config, t: Tables, g: Progress, rest: seq<Pending>)
    requires rest != [] && RowsKept(t, g) && Stamped(g) && Apart(g, rest) && KnownIn(t, rest[0])
    ensures var h := One(relay, cfg, t.now, g, rest[0]); RowsKept(t, h) && Stamped(h) && Apart(h, rest[1..])
  {
    var h := One(relay, cfg, t.now, g, rest[0]);
    forall i, j | 0 <= i < j < |rest[1..]| ensures ItemsOf(rest[1..])[i].key != ItemsOf(rest[1..])[j].key {
      assert ItemsOf(rest)[i + 1].key != ItemsOf(rest)[j + 1].key;
    }
    forall j | 0 <= j < |rest[1..]| ensures rest[1..][j].item.key != rest[0].item.key {
      assert ItemsOf(rest)[0].key != ItemsOf(rest)[j + 1].key;
    }
    if rest[0].platform !in g.unusable && !OverBudget(cfg, t.now, g) {
      var (verdict, after) := Attempted(relay, g.t, rest[0]);
      SettledKeepsRows(t, g, rest[0], verdict, after);
      SettledStamps(g, rest[0], verdict, after);
    }
  }

  lemma LoopKeepsTables(relay: Relay, cfg: Config, t: Tables, g: Progress, pending: seq<Pending>)
    requires RowsKept(t, g) && Stamped(g) && Apart(g, pending)
    requires forall i :: 0 <= i < |pending| ==> KnownIn(t, pending[i])
    ensures var h := Loop(relay, cfg, t.now, g, pending); RowsKept(t, h) && Stamped(h)
  {
    var inv := (h: Progress, rest: seq<Pending>) =>
      && RowsKept(t, h) && Stamped(h) && Apart(h, rest)
      && forall i :: 0 <= i < |rest| ==> KnownIn(t, rest[i]);
    forall h: Progress, rest: seq<Pending> | rest != [] && inv(h, rest)
      ensures inv(One(relay, cfg, t.now, h, rest[0]), rest[1..])
    {
      OneKeepsTables(relay, cfg, t, h, rest);
    }
    LoopInduction(relay, cfg, t.now, g, pending, inv);
  }

  /** The platform is known to work: it accepted a push in this batch, or any push at all
      since the device's remembered first dead answer. */
  ghost predicate PlatformWorks(t: Tables, log: seq<Try>, d: Id)
    requires d in t.rows
  {
    var r := t.rows[d];
    || (exists i :: 0 <= i < |log| && log[i].platform == r.platform && log[i].verdict.Accepted?)
    || (&& r.deadSince.Some?
        && exists k :: k in t.claims && t.claims[k].stamp == Mail.By(if r.platform.Apns? then "apns" else "fcm")
             && t.claims[k].at >= r.deadSince.value)
  }

  /** The loop's end, as far as the judgement of dead answers needs it. */
  ghost predicate EndSound(t: Tables, cfg: Config, c: Claimed, g: Progress) {
    && RowsKept(t, g) && Stamped(g) && ClaimsSound(c, g) && SentByLogged(g) && SortedByAnswer(g) && DeadKnown(t, g)
    && PendingSound(t, cfg, c.pending) && SameElsewhere(t.claims, c.claims, KeysOf(ItemsOf(c.pending)))
    && forall i :: 0 <= i < |g.log| ==>
         g.log[i].item.device in t.rows && g.log[i].platform == t.rows[g.log[i].item.device].platform
  }

  lemma ClaimedWereFree(t: Tables, cfg: Config, c: Claimed, k: Key)
    requires PendingSound(t, cfg, c.pending) && k in KeysOf(ItemsOf(c.pending))
    ensures k in t.claims ==> t.claims[k].stamp.Pending?
  {
    var it :| it in ItemsOf(c.pending) && it.key == k;
    var i :| 0 <= i < |c.pending| && c.pending[i].item == it;
  }

  /** Stamps of a platform that accepted nothing in the batch are those from before it. */
  lemma OldStamps(t: Tables, cfg: Config, c: Claimed, g: Progress, q: Platform, k: Key)
    requires EndSound(t, cfg, c, g) && !Delivered(g.log, q)
    ensures (k in g.t.claims && g.t.claims[k].stamp == Mail.By(NameOf(q)))
        <==> (k in t.claims && t.claims[k].stamp == Mail.By(NameOf(q)))
    ensures k in g.t.claims && g.t.claims[k].stamp == Mail.By(NameOf(q)) ==> g.t.claims[k] == t.claims[k]
  {
    if k in KeysOf(ItemsOf(c.pending)) {
      ClaimedWereFree(t, cfg, c, k);
      if k in KeysOf(g.delivered) {
        var it :| it in g.delivered && it.key == k;
        var i :| 0 <= i < |g.log| && g.log[i].item == it && g.log[i].verdict == Accepted;
        assert g.t.claims[k].stamp == Mail.By(NameOf(g.log[i].platform));
      }
    }
  }

  lemma EvidenceIsThat(t: Tables, cfg: Config, c: Claimed, g: Progress, a: Pending)
    requires EndSound(t, cfg, c, g) && KnownIn(t, a)
    ensures Evidence(g.t, g.sentBy, a) <==> PlatformWorks(t, g.log, a.item.device)
  {
    if !Delivered(g.log, a.platform) {
      assert !Reached(g.log, a.item.device);
      forall k
        ensures (k in g.t.claims && g.t.claims[k].stamp == Mail.By(NameOf(a.platform)))
           <==> (k in t.claims && t.claims[k].stamp == Mail.By(NameOf(a.platform)))
        ensures k in g.t.claims && g.t.claims[k].stamp == Mail.By(NameOf(a.platform)) ==>
                  g.t.claims[k] == t.claims[k]
      {
        OldStamps(t, cfg, c, g, a.platform, k);
      }
    }
  }

  lemma LoopEndIsSound(relay: Relay, cfg: Config, t: Tables, items: seq<Item>)
    ensures EndSound(t, cfg, ClaimItems(t, cfg, items), LoopEnd(relay, cfg, t, items))
  {
    var c := ClaimItems(t, cfg, items);
    var g := LoopEnd(relay, cfg, t, items);
    ClaimingIsSound(t, cfg, items);
    LoopEndsSound(relay, cfg, t, items);
    BatchLogs(relay, cfg, t, items);
    assert ItemsOf([]) == [];
    LoopSorts(relay, cfg, t.now, Start(t, c), c.pending);
    LoopKnowsTheDead(relay, cfg, t, Start(t, c), c.pending);
    LoopKeepsTables(relay, cfg, t, Start(t, c), c.pending);
    LoggedAreKnown(t, cfg, c, g);
  }

  lemma LoggedAreKnown(t: Tables, cfg: Config, c: Claimed, g: Progress)
    requires PendingSound(t, cfg, c.pending) && LogSound(t, cfg, c.pending, g)
    ensures forall i :: 0 <= i < |g.log| ==>
              g.log[i].item.device in t.rows && g.log[i].platform == t.rows[g.log[i].item.device].platform
  {
    forall i | 0 <= i < |g.log|
      ensures g.log[i].item.device in t.rows && g.log[i].platform == t.rows[g.log[i].item.device].platform
    {
      var a := g.log[i];
      var p :| p in c.pending && p.item == a.item && p.platform == a.platform;
    }
  }

  lemma {:induction false} JudgedIs(t: Tables, sentBy: set<Platform>, dead: seq<Pending>, retire: bool, it: Item)
    ensures it in Judged(t, sentBy, dead, retire) <==>
              exists a :: a in dead && a.item == it && Evidence(t, sentBy, a) == retire
  {
    if dead != [] {
      JudgedIs(t, sentBy, dead[..|dead| - 1], retire, it);
      assert dead == dead[..|dead| - 1] + [dead[|dead| - 1]];
    }
  }

  /** A dead answer retires exactly when its platform is known to work. */
  lemma JudgedByEvidence(t: Tables, cfg: Config, c: Claimed, g: Progress, retire: bool, it: Item)
    requires EndSound(t, cfg, c, g) && it.device in t.rows
    ensures it in Judged(g.t, g.sentBy, g.dead, retire) <==>
              Got(g.log, it, DeadToken) && PlatformWorks(t, g.log, it.device) == retire
  {
    JudgedIs(g.t, g.sentBy, g.dead, retire, it);
    DeadItem(g.dead, it);
    forall a | a in g.dead && a.item == it
      ensures Evidence(g.t, g.sentBy, a) <==> PlatformWorks(t, g.log, it.device)
    {
      EvidenceIsThat(t, cfg, c, g, a);
    }
  }

  lemma DeadItem(dead: seq<Pending>, it: Item)
    ensures it in ItemsOf(dead) <==> exists a :: a in dead && a.item == it
  {
    if it in ItemsOf(dead) {
      var i :| 0 <= i < |ItemsOf(dead)| && ItemsOf(dead)[i] == it;
      assert dead[i].item == it;
    }
    if a :| a in dead && a.item == it {
      var i :| 0 <= i < |dead| && dead[i] == a;
      assert ItemsOf(dead)[i] == it;
    }
  }

  /** An item is answered at most once in a batch. */
  lemma OneAnswerEach(relay: Relay, cfg: Config, t: Tables, items: seq<Item>, it: Item, v: Verdict, u: Verdict)
    requires var o := Batch(relay, cfg, t, items); it in o.claimed && Got(o.log, it, v) && Got(o.log, it, u)
    ensures v == u
  {
    var o := Batch(relay, cfg, t, items);
    var k :| 0 <= k < |o.claimed| && o.claimed[k] == it;
    var e := EveryClaimedItemHasItsTurn(relay, cfg, t, items, k);
  }

  lemma InOnePlace(items: seq<Item>, o: Outcome, it: Item)
    requires Accounted(items, o) && it in o.claimed
    ensures it in o.released <==> it !in o.delivered && it !in o.dropped && it !in o.retired
  {
    TwiceIsNotDistinct(o.claimed, it);
    var there := multiset(o.delivered) + multiset(o.dropped) + multiset(o.retired) + multiset(o.released);
    assert multiset(o.claimed)[it] == there[it] && it in multiset(o.claimed);
  }

  lemma Answered(relay: Relay, cfg: Config, t: Tables, items: seq<Item>, it: Item)
    requires it in Batch(relay, cfg, t, items).claimed
    ensures it.device in t.rows
    ensures var o := Batch(relay, cfg, t, items);
      && (it in o.delivered <==> Got(o.log, it, Accepted))
      && (it in o.dropped <==> Got(o.log, it, Dropped) || Got(o.log, it, Unsendable))
      && (it in o.retired <==> Got(o.log, it, DeadToken) && PlatformWorks(t, o.log, it.device))
  {
    var c := ClaimItems(t, cfg, items);
    FinishKeepsLog(relay, cfg, t, items);
    LoopEndIsSound(relay, cfg, t, items);
    var k :| 0 <= k < |c.pending| && c.pending[k].item == it;
    assert Reachable(t, cfg, c.pending[k].item);
    JudgedByEvidence(t, cfg, c, LoopEnd(relay, cfg, t, items), true, it);
  }

  /** What becomes of a claimed item is its answer's doing. Delivered is what was accepted,
      dropped what was refused or could not be sent, retired a dead token on a platform
      known to work. Released for the next cycle is everything else: what was not tried or
      was throttled, what ended its platform's turn, and a dead token without that
      evidence. */
  lemma WhatBecomesOfAnItem(relay: Relay, cfg: Config, t: Tables, items: seq<Item>, it: Item)
    requires it in Batch(relay, cfg, t, items).claimed
    ensures it.device in t.rows
    ensures var o := Batch(relay, cfg, t, items);
      && (it in o.delivered <==> Got(o.log, it, Accepted))
      && (it in o.dropped <==> Got(o.log, it, Dropped) || Got(o.log, it, Unsendable))
      && (it in o.retired <==> Got(o.log, it, DeadToken) && PlatformWorks(t, o.log, it.device))
      && (it in o.released <==>
            || !Tried(o.log, it) || Got(o.log, it, Throttled) || Got(o.log, it, Down) || Got(o.log, it, Auth)
            || (Got(o.log, it, DeadToken) && !PlatformWorks(t, o.log, it.device)))
  {
    var o := Batch(relay, cfg, t, items);
    Answered(relay, cfg, t, items, it);
    EveryPushIsAccountedFor(relay, cfg, t, items);
    InOnePlace(items, o, it);
    if i :| 0 <= i < |o.log| && o.log[i].item == it {
      assert Got(o.log, it, o.log[i].verdict);
      forall v | Got(o.log, it, v) ensures v == o.log[i].verdict {
        OneAnswerEach(relay, cfg, t, items, it, v, o.log[i].verdict);
      }
    }
  }

  // ---------------------------------------------------------------------
  // What becomes of a device

  /** Some of the items are for the device, with the token it holds. */
  predicate Concerned(rows: Rows, items: seq<Item>, d: Id)
    requires d in rows
  {
    exists it :: it in items && it.device == d && it.token == Some(rows[d].token)
  }

  lemma ConcernedOneMore(rows: Rows, items: seq<Item>)
    requires items != []
    ensures forall d :: d in rows ==>
      var last := items[|items| - 1];
      Concerned(rows, items, d) <==>
        Concerned(rows, items[..|items| - 1], d) || (last.device == d && last.token == Some(rows[d].token))
  {
    assert items == items[..|items| - 1] + [items[|items| - 1]];
  }

  lemma {:induction false} RetiringRows(t: Tables, items: seq<Item>)
    ensures var after := RetireAll(t, items);
      && after.rows.Keys == t.rows.Keys
      && forall d :: d in t.rows ==>
           after.rows[d] == t.rows[d].(retired := t.rows[d].retired || Concerned(t.rows, items, d))
  {
    if items != [] {
      RetiringRows(t, items[..|items| - 1]);
      ConcernedOneMore(t.rows, items);
    }
  }

  lemma {:induction false} RetiringSubs(t: Tables, items: seq<Item>)
    ensures var after := RetireAll(t, items);
      && (forall s :: s in after.subs <==>
            s in t.subs && !(t.subs[s] in t.rows && !t.rows[t.subs[s]].retired && Concerned(t.rows, items, t.subs[s])))
      && (forall s :: s in after.subs ==> after.subs[s] == t.subs[s])
  {
    if items != [] {
      RetiringSubs(t, items[..|items| - 1]);
      RetiringRows(t, items[..|items| - 1]);
      ConcernedOneMore(t.rows, items);
    }
  }

  lemma {:induction false} HoldingAll(t: Tables, items: seq<Item>)
    ensures var after := HoldAll(t, items);
      && after.rows.Keys == t.rows.Keys && after.subs == t.subs
      && forall d :: d in t.rows ==>
           after.rows[d] == t.rows[d].(deadSince :=
             if Concerned(t.rows, items, d) && t.rows[d].deadSince.None? then Some(t.now) else t.rows[d].deadSince)
  {
    if items != [] {
      var before := items[..|items| - 1];
      HoldingAll(t, before);
      JudgingKeepsTime(t, before);
      ConcernedOneMore(t.rows, items);
    }
  }

  /** A claimed item for the device had a dead token, on a platform known to work or not. */
  ghost predicate AnsweredDead(t: Tables, o: Outcome, d: Id, works: bool)
    requires d in t.rows
  {
    exists it :: it in o.claimed && it.device == d && Got(o.log, it, DeadToken) && PlatformWorks(t, o.log, d) == works
  }

  lemma JudgedConcern(t: Tables, cfg: Config, c: Claimed, g: Progress, o: Outcome, retire: bool, d: Id)
    requires EndSound(t, cfg, c, g) && o.log == g.log && o.claimed == ItemsOf(c.pending) && d in t.rows
    requires forall it :: it in ItemsOf(g.dead) ==> it in o.claimed
    ensures Concerned(g.t.rows, Judged(g.t, g.sentBy, g.dead, retire), d) <==> AnsweredDead(t, o, d, retire)
  {
    var judged := Judged(g.t, g.sentBy, g.dead, retire);
    if it :| it in judged && it.device == d && it.token == Some(g.t.rows[d].token) {
      JudgedByEvidence(t, cfg, c, g, retire, it);
    }
    if it :| it in o.claimed && it.device == d && Got(g.log, it, DeadToken) && PlatformWorks(t, g.log, d) == retire {
      JudgedByEvidence(t, cfg, c, g, retire, it);
      var k :| 0 <= k < |c.pending| && c.pending[k].item == it;
      assert Reachable(t, cfg, c.pending[k].item);
    }
  }

  lemma DeadAreClaimed(relay: Relay, cfg: Config, t: Tables, items: seq<Item>)
    ensures forall it :: it in ItemsOf(LoopEnd(relay, cfg, t, items).dead) ==>
              it in Batch(relay, cfg, t, items).claimed
  {
    var c := ClaimItems(t, cfg, items);
    var g := LoopEnd(relay, cfg, t, items);
    assert ItemsOf([]) == [];
    LoopHandlesAll(relay, cfg, t.now, Start(t, c), c.pending);
    forall it | it in ItemsOf(g.dead) ensures it in ItemsOf(c.pending) {
      assert it in Handled(g);
    }
  }

  /** What a batch does to a device. It ends the device and its subscriptions exactly if
      one of its pushes found the token dead and the platform is known to work; without
      that evidence the first such moment is remembered, and an accepted push forgets it. */
  lemma WhatABatchDoesToADevice(relay: Relay, cfg: Config, t: Tables, items: seq<Item>, d: Id)
    requires d in t.rows
    ensures var o, r := Batch(relay, cfg, t, items), t.rows[d];
      && d in o.t.rows
      && o.t.rows[d] == r.(
           retired := r.retired || AnsweredDead(t, o, d, true),
           deadSince := if Reached(o.log, d) then None
                        else if AnsweredDead(t, o, d, false) && r.deadSince.None? then Some(o.t.now) else r.deadSince)
    ensures var o := Batch(relay, cfg, t, items);
      forall s :: s in t.subs && t.subs[s] == d ==> (s in o.t.subs <==> !AnsweredDead(t, o, d, true))
  {
    var c := ClaimItems(t, cfg, items);
    var g, o := LoopEnd(relay, cfg, t, items), Batch(relay, cfg, t, items);
    var retire, hold := Judged(g.t, g.sentBy, g.dead, true), Judged(g.t, g.sentBy, g.dead, false);
    FinishKeepsLog(relay, cfg, t, items);
    LoopEndIsSound(relay, cfg, t, items);
    DeadAreClaimed(relay, cfg, t, items);
    JudgedConcern(t, cfg, c, g, o, true, d);
    JudgedConcern(t, cfg, c, g, o, false, d);
    RetiringRows(g.t, retire);
    RetiringSubs(g.t, retire);
    HoldingAll(RetireAll(g.t, retire), hold);
    JudgingKeepsTime(g.t, retire);
    NoDeadOnWorkingPlatform(t, cfg, c, g, o, d);
  }

  /** A device that got a push has its platform known to work, and a retired one gets none. */
  lemma NoDeadOnWorkingPlatform(t: Tables, cfg: Config, c: Claimed, g: Progress, o: Outcome, d: Id)
    requires EndSound(t, cfg, c, g) && o.log == g.log && o.claimed == ItemsOf(c.pending) && d in t.rows
    ensures Reached(o.log, d) ==> !AnsweredDead(t, o, d, false)
    ensures t.rows[d].retired ==> !AnsweredDead(t, o, d, true)
  {
    if it :| it in o.claimed && it.device == d {
      var k :| 0 <= k < |c.pending| && c.pending[k].item == it;
      assert Reachable(t, cfg, c.pending[k].item);
    }
  }

  // ---------------------------------------------------------------------
  // What is reported

  /** The device's platform accepted a push in the batch. */
  predicate PlatformAccepts(t: Tables, log: seq<Try>, d: Id)
    requires d in t.rows
  {
    exists i :: 0 <= i < |log| && log[i].platform == t.rows[d].platform && log[i].verdict.Accepted?
  }

  /** A refusal of the item that says something about the item: it could not be sent, or
      its platform delivers. */
  ghost predicate Faulted(t: Tables, log: seq<Try>, it: Item)
    requires it.device in t.rows
  {
    || Got(log, it, Unsendable)
    || ((Got(log, it, Throttled) || Got(log, it, Dropped)) && PlatformAccepts(t, log, it.device))
    || (Got(log, it, DeadToken) && PlatformWorks(t, log, it.device))
  }

  lemma LoggedAreClaimed(relay: Relay, cfg: Config, t: Tables, items: seq<Item>)
    ensures var o := Batch(relay, cfg, t, items);
      forall i :: 0 <= i < |o.log| ==>
        && o.log[i].item in o.claimed && o.log[i].item.device in t.rows
        && o.log[i].platform == t.rows[o.log[i].item.device].platform
  {
    var c := ClaimItems(t, cfg, items);
    FinishKeepsLog(relay, cfg, t, items);
    LoopEndIsSound(relay, cfg, t, items);
    LoopAdds(relay, cfg, t.now, Start(t, c), c.pending);
    var g := LoopEnd(relay, cfg, t, items);
    ItemsWithin(g.log, 0, |g.log|, c.pending, 0, |c.pending|);
    assert ItemsOf(c.pending)[0..|c.pending|] == ItemsOf(c.pending);
  }

  lemma RefusedIs(o: Outcome, k: Key)
    requires o.refused == RefusedKeys(o.log) && forall i :: 0 <= i < |o.log| ==> o.log[i].item in o.claimed
    ensures k in o.refused <==>
              exists it :: it in o.claimed && it.key == k
                && (Got(o.log, it, DeadToken) || Got(o.log, it, Throttled) || Got(o.log, it, Dropped)
                    || Got(o.log, it, Unsendable))
  {
    if k in o.refused {
      var i :| 0 <= i < |o.log| && Refusal(o.log[i].verdict) && o.log[i].item.key == k;
      assert Got(o.log, o.log[i].item, o.log[i].verdict);
    }
  }

  /** A key fails for its payload: it could not be sent, or was throttled or refused by a
      platform that delivers. */
  lemma PayloadFailureIs(t: Tables, o: Outcome, sentBy: set<Platform>, k: Key)
    requires forall p :: p in sentBy <==> Delivered(o.log, p)
    requires forall i :: 0 <= i < |o.log| ==>
               && o.log[i].item in o.claimed && o.log[i].item.device in t.rows
               && o.log[i].platform == t.rows[o.log[i].item.device].platform
    ensures k in FailedPayloads(o.log, sentBy) <==>
              exists it :: it in o.claimed && it.key == k && it.device in t.rows
                && (Got(o.log, it, Unsendable)
                    || ((Got(o.log, it, Throttled) || Got(o.log, it, Dropped))
                        && PlatformAccepts(t, o.log, it.device)))
  {
    if k in FailedPayloads(o.log, sentBy) {
      var i :| 0 <= i < |o.log| && CountsAgainst(o.log[i], sentBy) && o.log[i].item.key == k;
      assert Got(o.log, o.log[i].item, o.log[i].verdict);
    }
    if it :| it in o.claimed && it.key == k && it.device in t.rows && Got(o.log, it, Unsendable) {
      var i :| 0 <= i < |o.log| && o.log[i].item == it && o.log[i].verdict == Unsendable;
      assert CountsAgainst(o.log[i], sentBy);
    }
    if it, v :|
      && it in o.claimed && it.key == k && it.device in t.rows && (v == Throttled || v == Dropped)
      && Got(o.log, it, v) && PlatformAccepts(t, o.log, it.device)
    {
      var i :| 0 <= i < |o.log| && o.log[i].item == it && o.log[i].verdict == v;
      assert CountsAgainst(o.log[i], sentBy);
    }
  }

  lemma SettledAreClaimed(items: seq<Item>, o: Outcome, it: Item)
    requires Accounted(items, o) && (it in o.retired || it in o.dropped)
    ensures it in o.claimed
  {
    assert it in multiset(o.claimed);
  }

  lemma RetiredIs(relay: Relay, cfg: Config, t: Tables, items: seq<Item>)
    ensures var o := Batch(relay, cfg, t, items);
      forall it :: it in o.retired <==>
        && it in o.claimed && it.device in t.rows && Got(o.log, it, DeadToken)
        && PlatformWorks(t, o.log, it.device)
  {
    var o := Batch(relay, cfg, t, items);
    EveryPushIsAccountedFor(relay, cfg, t, items);
    forall it | it in o.retired || it in o.claimed
      ensures it in o.claimed && it.device in t.rows
      ensures it in o.retired <==> Got(o.log, it, DeadToken) && PlatformWorks(t, o.log, it.device)
    {
      if it in o.retired {
        SettledAreClaimed(items, o, it);
      }
      Answered(relay, cfg, t, items, it);
    }
  }

  lemma FailedIs(t: Tables, o: Outcome, sentBy: set<Platform>, k: Key)
    requires o.failed == FailedPayloads(o.log, sentBy) + KeysOf(o.retired)
    requires forall it :: it in o.retired <==>
               && it in o.claimed && it.device in t.rows && Got(o.log, it, DeadToken)
               && PlatformWorks(t, o.log, it.device)
    requires k in FailedPayloads(o.log, sentBy) <==>
               exists it :: it in o.claimed && it.key == k && it.device in t.rows
                 && (Got(o.log, it, Unsendable)
                     || ((Got(o.log, it, Throttled) || Got(o.log, it, Dropped))
                         && PlatformAccepts(t, o.log, it.device)))
    ensures k in o.failed <==>
              exists it :: it in o.claimed && it.key == k && it.device in t.rows && Faulted(t, o.log, it)
  {
  }

  /** What a batch reports: refused is every key whose item was answered with a dead token,
      a throttle, a refusal of the payload, or could not be sent; failed are those of them
      whose answer says something about the item. */
  lemma WhatIsReported(relay: Relay, cfg: Config, t: Tables, items: seq<Item>, k: Key)
    ensures var o := Batch(relay, cfg, t, items);
      k in o.refused <==>
        exists it :: it in o.claimed && it.key == k
          && (Got(o.log, it, DeadToken) || Got(o.log, it, Throttled) || Got(o.log, it, Dropped)
              || Got(o.log, it, Unsendable))
    ensures var o := Batch(relay, cfg, t, items);
      k in o.failed <==>
        exists it :: it in o.claimed && it.key == k && it.device in t.rows && Faulted(t, o.log, it)
  {
    var o, g := Batch(relay, cfg, t, items), LoopEnd(relay, cfg, t, items);
    FinishKeepsLog(relay, cfg, t, items);
    LoggedAreClaimed(relay, cfg, t, items);
    LoopEndIsSound(relay, cfg, t, items);
    RefusedIs(o, k);
    PayloadFailureIs(t, o, g.sentBy, k);
    RetiredIs(relay, cfg, t, items);
    FailedIs(t, o, g.sentBy, k);
  }

  /** What a batch reports undeliverable: the keys of items that could not be reached, of
      refused payloads and items that could not be sent, and of dead tokens on a platform
      known to work. */
  lemma WhatIsUndeliverable(relay: Relay, cfg: Config, t: Tables, items: seq<Item>, k: Key)
    ensures var o := Batch(relay, cfg, t, items);
      k in o.Undeliverable() <==>
        || (exists it :: it in o.unreachable && it.key == k)
        || exists it :: it in o.claimed && it.key == k && it.device in t.rows
             && (Got(o.log, it, Dropped) || Got(o.log, it, Unsendable)
                 || (Got(o.log, it, DeadToken) && PlatformWorks(t, o.log, it.device)))
  {
    var o := Batch(relay, cfg, t, items);
    EveryPushIsAccountedFor(relay, cfg, t, items);
    forall it | it in o.claimed || it in o.dropped || it in o.retired
      ensures it in o.claimed && it.device in t.rows
      ensures it in o.dropped <==> Got(o.log, it, Dropped) || Got(o.log, it, Unsendable)
      ensures it in o.retired <==> Got(o.log, it, DeadToken) && PlatformWorks(t, o.log, it.device)
    {
      if it in o.dropped || it in o.retired {
        SettledAreClaimed(items, o, it);
      }
      Answered(relay, cfg, t, items, it);
    }
  }

  /** A delivered key is stamped with its platform, at the time of the answer. */
  lemma DeliveredAreStamped(relay: Relay, cfg: Config, t: Tables, items: seq<Item>, i: nat)
    requires var o := Batch(relay, cfg, t, items); i < |o.log| && o.log[i].verdict.Accepted?
    ensures var o := Batch(relay, cfg, t, items); var a := o.log[i];
      && a.item.key in o.t.claims
      && o.t.claims[a.item.key] ==
           Mail.Row(Mail.By(if a.platform.Apns? then "apns" else "fcm"), Clock(o.log, i + 1, o.t.now))
  {
    var c := ClaimItems(t, cfg, items);
    var o, g := Batch(relay, cfg, t, items), LoopEnd(relay, cfg, t, items);
    FinishKeepsLog(relay, cfg, t, items);
    LoggedAreClaimed(relay, cfg, t, items);
    LoopEndIsSound(relay, cfg, t, items);
    FinishReleases(c, g);
    NoClaimIsLeftPending(relay, cfg, t, items);
    assert Got(o.log, o.log[i].item, Accepted);
    assert o.log[i].item in o.delivered && o.log[i].item.key in KeysOf(o.delivered);
  }

  // ---------------------------------------------------------------------
  // Who is claimed

  /** The device is there, on a platform we have credentials for, with the token the item
      was made for, and verified unless this is the verification itself. */
  predicate Sendable(t: Tables, cfg: Config, it: Item) {
    && it.device in t.rows && !t.rows[it.device].retired && t.rows[it.device].platform in cfg.configured
    && it.token == Some(t.rows[it.device].token)
    && (it.verification || t.rows[it.device].verifiedAt.Some?)
  }

  /** Nobody sent the key before, and nobody is sending it: a pending claim is believed for
      a quarter of an hour. */
  predicate NobodysKey(t: Tables, k: Key) {
    k in t.claims ==> t.claims[k].stamp.Pending? && t.now - t.claims[k].at > 900
  }

  /** The item at place i is the first of its key that can be sent, and may be claimed. */
  ghost predicate FirstAt(t: Tables, cfg: Config, items: seq<Item>, i: nat) {
    && i < |items| && Sendable(t, cfg, items[i]) && NobodysKey(t, items[i].key)
    && forall h :: 0 <= h < i && Sendable(t, cfg, items[h]) ==> items[h].key != items[i].key
  }

  /** `at` are the places in the list of the items claimed. */
  ghost predicate ClaimedAt(t: Tables, cfg: Config, items: seq<Item>, claimed: seq<Item>, at: seq<nat>) {
    && |at| == |claimed| && (forall i, j :: 0 <= i < j < |at| ==> at[i] < at[j])
    && (forall j :: 0 <= j < |at| ==> FirstAt(t, cfg, items, at[j]) && items[at[j]] == claimed[j])
    && forall i :: FirstAt(t, cfg, items, i) ==> i in at
  }

  lemma FirstAtMore(t: Tables, cfg: Config, items: seq<Item>, it: Item, i: nat)
    ensures i < |items| ==> FirstAt(t, cfg, items + [it], i) == FirstAt(t, cfg, items, i)
    ensures FirstAt(t, cfg, items + [it], i) ==> i <= |items|
  {
    var more := items + [it];
    assert forall h :: 0 <= h < |items| ==> more[h] == items[h];
  }

  /** One more item at the end of the list, claimed or not. */
  lemma ClaimedAtMore(t: Tables, cfg: Config, items: seq<Item>, it: Item, claimed: seq<Item>, at: seq<nat>)
    requires ClaimedAt(t, cfg, items, claimed, at)
    ensures if FirstAt(t, cfg, items + [it], |items|) then
              ClaimedAt(t, cfg, items + [it], claimed + [it], at + [|items|])
            else ClaimedAt(t, cfg, items + [it], claimed, at)
  {
    forall i: nat
      ensures i < |items| ==> FirstAt(t, cfg, items + [it], i) == FirstAt(t, cfg, items, i)
      ensures FirstAt(t, cfg, items + [it], i) ==> i <= |items|
    {
      FirstAtMore(t, cfg, items, it, i);
    }
  }

  /** Some item of the key can be sent and may be claimed: then one of them is claimed. */
  lemma {:induction false} SomeFirst(t: Tables, cfg: Config, items: seq<Item>, i: nat) returns (f: nat)
    requires i < |items| && Sendable(t, cfg, items[i]) && NobodysKey(t, items[i].key)
    ensures f <= i && FirstAt(t, cfg, items, f) && items[f].key == items[i].key
    decreases i
  {
    if h :| 0 <= h < i && Sendable(t, cfg, items[h]) && items[h].key == items[i].key {
      f := SomeFirst(t, cfg, items, h);
    } else {
      f := i;
    }
  }

  /** The keys claimed are those of the items that can be sent and may be claimed. */
  lemma KeysClaimed(t: Tables, cfg: Config, items: seq<Item>, claimed: seq<Item>, at: seq<nat>, k: Key)
    requires ClaimedAt(t, cfg, items, claimed, at)
    ensures k in KeysOf(claimed) <==>
              NobodysKey(t, k) && exists i :: 0 <= i < |items| && Sendable(t, cfg, items[i]) && items[i].key == k
  {
    if k in KeysOf(claimed) {
      var x :| x in claimed && x.key == k;
      var j :| 0 <= j < |claimed| && claimed[j] == x;
      assert FirstAt(t, cfg, items, at[j]) && items[at[j]] == x;
    }
    if i :| 0 <= i < |items| && Sendable(t, cfg, items[i]) && items[i].key == k && NobodysKey(t, k) {
      var f := SomeFirst(t, cfg, items, i);
      var j :| 0 <= j < |at| && at[j] == f;
      assert claimed[j] in claimed;
    }
  }

  lemma TakenIsFirst(t: Tables, cfg: Config, items: seq<Item>, it: Item, c: Claimed, at: seq<nat>)
    requires ClaimedAt(t, cfg, items, ItemsOf(c.pending), at) && ClaimedSound(t, cfg, items, c)
    ensures Sendable(t, cfg, it) && Mail.Claimable(c.claims, it.key, t.now) <==>
              FirstAt(t, cfg, items + [it], |items|)
  {
    var more := items + [it];
    assert forall h :: 0 <= h < |items| ==> more[h] == items[h];
    KeysClaimed(t, cfg, items, ItemsOf(c.pending), at, it.key);
    assert Mail.Claimable(c.claims, it.key, t.now) <==> NobodysKey(t, it.key) && it.key !in KeysOf(ItemsOf(c.pending));
  }

  lemma {:induction false} ClaimingAt(t: Tables, cfg: Config, items: seq<Item>) returns (at: seq<nat>)
    ensures ClaimedAt(t, cfg, items, ItemsOf(ClaimItems(t, cfg, items).pending), at)
    ensures forall it :: it in ClaimItems(t, cfg, items).undeliverable <==> it in items && !Sendable(t, cfg, it)
  {
    if items == [] {
      at := [];
    } else {
      var n := |items| - 1;
      var it, before := items[n], ClaimItems(t, cfg, items[..n]);
      at := ClaimingAt(t, cfg, items[..n]);
      assert items == items[..n] + [it];
      ClaimingIsSound(t, cfg, items[..n]);
      TakenIsFirst(t, cfg, items[..n], it, before, at);
      ClaimedAtMore(t, cfg, items[..n], it, ItemsOf(before.pending), at);
      if FirstAt(t, cfg, items, n) {
        ItemsOfAppend(before.pending, Pending(it, t.rows[it.device].platform, t.rows[it.device].token));
        at := at + [n];
      }
    }
  }

  /** Which items a batch claims: in the order of the list, for every key that nobody has
      sent or is sending, the first item that can be sent at all. Those that cannot are
      reported unreachable, all others are passed over. */
  lemma WhichItemsAreClaimed(relay: Relay, cfg: Config, t: Tables, items: seq<Item>) returns (at: seq<nat>)
    ensures var o := Batch(relay, cfg, t, items);
      && ClaimedAt(t, cfg, items, o.claimed, at)
      && forall it :: it in o.unreachable <==> it in items && !Sendable(t, cfg, it)
  {
    at := ClaimingAt(t, cfg, items);
  }
}
