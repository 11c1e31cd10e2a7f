/** `send_push_batch` in the code's own form (app/push.py): the tables as fields that
    the loops update in place, proved equal to the functions of `PushBatch`. */
module PushDesk {
  import opened Common
  import opened Devices
  import Mail = MailBatch
  import opened PushBatch

  datatype PushResult = PushResult(delivered: set<Key>, undeliverable: set<Key>, deferred: nat, refused: set<Key>,
                                   failed: set<Key>)

  class Desk {
    var now: int
    var claims: Mail.Claims        // sent_idempotency
    var rows: Rows                 // push_devices
    var subs: map<nat, Id>         // live app subscriptions
    var requests: nat              // relay requests made

    constructor (now: int, rows: Rows, subs: map<nat, Id>)
      ensures State() == Tables(now, map[], rows, subs, 0)
    {
      this.now, claims, this.rows, this.subs, requests := now, map[], rows, subs, 0;
    }

    function State(): Tables
      reads this
    {
      Tables(now, claims, rows, subs, requests)
    }

    method Claim(cfg: Config, items: seq<Item>) returns (c: Claimed)
      modifies this`claims
      ensures c == ClaimItems(old(State()), cfg, items) && claims == c.claims
    {
      c := Claimed([], [], [], claims);
      var i := 0;
      while i < |items|
        invariant 0 <= i <= |items| && c == ClaimItems(old(State()), cfg, items[..i]) && c.claims == claims
      {
        var it := items[i];
        assert items[..i + 1][..i] == items[..i];
        if !Reachable(State(), cfg, it) {
          c := c.(undeliverable := c.undeliverable + [it]);
        } else if Mail.Claimable(claims, it.key, now) {
          claims := claims[it.key := Mail.Row(Mail.Pending, now)];
          c := c.(claims := claims,
            pending := c.pending + [Pending(it, rows[it.device].platform, rows[it.device].token)]);
        } else {
          c := c.(skipped := c.skipped + [it]);
        }
        i := i + 1;
      }
      assert items[..i] == items;
    }

    method Attempt(relay: Relay, p: Pending) returns (verdict: Verdict)
      modifies this`now, this`requests
      ensures (verdict, State()) == Attempted(relay, old(State()), p)
    {
      var reply := relay(requests, p.platform, p.token, p.item.key);
      now, requests := now + reply.elapsed, requests + 1;
      if reply.verdict.Auth? {
        reply := relay(requests, p.platform, p.token, p.item.key);
        now, requests := now + reply.elapsed, requests + 1;
      }
      verdict := reply.verdict;
    }

    /** One pass of the loop. */
    method TryOne(relay: Relay, cfg: Config, started: int, before: Progress, p: Pending) returns (g: Progress)
      requires before.t == State()
      modifies this
      ensures g == One(relay, cfg, started, before, p) && g.t == State()
    {
      if p.platform in before.unusable || OverBudget(cfg, started, before) {
        return before.(released := before.released + [p.item]);
      }
      var verdict := Attempt(relay, p);
      g := Settled(before, p, verdict, State());
      if verdict.Accepted? {
        claims := claims[p.item.key := Mail.Row(Mail.By(NameOf(p.platform)), now)];
        rows := Alive(rows, p.item.device, p.token);
      } else if verdict.Dropped? || verdict.Unsendable? {
        claims := claims - {p.item.key};
      }
    }

    method Retire(items: seq<Item>)
      modifies this`rows, this`subs
      ensures State() == RetireAll(old(State()), items)
    {
      var i := 0;
      while i < |items|
        invariant 0 <= i <= |items| && State() == RetireAll(old(State()), items[..i])
      {
        var it := items[i];
        assert items[..i + 1][..i] == items[..i];
        if it.device in rows && it.token == Some(rows[it.device].token) && !rows[it.device].retired {
          rows := rows[it.device := rows[it.device].(retired := true)];
          subs := map s | s in subs && subs[s] != it.device :: subs[s];
        }
        i := i + 1;
      }
      assert items[..i] == items;
    }

    method Hold(items: seq<Item>)
      modifies this`rows
      ensures State() == HoldAll(old(State()), items)
    {
      var i := 0;
      while i < |items|
        invariant 0 <= i <= |items| && State() == HoldAll(old(State()), items[..i])
      {
        var it := items[i];
        assert items[..i + 1][..i] == items[..i];
        if it.device in rows && it.token == Some(rows[it.device].token) && rows[it.device].deadSince.None? {
          rows := rows[it.device := rows[it.device].(deadSince := Some(now))];
        }
        i := i + 1;
      }
      assert items[..i] == items;
    }

    method Judge(g: Progress, retire: bool) returns (items: seq<Item>)
      ensures items == Judged(State(), g.sentBy, g.dead, retire)
    {
      items := [];
      var i := 0;
      while i < |g.dead|
        invariant 0 <= i <= |g.dead| && items == Judged(State(), g.sentBy, g.dead[..i], retire)
      {
        assert g.dead[..i + 1][..i] == g.dead[..i];
        var evidence := Evidence(State(), g.sentBy, g.dead[i]);
        if evidence == retire {
          items := items + [g.dead[i].item];
        }
        i := i + 1;
      }
      assert g.dead[..i] == g.dead;
    }

    /** Which refusals are reported, and which of those count as failures. */
    method Report(g: Progress) returns (refused: set<Key>, failed: set<Key>)
      ensures refused == RefusedKeys(g.log) && failed == FailedPayloads(g.log, g.sentBy)
    {
      refused, failed := {}, {};
      var i := 0;
      while i < |g.log|
        invariant 0 <= i <= |g.log|
        invariant refused == set k | 0 <= k < i && Refusal(g.log[k].verdict) :: g.log[k].item.key
        invariant failed == set k | 0 <= k < i && CountsAgainst(g.log[k], g.sentBy) :: g.log[k].item.key
      {
        if Refusal(g.log[i].verdict) {
          refused := refused + {g.log[i].item.key};
        }
        if CountsAgainst(g.log[i], g.sentBy) {
          failed := failed + {g.log[i].item.key};
        }
        i := i + 1;
      }
    }

    /** Retire, hold and release what the loop left, and report. */
    method Settle(c: Claimed, g: Progress) returns (r: PushResult)
      requires g.t == State()
      modifies this
      ensures State() == Finish(c, g).t
      ensures var o := Finish(c, g);
        r == PushResult(KeysOf(o.delivered), o.Undeliverable(), |o.released|, o.refused, o.failed)
    {
      var refused, failed := Report(g);
      var retire := Judge(g, true);
      var hold := Judge(g, false);
      Retire(retire);
      Hold(hold);
      var released := g.released + hold;
      claims := claims - KeysOf(retire) - KeysOf(released);
      r := PushResult(KeysOf(g.delivered), KeysOf(c.undeliverable) + KeysOf(g.dropped) + KeysOf(retire), |released|,
                      refused, failed + KeysOf(retire));
    }

    method SendPushBatch(relay: Relay, cfg: Config, items: seq<Item>) returns (r: PushResult)
      modifies this
      ensures var o := Batch(relay, cfg, old(State()), items);
        && State() == o.t
        && r == PushResult(KeysOf(o.delivered), o.Undeliverable(), |o.released|, o.refused, o.failed)
    {
      var started := now;
      var c := Claim(cfg, items);
      var g := Progress(State(), 0, {}, {}, [], [], [], [], []);
      ghost var whole := Loop(relay, cfg, started, g, c.pending);
      var i := 0;
      while i < |c.pending|
        invariant 0 <= i <= |c.pending| && g.t == State()
        invariant whole == Loop(relay, cfg, started, g, c.pending[i..])
      {
        assert c.pending[i..][0] == c.pending[i] && c.pending[i..][1..] == c.pending[i + 1..];
        g := TryOne(relay, cfg, started, g, c.pending[i]);
        i := i + 1;
      }
      r := Settle(c, g);
    }
  }
}
