/** `send_push_batch` of app/push.py: one relay request per push, within a budget, and
    dead tokens judged only once the batch's deliveries are known.

    A relay is an arbitrary oracle. The device rows are those of `Devices`, the claims
    those of the mail batch: both batches share one table. */
module PushBatch {
  import opened Common
  import opened Devices
  import Mail = MailBatch

  type Key = nat

  datatype Item = Item(device: Id, token: Option<Token>, key: Key, verification: bool)

  /** What one relay answer means: delivered, the token is dead, the relay is down or
      out of quota, this token is throttled, our credentials were refused, the payload
      was refused, or the request could not even be made. */
  datatype Verdict = Accepted | DeadToken | Down | Throttled | Auth | Dropped | Unsendable

  datatype Reply = Reply(verdict: Verdict, elapsed: nat)

  /** `relay(n, platform, token, key)` answers the n-th request of the process. */
  type Relay = (nat, Platform, Token, Key) -> Reply

  /** The platforms with credentials, and the budget; 0 for no bound. */
  datatype Config = Config(configured: set<Platform>, maxItems: nat, maxSeconds: nat)

  /** The tables a batch works on: `subs` are the live app subscriptions and their
      devices, `requests` counts relay requests. */
  datatype Tables = Tables(now: int, claims: Mail.Claims, rows: Rows, subs: map<nat, Id>, requests: nat)

  function NameOf(p: Platform): string {
    if p.Apns? then "apns" else "fcm"
  }

  /** Sent to the relay: when, to whom, and what came of it. */
  datatype Try = Try(item: Item, platform: Platform, startedAt: int, verdict: Verdict)

  // ---------------------------------------------------------------------
  // Which items are sent at all

  predicate Reachable(t: Tables, cfg: Config, it: Item) {
    && it.device in t.rows && !t.rows[it.device].retired && t.rows[it.device].platform in cfg.configured
    && it.token == Some(t.rows[it.device].token)
    && (t.rows[it.device].verifiedAt.Some? || it.verification)
  }

  datatype Pending = Pending(item: Item, platform: Platform, token: Token)

  datatype Claimed = Claimed(pending: seq<Pending>, undeliverable: seq<Item>, skipped: seq<Item>, claims: Mail.Claims)

  /** Claim every reachable item first; the devices are those read before. */
  function ClaimItems(t: Tables, cfg: Config, items: seq<Item>): Claimed {
    if items == [] then Claimed([], [], [], t.claims)
    else
      var before := ClaimItems(t, cfg, items[..|items| - 1]);
      var it := items[|items| - 1];
      if !Reachable(t, cfg, it) then before.(undeliverable := before.undeliverable + [it])
      else if Mail.Claimable(before.claims, it.key, t.now) then
        before.(pending := before.pending + [Pending(it, t.rows[it.device].platform, t.rows[it.device].token)],
                claims := before.claims[it.key := Mail.Row(Mail.Pending, t.now)])
      else before.(skipped := before.skipped + [it])
  }

  // ---------------------------------------------------------------------
  // The loop

  datatype Progress = Progress(t: Tables, attempts: nat, unusable: set<Platform>, sentBy: set<Platform>,
                               delivered: seq<Item>, dropped: seq<Item>, released: seq<Item>, dead: seq<Pending>,
                               log: seq<Try>)

  /** One attempt, with a single retry on refused credentials. */
  function Attempted(relay: Relay, t: Tables, p: Pending): (Verdict, Tables) {
    var first := relay(t.requests, p.platform, p.token, p.item.key);
    var after := t.(now := t.now + first.elapsed, requests := t.requests + 1);
    if !first.verdict.Auth? then (first.verdict, after)
    else
      var second := relay(after.requests, p.platform, p.token, p.item.key);
      (second.verdict, after.(now := after.now + second.elapsed, requests := after.requests + 1))
  }

  predicate OverBudget(cfg: Config, started: int, g: Progress) {
    (cfg.maxItems > 0 && g.attempts >= cfg.maxItems) || (cfg.maxSeconds > 0 && g.t.now - started >= cfg.maxSeconds)
  }

  /** A delivery shows the token works: a remembered dead answer is forgotten. */
  function Alive(rows: Rows, device: Id, token: Token): Rows {
    if device in rows && rows[device].token == token then rows[device := rows[device].(deadSince := None)] else rows
  }

  function Settled(g: Progress, p: Pending, verdict: Verdict, t: Tables): Progress {
    var it := p.item;
    var tried := g.(t := t, attempts := g.attempts + 1, log := g.log + [Try(it, p.platform, g.t.now, verdict)]);
    match verdict
    case Accepted =>
      tried.(
        t := t.(claims := t.claims[it.key := Mail.Row(Mail.By(NameOf(p.platform)), t.now)],
          rows := Alive(t.rows, it.device, p.token)),
             delivered := g.delivered + [it], sentBy := g.sentBy + {p.platform})
    case DeadToken => tried.(dead := g.dead + [p])
    case Throttled => tried.(released := g.released + [it])
    case Dropped => tried.(t := t.(claims := t.claims - {it.key}), dropped := g.dropped + [it])
    case Unsendable => tried.(t := t.(claims := t.claims - {it.key}), dropped := g.dropped + [it])
    case _ => tried.(released := g.released + [it], unusable := g.unusable + {p.platform})
  }

  function One(relay: Relay, cfg: Config, started: int, g: Progress, p: Pending): Progress {
    if p.platform in g.unusable || OverBudget(cfg, started, g) then g.(released := g.released + [p.item])
    else
      var (verdict, t) := Attempted(relay, g.t, p);
      Settled(g, p, verdict, t)
  }

  function Loop(relay: Relay, cfg: Config, started: int, g: Progress, pending: seq<Pending>): Progress
    decreases |pending|
  {
    if pending == [] then g else Loop(relay, cfg, started, One(relay, cfg, started, g, pending[0]), pending[1..])
  }

  // ---------------------------------------------------------------------
  // Judging the dead

  /** The platform accepted a push in this batch, or since the device's remembered
      first dead answer for this token. */
  predicate Evidence(t: Tables, sentBy: set<Platform>, a: Pending) {
    || a.platform in sentBy
    || (&& a.item.device in t.rows && a.item.token == Some(t.rows[a.item.device].token)
        && t.rows[a.item.device].deadSince.Some?
        && exists k :: k in t.claims && t.claims[k].stamp == Mail.By(NameOf(a.platform))
             && t.claims[k].at >= t.rows[a.item.device].deadSince.value)
  }

  function Judged(t: Tables, sentBy: set<Platform>, dead: seq<Pending>, retire: bool): seq<Item> {
    if dead == [] then []
    else
      var before := Judged(t, sentBy, dead[..|dead| - 1], retire);
      var a := dead[|dead| - 1];
      if Evidence(t, sentBy, a) == retire then before + [a.item] else before
  }

  /** An answer about one token or payload, rather than about the platform. */
  predicate Refusal(v: Verdict) {
    v.DeadToken? || v.Throttled? || v.Dropped? || v.Unsendable?
  }

  /** Keys the caller is told were refused. */
  function RefusedKeys(log: seq<Try>): set<Key> {
    set i | 0 <= i < |log| && Refusal(log[i].verdict) :: log[i].item.key
  }

  /** A refused payload or a throttle counts against the item only if its platform
      delivered to someone in this batch; one that could not be sent always does. */
  predicate CountsAgainst(try: Try, sentBy: set<Platform>) {
    try.verdict.Unsendable? || ((try.verdict.Throttled? || try.verdict.Dropped?) && try.platform in sentBy)
  }

  function FailedPayloads(log: seq<Try>, sentBy: set<Platform>): set<Key> {
    set i | 0 <= i < |log| && CountsAgainst(log[i], sentBy) :: log[i].item.key
  }

  /** Keys the caller is told failed: those, and dead tokens with evidence. */
  function FailedKeys(g: Progress): set<Key> {
    FailedPayloads(g.log, g.sentBy) + KeysOf(Judged(g.t, g.sentBy, g.dead, true))
  }

  /** `retire_device`: the row, and every live subscription on it. */
  function RetireOne(t: Tables, it: Item): Tables {
    if it.device in t.rows && it.token == Some(t.rows[it.device].token) && !t.rows[it.device].retired then
      t.(rows := t.rows[it.device := t.rows[it.device].(retired := true)],
         subs := map s | s in t.subs && t.subs[s] != it.device :: t.subs[s])
    else t
  }

  function RetireAll(t: Tables, items: seq<Item>): Tables {
    if items == [] then t else RetireOne(RetireAll(t, items[..|items| - 1]), items[|items| - 1])
  }

  function HoldOne(t: Tables, it: Item): Tables {
    if it.device in t.rows && it.token == Some(t.rows[it.device].token) && t.rows[it.device].deadSince.None? then
      t.(rows := t.rows[it.device := t.rows[it.device].(deadSince := Some(t.now))])
    else t
  }

  function HoldAll(t: Tables, items: seq<Item>): Tables {
    if items == [] then t else HoldOne(HoldAll(t, items[..|items| - 1]), items[|items| - 1])
  }

  function KeysOf(items: seq<Item>): set<Key> {
    set it | it in items :: it.key
  }

  /** Where every item ended up. */
  datatype Outcome = Outcome(t: Tables, claimed: seq<Item>, skipped: seq<Item>, unreachable: seq<Item>,
                             delivered: seq<Item>, dropped: seq<Item>, retired: seq<Item>, released: seq<Item>,
                             log: seq<Try>, refused: set<Key>, failed: set<Key>)
  {
    function Undeliverable(): set<Key> { KeysOf(unreachable) + KeysOf(dropped) + KeysOf(retired) }
  }

  function Finish(c: Claimed, g: Progress): Outcome {
    var retire, hold := Judged(g.t, g.sentBy, g.dead, true), Judged(g.t, g.sentBy, g.dead, false);
    var t := HoldAll(RetireAll(g.t, retire), hold);
    var released := g.released + hold;
    Outcome(t.(claims := t.claims - KeysOf(retire) - KeysOf(released)),
            ItemsOf(c.pending), c.skipped, c.undeliverable, g.delivered, g.dropped, retire, released,
            g.log, RefusedKeys(g.log), FailedKeys(g))
  }

  function ItemsOf(pending: seq<Pending>): (r: seq<Item>)
    ensures |r| == |pending| && forall i :: 0 <= i < |r| ==> r[i] == pending[i].item
  {
    seq(|pending|, i requires 0 <= i < |pending| => pending[i].item)
  }

  function Start(t: Tables, c: Claimed): Progress {
    Progress(t.(claims := c.claims), 0, {}, {}, [], [], [], [], [])
  }

  function Batch(relay: Relay, cfg: Config, t: Tables, items: seq<Item>): Outcome {
    var c := ClaimItems(t, cfg, items);
    Finish(c, Loop(relay, cfg, t.now, Start(t, c), c.pending))
  }
}
