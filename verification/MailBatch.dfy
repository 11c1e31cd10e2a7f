/** `send_batch` of app/mail.py: claim every idempotency key first, then run the
    provider chain within each provider's rolling quota, and release what was
    not delivered.

    The functions say what one batch computes; class `Outbox` is the code's own
    form, with the tables as fields, and is proved equal to them. */
module MailBatch {
  import opened Common
  import opened MailDelivery

  /** A pending claim is believed for this long, in seconds. */
  const STALE_CLAIM_SECONDS := 15 * 60

  /** From this many rejections with nothing delivered, a provider's verdicts are
      no longer believed as verdicts on the recipients. */
  const SYSTEMIC_REJECTION_MIN := 3

  datatype Stamp = Pending | By(provider: string)
  datatype Row = Row(stamp: Stamp, at: int)
  type Claims = map<Key, Row>

  /** The mail tables: idempotency claims, failures per address, suppressed
      addresses, the deferral count, the clock, and the log of provider calls. */
  datatype Post = Post(now: int, claims: Claims, failures: map<Address, nat>,
                       suppressed: set<Address>, deferrals: nat, offers: seq<Offer>)

  // ---------------------------------------------------------------------
  // Claims and quota windows

  predicate Claimable(claims: Claims, key: Key, now: int) {
    || key !in claims
    || (claims[key].stamp.Pending? && claims[key].at < now - STALE_CLAIM_SECONDS)
  }

  /** The items a batch claims, in list order, and the claims after it. */
  function ClaimAll(items: seq<Outgoing>, dead: set<Address>, claims: Claims, now: int): (seq<Outgoing>, Claims) {
    if items == [] then ([], claims)
    else if items[0].to !in dead && Claimable(claims, items[0].key, now) then
      var (taken, after) := ClaimAll(items[1..], dead, claims[items[0].key := Row(Pending, now)], now);
      ([items[0]] + taken, after)
    else
      ClaimAll(items[1..], dead, claims, now)
  }

  function Dead(st: Post, failureCap: int): set<Address> {
    st.suppressed + if failureCap > 0 then set a | a in st.failures && st.failures[a] >= failureCap else {}
  }

  function StampedWithin(claims: Claims, provider: string, window: nat, now: int): set<Key> {
    set k | k in claims && claims[k].stamp == By(provider) && claims[k].at > now - window
  }

  /** Mails a provider sent within the last `window` seconds. */
  function Used(claims: Claims, provider: string, window: nat, now: int): nat {
    |StampedWithin(claims, provider, window, now)|
  }

  function Tightest(claims: Claims, provider: string, limits: seq<Limit>, now: int): int
    requires limits != []
  {
    var avail := limits[0].max - Used(claims, provider, limits[0].window, now);
    if |limits| == 1 then avail else Min(avail, Tightest(claims, provider, limits[1..], now))
  }

  /** What the tightest of a provider's windows still takes. */
  function Room(claims: Claims, provider: string, limits: seq<Limit>, now: int): nat {
    if limits == [] then 0 else Max(0, Tightest(claims, provider, limits, now))
  }

  function PoolRoom(claims: Claims, chain: seq<Provider>, now: int): nat {
    if chain == [] then 0
    else Room(claims, chain[0].name, chain[0].limits, now) + PoolRoom(claims, chain[1..], now)
  }

  // ---------------------------------------------------------------------
  // The provider chain

  /** Where a batch stands: what was sent (in order), what the current provider
      refused, what is still to be offered. */
  datatype Progress = Progress(post: Post, sent: seq<Outgoing>, refused: seq<Outgoing>,
                               remaining: seq<Outgoing>, sentBy: map<string, nat>,
                               unusable: set<string>)

  function Without(items: seq<Outgoing>, keys: set<Key>): seq<Outgoing> {
    if items == [] then []
    else if items[0].key in keys then Without(items[1..], keys)
    else [items[0]] + Without(items[1..], keys)
  }

  function Recipients(items: seq<Outgoing>): set<Address> {
    set x | x in items :: x.to
  }

  function StampAll(claims: Claims, keys: set<Key>, provider: string, at: int): Claims {
    map k | k in claims :: if k in keys then Row(By(provider), at) else claims[k]
  }

  function SentBy(sentBy: map<string, nat>, name: string): nat {
    if name in sentBy then sentBy[name] else 0
  }

  /** One provider call's outcome in the tables: what was sent is stamped, and those
      addresses' failures are cleared. */
  function Recorded(p: Provider, st: Post, d: Delivery): Post {
    var now := st.now + d.elapsed;
    st.(now := now,
        claims := StampAll(st.claims, Keys(d.sent), p.name, now),
        failures := st.failures - Recipients(d.sent),
        offers := st.offers + d.offers)
  }

  function Absorb(p: Provider, g: Progress, d: Delivery): Progress {
    g.(post := Recorded(p, g.post, d),
       sent := g.sent + d.sent,
       refused := g.refused + d.refused,
       remaining := Without(g.remaining, Keys(d.sent) + Keys(d.refused)),
       sentBy := g.sentBy[p.name := SentBy(g.sentBy, p.name) + |d.sent|],
       unusable := if d.unusable then g.unusable + {p.name} else g.unusable)
  }

  function NextChunk(p: Provider, room: int, remaining: seq<Outgoing>): seq<Outgoing>
    requires p.batchSize > 0 && room > 0
  {
    remaining[..Min(p.batchSize, Min(room, |remaining|))]
  }

  /** One provider's turn: chunks up to its batch size until its room is spent,
      everything was handled, or it proves unusable. */
  function Turn(p: Provider, room: int, g: Progress): Progress
    requires p.batchSize > 0
    decreases |g.remaining|
  {
    if g.remaining == [] || room <= 0 then g
    else
      var d := Deliver(p, |g.post.offers|, NextChunk(p, room, g.remaining));
      var after := Absorb(p, g, d);
      if d.unusable then after
      else
        CallMakesProgress(p, |g.post.offers|, room, g.remaining);
        Turn(p, room - |d.sent|, after)
  }

  predicate Systemic(g: Progress, name: string) {
    |g.refused| >= SYSTEMIC_REJECTION_MIN && SentBy(g.sentBy, name) == 0
  }

  /** What the previous provider refused gets one more chance. */
  function Refold(g: Progress): Progress {
    g.(remaining := g.remaining + g.refused, refused := [])
  }

  function ProviderTurn(p: Provider, g: Progress): Progress
    requires p.batchSize > 0
  {
    var after := Turn(p, Room(g.post.claims, p.name, p.limits, g.post.now), Refold(g));
    if Systemic(after, p.name) then Refold(after).(unusable := after.unusable + {p.name}) else after
  }

  predicate ValidChain(chain: seq<Provider>) {
    forall i :: 0 <= i < |chain| ==> chain[i].batchSize > 0
  }

  function Chain(chain: seq<Provider>, g: Progress): Progress
    requires ValidChain(chain)
  {
    if chain == [] then g
    else if Refold(g).remaining == [] then Refold(g)
    else Chain(chain[1..], ProviderTurn(chain[0], g))
  }

  // ---------------------------------------------------------------------
  // The whole batch

  function Strike(failures: map<Address, nat>, refused: seq<Outgoing>): map<Address, nat>
    decreases |refused|
  {
    if refused == [] then failures
    else
      var a := refused[0].to;
      Strike(failures[a := 1 + if a in failures then failures[a] else 0], refused[1..])
  }

  /** `sent`, `refused` and `deferred` are what became of the claimed items; a
      dead address is never claimed. */
  datatype Outcome = Outcome(post: Post, claimed: seq<Outgoing>, sent: seq<Outgoing>,
                             refused: seq<Outgoing>, deferred: seq<Outgoing>, dead: set<Key>)
  {
    function Delivered(): set<Key> { Keys(sent) }
    function Undeliverable(): set<Key> { dead + Keys(refused) }
  }

  function Start(st: Post, items: seq<Outgoing>, failureCap: int): Progress {
    var (claimed, claims) := ClaimAll(items, Dead(st, failureCap), st.claims, st.now);
    Progress(st.(claims := claims), [], [], claimed, map[], {})
  }

  function Settle(g: Progress): Post {
    g.post.(failures := Strike(g.post.failures, g.refused),
            claims := g.post.claims - Keys(g.refused) - Keys(g.remaining),
            deferrals := g.post.deferrals + |g.remaining|)
  }

  function Batch(st: Post, items: seq<Outgoing>, chain: seq<Provider>, failureCap: int): Outcome
    requires ValidChain(chain)
  {
    var start := Start(st, items, failureCap);
    var end := Chain(chain, start);
    var dead := set x | x in items && x.to in Dead(st, failureCap) :: x.key;
    Outcome(Settle(end), start.remaining, end.sent, end.refused, end.remaining, dead)
  }

  // ---------------------------------------------------------------------
  // Progress of one call

  lemma {:induction false} WithoutNone(items: seq<Outgoing>, keys: set<Key>)
    requires Keys(items) !! keys
    ensures Without(items, keys) == items
  {
    if items != [] {
      assert items[0].key in Keys(items) && Keys(items[1..]) <= Keys(items);
      WithoutNone(items[1..], keys);
    }
  }

  /** Dropping the keys of a prefix leaves the rest, keys being distinct. */
  lemma {:induction false} WithoutPrefix(items: seq<Outgoing>, h: nat, keys: set<Key>)
    requires h <= |items| && Keys(items[..h]) <= keys && Keys(items[h..]) !! keys
    ensures Without(items, keys) == items[h..]
  {
    if h == 0 {
      assert items[0..] == items;
      WithoutNone(items, keys);
    } else {
      var rest := items[1..];
      assert items[0] in items[..h] && items[0].key in keys;
      assert rest[h - 1..] == items[h..];
      assert Keys(rest[..h - 1]) <= Keys(items[..h]) by {
        assert forall x :: x in rest[..h - 1] ==> x in items[..h];
      }
      WithoutPrefix(rest, h - 1, keys);
    }
  }

  lemma {:induction false} WithoutShrinks(items: seq<Outgoing>, keys: set<Key>)
    ensures |Without(items, keys)| <= |items|
  {
    if items != [] {
      WithoutShrinks(items[1..], keys);
    }
  }

  lemma PickKeys(items: seq<Outgoing>, g: seq<bool>)
    requires |items| == |g|
    ensures Keys(Pick(items, g, true)) + Keys(Pick(items, g, false)) == Keys(items)
  {
    var yes, no := Pick(items, g, true), Pick(items, g, false);
    PickSplits(items, g);
    forall x | x in items ensures x in yes || x in no {
      assert x in multiset(items);
    }
  }

  lemma CallMakesProgress(p: Provider, n: nat, room: int, remaining: seq<Outgoing>)
    requires p.batchSize > 0 && room > 0 && remaining != []
    requires var d := Deliver(p, n, NextChunk(p, room, remaining)); !d.unusable
    ensures var d := Deliver(p, n, NextChunk(p, room, remaining));
      |Without(remaining, Keys(d.sent) + Keys(d.refused))| < |remaining|
  {
    var chunk := NextChunk(p, room, remaining);
    var d := Deliver(p, n, chunk);
    var grades := DeliverGradesAPrefix(p, n, chunk);
    assert chunk[..|grades|] == chunk;
    PickKeys(chunk, grades);
    assert remaining[0] == chunk[0] && chunk[0].key in Keys(chunk);
    WithoutShrinks(remaining[1..], Keys(d.sent) + Keys(d.refused));
  }
}
