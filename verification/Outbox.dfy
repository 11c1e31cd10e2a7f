/** The mail tables and `send_batch` in the code's own form (app/mail.py): fields
    that the loops update in place, proved equal to the functions of `MailBatch`. */
module Outbox {
  import opened Common
  import opened MailDelivery
  import opened MailBatch
  import opened MailLaws

  datatype BatchResult = BatchResult(delivered: set<Key>, deferred: nat, undeliverable: set<Key>)

  lemma {:induction false} GoesOn(p: Provider, room: int, g: Progress, whole: Progress, d: Delivery, after: Progress)
    requires p.batchSize > 0 && room > 0 && g.remaining != [] && Turn(p, room, g) == whole
    requires d == NextCall(p, room, g) && after == AfterChunk(p, room, g)
    ensures Rest(p, room - |d.sent|, !d.unusable, after) == whole
  {
    TurnOnce(p, room, g);
  }

  lemma {:induction false} TurnEnded(p: Provider, room: int, usable: bool, g: Progress)
    requires p.batchSize > 0 && !(usable && g.remaining != [] && room > 0)
    ensures Rest(p, room, usable, g) == g
  {
  }

  class Outbox {
    var now: int
    var claims: Claims                  // sent_idempotency
    var failures: map<Address, nat>     // email_failures
    var suppressed: set<Address>        // email_suppressions with a reason
    var deferrals: nat                  // email_deferral_counts
    var offers: seq<Offer>              // every provider call made, for the proofs

    constructor (now: int)
      ensures State() == Post(now, map[], map[], {}, 0, [])
    {
      this.now := now;
      claims, failures, suppressed, deferrals, offers := map[], map[], {}, 0, [];
    }

    function State(): Post
      reads this
    {
      Post(now, claims, failures, suppressed, deferrals, offers)
    }

    /** INSERT OR IGNORE, then take over a stale pending claim. */
    method Claim(key: Key) returns (mine: bool)
      modifies this`claims
      ensures mine == Claimable(old(claims), key, now)
      ensures claims == if mine then old(claims)[key := Row(Pending, now)] else old(claims)
    {
      if key !in claims {
        claims := claims[key := Row(Pending, now)];
        return true;
      }
      if claims[key].stamp.Pending? && claims[key].at < now - STALE_CLAIM_SECONDS {
        claims := claims[key := claims[key].(at := now)];
        return true;
      }
      return false;
    }

    method Headroom(name: string, limits: seq<Limit>) returns (room: nat)
      ensures room == Room(claims, name, limits, now)
    {
      if limits == [] {
        return 0;
      }
      var tightest := limits[0].max - Used(claims, name, limits[0].window, now);
      var i := 1;
      while i < |limits|
        invariant 1 <= i <= |limits|
        invariant Tightest(claims, name, limits, now) ==
                    if i == |limits| then tightest else Min(tightest, Tightest(claims, name, limits[i..], now))
      {
        tightest := Min(tightest, limits[i].max - Used(claims, name, limits[i].window, now));
        i := i + 1;
      }
      return Max(0, tightest);
    }

    method ClaimItems(items: seq<Outgoing>, dead: set<Address>) returns (pending: seq<Outgoing>, skipped: set<Key>)
      modifies this`claims
      ensures pending == ClaimAll(items, dead, old(claims), now).0
      ensures claims == ClaimAll(items, dead, old(claims), now).1
      ensures skipped == set x | x in items && x.to in dead :: x.key
    {
      pending, skipped := [], {};
      var i := 0;
      assert items[0..] == items;
      while i < |items|
        invariant 0 <= i <= |items|
        invariant ClaimAll(items, dead, old(claims), now).0 == pending + ClaimAll(items[i..], dead, claims, now).0
        invariant ClaimAll(items, dead, old(claims), now).1 == ClaimAll(items[i..], dead, claims, now).1
        invariant skipped == set x | x in items[..i] && x.to in dead :: x.key
      {
        var it := items[i];
        assert items[..i + 1] == items[..i] + [it];
        assert items[i..][1..] == items[i + 1..];
        if it.to in dead {
          skipped := skipped + {it.key};
        } else {
          var mine := Claim(it.key);
          if mine {
            pending := pending + [it];
          }
        }
        i := i + 1;
      }
      assert items[..i] == items;
    }

    method Record(p: Provider, d: Delivery)
      modifies this
      ensures State() == Recorded(p, old(State()), d)
    {
      now := now + d.elapsed;
      offers := offers + d.offers;
      claims := StampAll(claims, Keys(d.sent), p.name, now);
      failures := failures - Recipients(d.sent);
    }

    /** One provider call, recorded, and its chunk taken off what remains. */
    method Call(p: Provider, room: int, before: Progress) returns (d: Delivery, g: Progress)
      requires p.batchSize > 0 && room > 0 && before.remaining != [] && before.post == State()
      modifies this
      ensures d == NextCall(p, room, before) && g == AfterChunk(p, room, before) && g.post == State()
    {
      d := Deliver(p, |offers|, NextChunk(p, room, before.remaining));
      Record(p, d);
      g := Absorb(p, before, d);
    }

    /** One provider's turn of the chain. */
    method RunProvider(p: Provider, before: Progress) returns (g: Progress)
      requires p.batchSize > 0 && before.post == State()
      modifies this
      ensures g == ProviderTurn(p, before) && g.post == State()
    {
      g := Refold(before);
      var room := Headroom(p.name, p.limits);
      g := OfferChunks(p, room, g);
      if |g.refused| >= SYSTEMIC_REJECTION_MIN && SentBy(g.sentBy, p.name) == 0 {
        g := Refold(g).(unusable := g.unusable + {p.name});
      }
    }

    /** A chunk of what remains, offered and taken off. */
    method OfferChunk(p: Provider, room: int, before: Progress, ghost whole: Progress)
      returns (g: Progress, left: int, usable: bool)
      requires p.batchSize > 0 && room > 0 && before.remaining != [] && before.post == State()
      requires Turn(p, room, before) == whole
      modifies this
      ensures g.post == State() && Rest(p, left, usable, g) == whole
      ensures usable ==> |g.remaining| < |before.remaining|
    {
      var d;
      d, g := Call(p, room, before);
      GoesOn(p, room, before, whole, d, g);
      if !d.unusable {
        CallShrinks(p, room, before);
      }
      left, usable := room - |d.sent|, !d.unusable;
    }

    /** Chunks until the room is spent, everything was handled, or the provider fails. */
    method OfferChunks(p: Provider, headroom: int, before: Progress) returns (g: Progress)
      requires p.batchSize > 0 && before.post == State()
      modifies this
      ensures g == Turn(p, headroom, before) && g.post == State()
    {
      var room, usable := headroom, true;
      g := before;
      ghost var whole := Turn(p, headroom, before);
      while usable && g.remaining != [] && room > 0
        invariant g.post == State() && Rest(p, room, usable, g) == whole
        decreases usable, |g.remaining|
      {
        g, room, usable := OfferChunk(p, room, g, whole);
      }
      TurnEnded(p, room, usable, g);
    }

    method StrikeAll(refused: seq<Outgoing>)
      modifies this`failures
      ensures failures == Strike(old(failures), refused)
    {
      var i := 0;
      while i < |refused|
        invariant 0 <= i <= |refused|
        invariant Strike(old(failures), refused) == Strike(failures, refused[i..])
      {
        var a := refused[i].to;
        assert refused[i..][1..] == refused[i + 1..];
        failures := failures[a := 1 + if a in failures then failures[a] else 0];
        i := i + 1;
      }
    }

    /** The chain, until nothing is left to offer. */
    method RunChain(chain: seq<Provider>, start: Progress) returns (g: Progress)
      requires ValidChain(chain) && start.post == State()
      modifies this
      ensures g == Chain(chain, start) && g.post == State()
    {
      g := start;
      var i := 0;
      while i < |chain| && g.remaining + g.refused != []
        invariant 0 <= i <= |chain|
        invariant g.post == State()
        invariant Chain(chain, start) == Chain(chain[i..], g)
      {
        assert chain[i..][0] == chain[i] && chain[i..][1..] == chain[i + 1..];
        g := RunProvider(chain[i], g);
        i := i + 1;
      }
      assert g.remaining + g.refused == [] ==> Refold(g) == g;
    }

    /** Release what was refused or is left over. */
    method Release(g: Progress)
      requires g.post == State()
      modifies this
      ensures State() == MailBatch.Settle(g)
    {
      StrikeAll(g.refused);
      claims := claims - Keys(g.refused) - Keys(g.remaining);
      deferrals := deferrals + |g.remaining|;
    }

    method SendBatch(items: seq<Outgoing>, chain: seq<Provider>, failureCap: int) returns (r: BatchResult)
      requires ValidChain(chain)
      modifies this
      ensures var o := Batch(old(State()), items, chain, failureCap);
        && State() == o.post
        && r == BatchResult(o.Delivered(), |o.deferred|, o.Undeliverable())
    {
      ghost var before := State();
      var pending, skipped := ClaimItems(items, Dead(State(), failureCap));
      var start := Progress(State(), [], [], pending, map[], {});
      assert start == Start(before, items, failureCap);
      var g := RunChain(chain, start);
      Release(g);
      r := BatchResult(Keys(g.sent), |g.remaining|, skipped + Keys(g.refused));
    }
  }
}
