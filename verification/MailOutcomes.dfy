/** What one mail batch achieves (app/mail.py). */
module MailOutcomes {
  import opened Common
  import opened MailDelivery
  import opened MailBatch
  import opened MailLaws
  import opened MailVerdicts

  // Said of the tables and calls of `send_batch`: whose mail is claimed, how addresses come
  // to be given up, how delivered mail is recorded, and why any is left waiting.

  // ---------------------------------------------------------------------
  // Whose mail is claimed

  /** The address is neither suppressed nor, if failures are counted at all, has it failed
      `cap` times. */
  predicate MayMail(st: Post, cap: int, a: Address) {
    a !in st.suppressed && (cap > 0 && a in st.failures ==> st.failures[a] < cap)
  }

  /** Nobody sent the key before, and nobody is sending it: a pending claim is believed for
      a quarter of an hour. */
  predicate NobodysKey(claims: Claims, k: Key, now: int) {
    k in claims ==> claims[k].stamp.Pending? && now - claims[k].at > 900
  }

  /** The mail at place i is the first of its key to an address that may be mailed, and
      may be claimed. */
  ghost predicate FirstAt(st: Post, cap: int, items: seq<Outgoing>, i: nat) {
    && i < |items| && MayMail(st, cap, items[i].to) && NobodysKey(st.claims, items[i].key, st.now)
    && forall h :: 0 <= h < i && MayMail(st, cap, items[h].to) ==> items[h].key != items[i].key
  }

  predicate Increasing(at: seq<nat>) {
    forall i, j :: 0 <= i < j < |at| ==> at[i] < at[j]
  }

  ghost predicate TakenAt(st: Post, cap: int, items: seq<Outgoing>, claimed: seq<Outgoing>, at: seq<nat>) {
    |at| == |claimed| && forall j :: 0 <= j < |at| ==> FirstAt(st, cap, items, at[j]) && items[at[j]] == claimed[j]
  }

  ghost predicate AllTaken(st: Post, cap: int, items: seq<Outgoing>, at: seq<nat>) {
    forall i :: FirstAt(st, cap, items, i) ==> i in at
  }

  /** `at` are the places in the list of what was claimed. */
  ghost predicate ClaimedAt(st: Post, cap: int, items: seq<Outgoing>, claimed: seq<Outgoing>, at: seq<nat>) {
    Increasing(at) && TakenAt(st, cap, items, claimed, at) && AllTaken(st, cap, items, at)
  }

  predicate FirstTaken(st: Post, cap: int, it: Outgoing) {
    MayMail(st, cap, it.to) && NobodysKey(st.claims, it.key, st.now)
  }

  /** The tables once the first mail of the list was claimed, if it is. */
  function AfterFirst(st: Post, cap: int, it: Outgoing): Post {
    if FirstTaken(st, cap, it) then st.(claims := st.claims[it.key := Row(Pending, st.now)]) else st
  }

  /** What follows the first mail is judged as if it stood alone, with the first one's
      claim made if it is. */
  lemma FirstAtLater(st: Post, cap: int, items: seq<Outgoing>, i: nat)
    requires items != []
    ensures FirstAt(st, cap, items, 0) <==> FirstTaken(st, cap, items[0])
    ensures FirstAt(st, cap, items, i + 1) <==> FirstAt(AfterFirst(st, cap, items[0]), cap, items[1..], i)
  {
    var rest, after := items[1..], AfterFirst(st, cap, items[0]);
    assert forall h :: 0 <= h < |rest| ==> rest[h] == items[h + 1];
    if FirstAt(after, cap, rest, i) {
      forall h | 0 <= h < i + 1 && MayMail(st, cap, items[h].to) ensures items[h].key != items[i + 1].key {
        if h > 0 {
          assert rest[h - 1] == items[h];
        }
      }
    }
    if FirstAt(st, cap, items, i + 1) {
      forall h | 0 <= h < i && MayMail(st, cap, rest[h].to) ensures rest[h].key != rest[i].key {
        assert items[h + 1] == rest[h];
      }
    }
  }

  function Shifted(at: seq<nat>): (r: seq<nat>)
    ensures |r| == |at| && forall j :: 0 <= j < |at| ==> r[j] == at[j] + 1
  {
    seq(|at|, i requires 0 <= i < |at| => at[i] + 1)
  }

  lemma TakenLater(st: Post, cap: int, items: seq<Outgoing>, placed: seq<Outgoing>, later: seq<nat>)
    requires items != [] && TakenAt(AfterFirst(st, cap, items[0]), cap, items[1..], placed, later)
    ensures TakenAt(st, cap, items, placed, Shifted(later))
  {
    forall j | 0 <= j < |later|
      ensures FirstAt(st, cap, items, Shifted(later)[j]) && items[Shifted(later)[j]] == placed[j]
    {
      FirstAtLater(st, cap, items, later[j]);
      assert items[later[j] + 1] == items[1..][later[j]];
    }
  }

  lemma AllTakenLater(st: Post, cap: int, items: seq<Outgoing>, later: seq<nat>)
    requires items != [] && AllTaken(AfterFirst(st, cap, items[0]), cap, items[1..], later)
    ensures AllTaken(st, cap, items, [0] + Shifted(later))
    ensures !FirstTaken(st, cap, items[0]) ==> AllTaken(st, cap, items, Shifted(later))
  {
    forall i: nat | FirstAt(st, cap, items, i)
      ensures i in [0] + Shifted(later) && (!FirstTaken(st, cap, items[0]) ==> i in Shifted(later))
    {
      if i == 0 {
        FirstAtLater(st, cap, items, 0);
        assert ([0] + Shifted(later))[0] == 0;
      } else {
        FirstAtLater(st, cap, items, i - 1);
        var j :| 0 <= j < |later| && later[j] == i - 1;
        assert Shifted(later)[j] == i && ([0] + Shifted(later))[j + 1] == i;
      }
    }
  }

  lemma FirstToo(st: Post, cap: int, items: seq<Outgoing>, placed: seq<Outgoing>, at: seq<nat>)
    requires items != [] && FirstTaken(st, cap, items[0]) && TakenAt(st, cap, items, placed, at)
    ensures TakenAt(st, cap, items, [items[0]] + placed, [0] + at)
  {
    FirstAtLater(st, cap, items, 0);
    var longer, all := [0] + at, [items[0]] + placed;
    forall j | 0 <= j < |longer| ensures FirstAt(st, cap, items, longer[j]) && items[longer[j]] == all[j] {
      if j > 0 {
        assert longer[j] == at[j - 1] && all[j] == placed[j - 1];
      }
    }
  }

  lemma WhoIsDead(st: Post, cap: int, a: Address)
    ensures a in Dead(st, cap) <==> !MayMail(st, cap, a)
  {
  }

  lemma ClaimingOne(st: Post, cap: int, items: seq<Outgoing>)
    requires items != []
    ensures var after := AfterFirst(st, cap, items[0]);
      var rest := ClaimAll(items[1..], Dead(after, cap), after.claims, after.now).0;
      ClaimAll(items, Dead(st, cap), st.claims, st.now).0 ==
        if FirstTaken(st, cap, items[0]) then [items[0]] + rest else rest
  {
    assert Dead(AfterFirst(st, cap, items[0]), cap) == Dead(st, cap);
    WhoIsDead(st, cap, items[0].to);
  }

  lemma {:induction false} ClaimingAt(st: Post, cap: int, items: seq<Outgoing>) returns (at: seq<nat>)
    ensures ClaimedAt(st, cap, items, ClaimAll(items, Dead(st, cap), st.claims, st.now).0, at)
    decreases |items|
  {
    if items == [] {
      at := [];
    } else {
      var after := AfterFirst(st, cap, items[0]);
      ClaimingOne(st, cap, items);
      var later := ClaimingAt(after, cap, items[1..]);
      var placed := ClaimAll(items[1..], Dead(after, cap), after.claims, after.now).0;
      TakenLater(st, cap, items, placed, later);
      AllTakenLater(st, cap, items, later);
      at := Shifted(later);
      if FirstTaken(st, cap, items[0]) {
        FirstToo(st, cap, items, placed, at);
        at := [0] + at;
      }
    }
  }

  lemma OnlyClaimedIsOffered(st: Post, items: seq<Outgoing>, chain: seq<Provider>, cap: int, at: seq<nat>)
    requires ValidChain(chain) && ClaimedAt(st, cap, items, Batch(st, items, chain, cap).claimed, at)
    ensures var o := Batch(st, items, chain, cap);
      forall i, x :: |st.offers| <= i < |o.post.offers| && x in o.post.offers[i].items ==>
        x in o.claimed && MayMail(st, cap, x.to)
  {
    BatchNeverReoffers(st, items, chain, cap);
    var o := Batch(st, items, chain, cap);
    forall i, x | |st.offers| <= i < |o.post.offers| && x in o.post.offers[i].items
      ensures x in o.claimed && MayMail(st, cap, x.to)
    {
      assert o.post.offers[|st.offers|..][i - |st.offers|] == o.post.offers[i] && x in Elements(o.claimed);
      var j :| 0 <= j < |o.claimed| && o.claimed[j] == x;
      assert FirstAt(st, cap, items, at[j]);
    }
  }

  lemma GivenUp(st: Post, items: seq<Outgoing>, cap: int, k: Key)
    ensures k in (set x | x in items && x.to in Dead(st, cap) :: x.key) <==>
              exists x :: x in items && x.key == k && !MayMail(st, cap, x.to)
  {
    forall a ensures a in Dead(st, cap) <==> !MayMail(st, cap, a) {
      WhoIsDead(st, cap, a);
    }
  }

  /** Which mail a batch claims: in the order of the list, for every key that nobody has
      sent or is sending, the first mail to an address that is neither suppressed nor has
      failed too often. Nothing else is ever offered to a provider, and mail to the other
      addresses is reported undeliverable, together with what was finally refused. */
  lemma WhichMailIsClaimed(st: Post, items: seq<Outgoing>, chain: seq<Provider>, cap: int) returns (at: seq<nat>)
    requires ValidChain(chain)
    ensures ClaimedAt(st, cap, items, Batch(st, items, chain, cap).claimed, at)
    ensures var o := Batch(st, items, chain, cap);
      && (forall i, x :: |st.offers| <= i < |o.post.offers| && x in o.post.offers[i].items ==>
            x in o.claimed && MayMail(st, cap, x.to))
      && (forall k :: k in o.Undeliverable() <==>
            (exists x :: x in items && x.key == k && !MayMail(st, cap, x.to)) || k in Keys(o.refused))
  {
    at := ClaimingAt(st, cap, items);
    OnlyClaimedIsOffered(st, items, chain, cap, at);
    var o := Batch(st, items, chain, cap);
    forall k
      ensures k in o.dead <==> exists x :: x in items && x.key == k && !MayMail(st, cap, x.to)
    {
      GivenUp(st, items, cap, k);
    }
  }

  // ---------------------------------------------------------------------
  // What a batch records

  function Elapsed(calls: seq<Offer>): nat {
    if calls == [] then 0 else Elapsed(calls[..|calls| - 1]) + calls[|calls| - 1].answer.elapsed
  }

  lemma {:induction false} ElapsedAppend(a: seq<Offer>, b: seq<Offer>)
    ensures Elapsed(a + b) == Elapsed(a) + Elapsed(b)
  {
    if b == [] {
      assert a + b == a;
    } else {
      ElapsedAppend(a, b[..|b| - 1]);
      assert (a + b)[..|a + b| - 1] == a + b[..|b| - 1];
    }
  }

  predicate Took(d: Delivery) {
    d.elapsed == Elapsed(d.offers)
  }

  lemma OneTakes(o: Offer, d: Delivery)
    requires d.offers == [o] && d.elapsed == o.answer.elapsed
    ensures Took(d)
  {
    assert [o][..0] == [];
  }

  lemma HalvesTake(o: Offer, left: Delivery, right: Delivery, d: Delivery)
    requires Took(left) && Took(right) && d.offers == [o] + left.offers + right.offers
    requires d.elapsed == o.answer.elapsed + left.elapsed + right.elapsed
    ensures Took(d)
  {
    assert [o][..0] == [];
    ElapsedAppend([o], left.offers);
    ElapsedAppend([o] + left.offers, right.offers);
  }

  lemma {:induction false} DeliverTakes(p: Provider, n: nat, chunk: seq<Outgoing>)
    requires chunk != []
    ensures Took(Deliver(p, n, chunk))
    decreases |chunk|
  {
    var a := p.relay(n, chunk);
    var o := Offer(p.name, chunk, a);
    if Graded(chunk, a) || Ok(a.status) || !ContentRejected(a.status) || |chunk| == 1 {
      OneTakes(o, Deliver(p, n, chunk));
    } else {
      var mid := |chunk| / 2;
      var left := Deliver(p, n + 1, chunk[..mid]);
      DeliverTakes(p, n + 1, chunk[..mid]);
      if left.unusable {
        var none := Delivery([], [], true, [], 0);
        assert [o] + left.offers + [] == [o] + left.offers;
        HalvesTake(o, left, none, Deliver(p, n, chunk));
      } else {
        DeliverTakes(p, n + 1 + |left.offers|, chunk[mid..]);
        HalvesTake(o, left, Deliver(p, n + 1 + |left.offers|, chunk[mid..]), Deliver(p, n, chunk));
      }
    }
  }

  /** The mail's row is stamped with the provider that accepted it in the i-th of the
      calls, at the time the first n were answered. */
  predicate StampedAfter(start: int, calls: seq<Offer>, claims: Claims, x: Outgoing, i: nat, n: nat) {
    && i < n <= |calls| && x in Accepted(calls[i]) && x.key in claims
    && claims[x.key] == Row(By(calls[i].provider), start + Elapsed(calls[..n]))
  }

  ghost predicate StampedByCall(start: int, calls: seq<Offer>, claims: Claims, x: Outgoing) {
    exists i: nat, n: nat :: StampedAfter(start, calls, claims, x, i, n)
  }

  lemma OldStampStays(start: int, calls: seq<Offer>, before: Claims, more: seq<Offer>, after: Claims, x: Outgoing)
    requires StampedByCall(start, calls, before, x) && x.key in after
    requires x.key in before ==> after[x.key] == before[x.key]
    ensures StampedByCall(start, calls + more, after, x)
  {
    var i: nat, n: nat :| StampedAfter(start, calls, before, x, i, n);
    assert (calls + more)[..n] == calls[..n] && (calls + more)[i] == calls[i];
    assert StampedAfter(start, calls + more, after, x, i, n);
  }

  lemma NewStamp(start: int, calls: seq<Offer>, more: seq<Offer>, after: Claims, x: Outgoing, name: string)
    requires x in AcceptedIn(more) && (forall o :: o in more ==> o.provider == name) && x.key in after
    requires after[x.key] == Row(By(name), start + Elapsed(calls + more))
    ensures StampedByCall(start, calls + more, after, x)
  {
    var o :| o in more && x in Accepted(o);
    var j :| 0 <= j < |more| && more[j] == o;
    var all := calls + more;
    assert all[..|all|] == all && all[|calls| + j] == o;
    assert StampedAfter(start, all, after, x, |calls| + j, |all|);
  }

  ghost predicate AllStamped(start: int, calls: seq<Offer>, claims: Claims, sent: seq<Outgoing>) {
    forall x :: x in sent ==> StampedByCall(start, calls, claims, x)
  }

  lemma StampMore(start: int, calls: seq<Offer>, before: Claims, sent: seq<Outgoing>, name: string, d: Delivery,
                  all: seq<Offer>, at: int, after: Claims, delivered: seq<Outgoing>)
    requires AllStamped(start, calls, before, sent)
    requires all == calls + d.offers && delivered == sent + d.sent
    requires at == start + Elapsed(all) && after == StampAll(before, Keys(d.sent), name, at)
    requires AcceptedIn(d.offers) == Elements(d.sent) && forall o :: o in d.offers ==> o.provider == name
    requires Keys(d.sent) !! Keys(sent)
    requires forall x :: x in sent || x in d.sent ==> x.key in before
    ensures AllStamped(start, all, after, delivered)
  {
    forall x | x in delivered ensures StampedByCall(start, all, after, x) {
      if x in d.sent {
        assert x in Elements(d.sent);
        NewStamp(start, calls, d.offers, after, x, name);
      } else {
        assert x.key in Keys(sent);
        OldStampStays(start, calls, before, d.offers, after, x);
      }
    }
  }

  /** The calls of a batch so far. */
  function Calls(st: Post, post: Post): seq<Offer> {
    if |st.offers| <= |post.offers| then post.offers[|st.offers|..] else []
  }

  /** The tables while a batch runs: the clock is that of its calls, and whoever was sent
      a mail has no failures left. */
  ghost predicate Counting(st: Post, g: Progress) {
    && st.offers <= g.post.offers
    && g.post.now == st.now + Elapsed(Calls(st, g.post))
    && g.post.failures == st.failures - Recipients(g.sent)
    && g.post.suppressed == st.suppressed && g.post.deferrals == st.deferrals
  }

  /** And sent mail is stamped by the call that sent it. */
  ghost predicate Recording(st: Post, g: Progress) {
    Counting(st, g) && AllStamped(st.now, Calls(st, g.post), g.post.claims, g.sent)
  }

  lemma RecipientsAppend(a: seq<Outgoing>, b: seq<Outgoing>)
    ensures Recipients(a + b) == Recipients(a) + Recipients(b)
  {
    forall r | r in Recipients(a) + Recipients(b) ensures r in Recipients(a + b) {
      var x :| (x in a || x in b) && x.to == r;
      assert x in a + b;
    }
  }

  /** What one call delivers: its own items' rows are there to be stamped, and are not
      those of mail sent before. */
  ghost predicate CallFacts(g: Progress, p: Provider, d: Delivery) {
    && Took(d) && AcceptedIn(d.offers) == Elements(d.sent)
    && (forall o :: o in d.offers ==> o.provider == p.name)
    && Keys(d.sent) !! Keys(g.sent) && forall x :: x in g.sent || x in d.sent ==> x.key in g.post.claims
  }

  lemma AllCallsAreSuch(st: Post, claimed: seq<Outgoing>, g: Progress, p: Provider, room: int)
    requires p.batchSize > 0 && room > 0 && g.remaining != [] && Sound(st, claimed, g)
    ensures CallFacts(g, p, Deliver(p, |g.post.offers|, NextChunk(p, room, g.remaining)))
  {
    var chunk := NextChunk(p, room, g.remaining);
    var d := Deliver(p, |g.post.offers|, chunk);
    PartsApart(g.sent + g.refused, g.remaining);
    DeliverTakes(p, |g.post.offers|, chunk);
    DeliverRejects(p, |g.post.offers|, chunk);
    CallIsLogged(p, |g.post.offers|, room, g.remaining);
    var h := CallSplits(p, |g.post.offers|, room, g.remaining, d);
    CallKeys(claimed, g, d, p, h);
    forall x | x in g.sent || x in d.sent ensures x.key in g.post.claims {
      assert x in g.sent ==> SentRow(st, g.post, x.key);
      assert x in d.sent ==> PendingRow(g.post, x.key);
    }
  }

  lemma ClearTwice(failures: map<Address, nat>, a: set<Address>, b: set<Address>)
    ensures failures - a - b == failures - (a + b)
  {
  }

  lemma CallsMore(st: Post, before: Post, after: Post, more: seq<Offer>)
    requires st.offers <= before.offers && after.offers == before.offers + more
    ensures st.offers <= after.offers && Calls(st, after) == Calls(st, before) + more
    ensures Elapsed(Calls(st, after)) == Elapsed(Calls(st, before)) + Elapsed(more)
  {
    ElapsedAppend(Calls(st, before), more);
  }

  lemma AbsorbCounts(st: Post, g: Progress, p: Provider, d: Delivery)
    requires Counting(st, g) && Took(d)
    ensures Counting(st, Absorb(p, g, d))
    ensures Calls(st, Absorb(p, g, d).post) == Calls(st, g.post) + d.offers
  {
    var after := Absorb(p, g, d);
    CallsMore(st, g.post, after.post, d.offers);
    RecipientsAppend(g.sent, d.sent);
    ClearTwice(st.failures, Recipients(g.sent), Recipients(d.sent));
  }

  lemma AbsorbRecords(st: Post, g: Progress, p: Provider, d: Delivery)
    requires Recording(st, g) && CallFacts(g, p, d)
    ensures Recording(st, Absorb(p, g, d))
  {
    var after := Absorb(p, g, d);
    AbsorbCounts(st, g, p, d);
    StampMore(st.now, Calls(st, g.post), g.post.claims, g.sent, p.name, d, Calls(st, after.post), after.post.now,
              after.post.claims, after.sent);
  }

  lemma TurnRecords(st: Post, claimed: seq<Outgoing>, p: Provider, room: int, g: Progress)
    requires p.batchSize > 0 && Sound(st, claimed, g) && Recording(st, g)
    ensures Recording(st, Turn(p, room, g))
  {
    var inv := (left: int, h: Progress) => Sound(st, claimed, h) && Recording(st, h);
    forall left, h: Progress | left > 0 && h.remaining != [] && inv(left, h)
      ensures var d := Deliver(p, |h.post.offers|, NextChunk(p, left, h.remaining));
        inv(left - |d.sent|, Absorb(p, h, d))
    {
      AbsorbKeepsSound(st, claimed, h, p, left);
      AllCallsAreSuch(st, claimed, h, p, left);
      AbsorbRecords(st, h, p, Deliver(p, |h.post.offers|, NextChunk(p, left, h.remaining)));
    }
    var left := TurnInduction(p, room, g, inv);
  }

  lemma {:induction false} ChainRecords(st: Post, claimed: seq<Outgoing>, chain: seq<Provider>, g: Progress)
    requires ValidChain(chain) && Sound(st, claimed, g) && Recording(st, g)
    ensures Recording(st, Chain(chain, g))
    decreases |chain|
  {
    RefoldKeepsSound(st, claimed, g);
    if chain != [] && Refold(g).remaining != [] {
      var p := chain[0];
      TurnRecords(st, claimed, p, Room(g.post.claims, p.name, p.limits, g.post.now), Refold(g));
      ProviderTurnKeepsSound(st, claimed, p, g);
      ChainRecords(st, claimed, chain[1..], ProviderTurn(p, g));
    }
  }

  /** The failures counted against an address. */
  function Failed(failures: map<Address, nat>, a: Address): nat {
    if a in failures then failures[a] else 0
  }

  function Addresses(items: seq<Outgoing>): (r: seq<Address>)
    ensures |r| == |items| && forall i :: 0 <= i < |r| ==> r[i] == items[i].to
  {
    seq(|items|, i requires 0 <= i < |items| => items[i].to)
  }

  lemma {:induction false} Strikes(failures: map<Address, nat>, refused: seq<Outgoing>, a: Address)
    ensures Failed(Strike(failures, refused), a) == Failed(failures, a) + multiset(Addresses(refused))[a]
    decreases |refused|
  {
    if refused != [] {
      var b, rest := refused[0].to, refused[1..];
      Strikes(failures[b := 1 + if b in failures then failures[b] else 0], rest, a);
      assert Addresses(refused) == [b] + Addresses(rest);
    }
  }

  lemma BatchRecording(st: Post, items: seq<Outgoing>, chain: seq<Provider>, cap: int)
    requires ValidChain(chain)
    ensures Recording(st, Chain(chain, Start(st, items, cap)))
  {
    var start := Start(st, items, cap);
    StartIsSound(st, items, cap);
    assert Calls(st, start.post) == [] && Recipients([]) == {};
    ChainRecords(st, start.remaining, chain, start);
  }

  /** What a batch records. Every delivered mail is stamped with the provider that accepted
      it, at a time its calls had come to by then. A delivery clears what was counted
      against its address before, and every mail finally refused counts one failure; mail
      left waiting is counted as deferred; and nothing is taken off the suppressed. */
  lemma WhatABatchRecords(st: Post, items: seq<Outgoing>, chain: seq<Provider>, cap: int)
    requires ValidChain(chain)
    ensures var o := Batch(st, items, chain, cap);
      && st.offers <= o.post.offers && o.post.now == st.now + Elapsed(Calls(st, o.post))
      && o.post.deferrals == st.deferrals + |o.deferred| && o.post.suppressed == st.suppressed
    ensures var o := Batch(st, items, chain, cap);
      AllStamped(st.now, Calls(st, o.post), o.post.claims, o.sent)
    ensures var o := Batch(st, items, chain, cap);
      forall a :: Failed(o.post.failures, a) ==
        (if exists x :: x in o.sent && x.to == a then 0 else Failed(st.failures, a))
          + multiset(Addresses(o.refused))[a]
  {
    var o, end := Batch(st, items, chain, cap), Chain(chain, Start(st, items, cap));
    BatchRecording(st, items, chain, cap);
    BatchConserves(st, items, chain, cap);
    forall x | x in o.sent ensures StampedByCall(st.now, Calls(st, o.post), o.post.claims, x) {
      SettlingKeepsStamp(st, end, x);
    }
    forall a
      ensures Failed(o.post.failures, a) ==
        (if exists x :: x in o.sent && x.to == a then 0 else Failed(st.failures, a))
          + multiset(Addresses(o.refused))[a]
    {
      Strikes(end.post.failures, end.refused, a);
    }
  }

  lemma SettlingKeepsStamp(st: Post, end: Progress, x: Outgoing)
    requires Recording(st, end) && x in end.sent
    requires Keys(end.sent) !! Keys(end.refused) !! Keys(end.remaining)
    ensures StampedByCall(st.now, Calls(st, Settle(end)), Settle(end).claims, x)
  {
    var calls := Calls(st, end.post);
    assert x.key in Keys(end.sent) && StampedByCall(st.now, calls, end.post.claims, x);
    OldStampStays(st.now, calls, end.post.claims, [], Settle(end).claims, x);
    assert calls + [] == calls;
  }

  // ---------------------------------------------------------------------
  // Why mail is left waiting

  function SentWithin(claims: Claims, name: string, window: nat, now: int): set<Key> {
    set k | k in claims && claims[k].stamp == By(name) && now - claims[k].at < window
  }

  /** A provider has the room of its tightest window: the limit less the mails it sent
      within the window; none without any limit. */
  lemma {:induction false} RoomIsTheTightestWindow(claims: Claims, name: string, limits: seq<Limit>, now: int)
    ensures limits == [] ==> Room(claims, name, limits, now) == 0
    ensures forall l :: l in limits ==>
              Room(claims, name, limits, now) <= Max(0, l.max - |SentWithin(claims, name, l.window, now)|)
    ensures limits != [] ==>
              exists l :: l in limits
                && Room(claims, name, limits, now) == Max(0, l.max - |SentWithin(claims, name, l.window, now)|)
  {
    if limits != [] {
      var l := limits[0];
      assert StampedWithin(claims, name, l.window, now) == SentWithin(claims, name, l.window, now);
      RoomIsTheTightestWindow(claims, name, limits[1..], now);
      if |limits| > 1 && Tightest(claims, name, limits, now) != l.max - Used(claims, name, l.window, now) {
        var m :| m in limits[1..]
          && Room(claims, name, limits[1..], now) == Max(0, m.max - |SentWithin(claims, name, m.window, now)|);
        assert m in limits;
      }
      forall m | m in limits
        ensures Room(claims, name, limits, now) <= Max(0, m.max - |SentWithin(claims, name, m.window, now)|)
      {
        assert m == l || m in limits[1..];
      }
    }
  }

  /** The call neither graded each message nor succeeded nor was rejected for its content. */
  predicate CallFailed(o: Offer) {
    var a := o.answer;
    && !(a.verdicts.Some? && |a.verdicts.value| == |o.items|)
    && (a.status.None? || !(200 <= a.status.value < 300 || a.status.value == 400 || a.status.value == 422))
  }

  /** The last of the calls failed. */
  predicate Fails(calls: seq<Offer>) {
    calls != [] && CallFailed(calls[|calls| - 1])
  }

  /** None before it did, and no call offered more than `size` mails. */
  ghost predicate Proper(calls: seq<Offer>, size: nat) {
    && (forall i :: 0 <= i < |calls| - 1 ==> !CallFailed(calls[i]))
    && forall i :: 0 <= i < |calls| ==> |calls[i].items| <= size
  }

  lemma ProperAppend(a: seq<Offer>, b: seq<Offer>, size: nat)
    requires Proper(a, size) && Proper(b, size) && !Fails(a)
    ensures Proper(a + b, size) && Fails(a + b) == Fails(b)
  {
    var ab := a + b;
    forall i | 0 <= i < |ab| ensures |ab[i].items| <= size && (i < |ab| - 1 ==> !CallFailed(ab[i])) {
      assert ab[i] == if i < |a| then a[i] else b[i - |a|];
    }
  }

  ghost predicate EndsByFailure(d: Delivery, size: nat) {
    Proper(d.offers, size) && (d.unusable <==> Fails(d.offers))
  }

  lemma OneCallFails(o: Offer, d: Delivery, size: nat)
    requires d.offers == [o] && d.unusable == CallFailed(o) && |o.items| <= size
    ensures EndsByFailure(d, size)
  {
  }

  lemma LeftFails(o: Offer, left: Delivery, d: Delivery, size: nat)
    requires !CallFailed(o) && |o.items| <= size && EndsByFailure(left, size) && left.unusable && d.unusable
    requires d.offers == [o] + left.offers
    ensures EndsByFailure(d, size)
  {
    assert Proper([o], size) && !Fails([o]);
    ProperAppend([o], left.offers, size);
  }

  lemma HalvesFail(o: Offer, left: Delivery, right: Delivery, d: Delivery, size: nat)
    requires !CallFailed(o) && |o.items| <= size && EndsByFailure(left, size) && EndsByFailure(right, size)
    requires !left.unusable && d.unusable == right.unusable && d.offers == [o] + left.offers + right.offers
    ensures EndsByFailure(d, size)
  {
    assert Proper([o], size) && !Fails([o]);
    ProperAppend([o], left.offers, size);
    ProperAppend([o] + left.offers, right.offers, size);
  }

  lemma {:induction false} DeliverFails(p: Provider, n: nat, chunk: seq<Outgoing>, size: nat)
    requires chunk != [] && |chunk| <= size
    ensures EndsByFailure(Deliver(p, n, chunk), size)
    decreases |chunk|
  {
    var a := p.relay(n, chunk);
    var o := Offer(p.name, chunk, a);
    if Graded(chunk, a) || Ok(a.status) || !ContentRejected(a.status) || |chunk| == 1 {
      OneCallFails(o, Deliver(p, n, chunk), size);
    } else {
      var mid := |chunk| / 2;
      var left := Deliver(p, n + 1, chunk[..mid]);
      DeliverFails(p, n + 1, chunk[..mid], size);
      if left.unusable {
        LeftFails(o, left, Deliver(p, n, chunk), size);
      } else {
        DeliverFails(p, n + 1 + |left.offers|, chunk[mid..], size);
        HalvesFail(o, left, Deliver(p, n + 1 + |left.offers|, chunk[mid..]), Deliver(p, n, chunk), size);
      }
    }
  }

  /** A turn goes on: what it sent came off its room, and no call failed. */
  ghost predicate TurnSoFar(p: Provider, room: nat, g: Progress, left: int, h: Progress) {
    && g.post.offers <= h.post.offers && left == room - (|h.sent| - |g.sent|) >= 0
    && Proper(CallsSince(g, h), p.batchSize) && !Fails(CallsSince(g, h)) && h.unusable == g.unusable
  }

  /** Where a turn ends: its last call failed, which the provider is noted for, or else
      nothing is left or its room is spent to the last mail. */
  ghost predicate TurnOver(p: Provider, room: nat, g: Progress, h: Progress) {
    && g.post.offers <= h.post.offers && |h.sent| - |g.sent| <= room
    && Proper(CallsSince(g, h), p.batchSize)
    && (Fails(CallsSince(g, h)) || h.remaining == [] || |h.sent| - |g.sent| == room)
    && h.unusable == g.unusable + if Fails(CallsSince(g, h)) then {p.name} else {}
  }

  lemma CallOfATurn(p: Provider, room: nat, g: Progress, left: int, h: Progress)
    requires p.batchSize > 0 && left > 0 && h.remaining != [] && TurnSoFar(p, room, g, left, h)
    ensures var d := Deliver(p, |h.post.offers|, NextChunk(p, left, h.remaining));
      if d.unusable then TurnOver(p, room, g, Absorb(p, h, d))
      else TurnSoFar(p, room, g, left - |d.sent|, Absorb(p, h, d))
  {
    var chunk := NextChunk(p, left, h.remaining);
    var d := Deliver(p, |h.post.offers|, chunk);
    SentFits(p, |h.post.offers|, chunk);
    DeliverFails(p, |h.post.offers|, chunk, p.batchSize);
    ProperAppend(CallsSince(g, h), d.offers, p.batchSize);
    assert CallsSince(g, Absorb(p, h, d)) == CallsSince(g, h) + d.offers;
  }

  lemma TurnEndsOver(p: Provider, room: nat, g: Progress)
    requires p.batchSize > 0
    ensures TurnOver(p, room, g, Turn(p, room, g))
  {
    var inv := (left: int, h: Progress) => TurnSoFar(p, room, g, left, h);
    var end := (h: Progress) => TurnOver(p, room, g, h);
    forall left, h: Progress | left > 0 && h.remaining != [] && inv(left, h)
      ensures var d := Deliver(p, |h.post.offers|, NextChunk(p, left, h.remaining));
        if d.unusable then end(Absorb(p, h, d)) else inv(left - |d.sent|, Absorb(p, h, d))
    {
      CallOfATurn(p, room, g, left, h);
    }
    assert CallsSince(g, g) == [];
    TurnLeads(p, room, g, inv, end);
  }

  /** The calls of the i-th provider's turn, and the mail they delivered. */
  function TurnCalls(chain: seq<Provider>, i: nat, g: Progress): seq<Offer>
    requires ValidChain(chain) && i < |chain|
  {
    CallsSince(Before(chain, i, g), AfterCalls(chain, i, g))
  }

  lemma TurnOfAChain(chain: seq<Provider>, i: nat, g: Progress)
    requires ValidChain(chain) && i < |chain|
    ensures var b := Before(chain, i, g);
      TurnOver(chain[i], Room(b.post.claims, chain[i].name, chain[i].limits, b.post.now), b, AfterCalls(chain, i, g))
  {
    var b := Before(chain, i, g);
    var room := Room(b.post.claims, chain[i].name, chain[i].limits, b.post.now);
    TurnEndsOver(chain[i], room, b);
  }

  /** The i-th provider's turn came to nothing: its last call failed, or it rejected three
      mails or more and none was ever delivered under its name. */
  predicate CameToNothing(chain: seq<Provider>, i: nat, g: Progress)
    requires ValidChain(chain) && i < |chain|
  {
    var after := AfterCalls(chain, i, g);
    || Fails(TurnCalls(chain, i, g))
    || (|after.refused| >= 3 && (chain[i].name in after.sentBy ==> after.sentBy[chain[i].name] == 0))
  }

  lemma TurnNotesItself(chain: seq<Provider>, i: nat, g: Progress)
    requires ValidChain(chain) && i < |chain|
    ensures var b := Before(chain, i, g);
      (if b.remaining == [] then b else ProviderTurn(chain[i], Chain(chain[..i], g))).unusable
      == Chain(chain[..i], g).unusable + if CameToNothing(chain, i, g) then {chain[i].name} else {}
  {
    TurnOfAChain(chain, i, g);
    var b := Before(chain, i, g);
    if b.remaining == [] {
      assert AfterCalls(chain, i, g) == b && TurnCalls(chain, i, g) == [];
    }
  }

  /** Which providers are noted as unusable by the end of the chain: those with a turn that
      came to nothing. */
  lemma {:induction false} WhichProvidersFailed(chain: seq<Provider>, g: Progress, name: string)
    requires ValidChain(chain)
    ensures name in Chain(chain, g).unusable <==>
              || name in g.unusable
              || exists i :: 0 <= i < |chain| && chain[i].name == name && CameToNothing(chain, i, g)
    decreases |chain|
  {
    if chain != [] {
      var last := |chain| - 1;
      var front := chain[..last];
      WhichProvidersFailed(front, g, name);
      TurnNotesItself(chain, last, g);
      ChainFrom(chain, last, g);
      assert chain[last + 1..] == [];
      forall i | 0 <= i < last ensures CameToNothing(front, i, g) == CameToNothing(chain, i, g) {
        assert front[..i] == chain[..i] && front[i] == chain[i];
      }
    }
  }

  lemma TurnsSent(chain: seq<Provider>, i: nat, g: Progress)
    requires ValidChain(chain) && i < |chain| && Chain(chain, g).remaining != []
    ensures Before(chain, i, g).remaining != [] && AfterCalls(chain, i, g).sent <= Chain(chain, g).sent
  {
    ChainFrom(chain, i, g);
    SentStays(chain[i + 1..], ProviderTurn(chain[i], Chain(chain[..i], g)));
  }

  lemma DeferredIsUnsent(st: Post, claimed: seq<Outgoing>, g: Progress, x: Outgoing)
    requires Sound(st, claimed, g) && x in g.remaining
    ensures x in claimed && x !in g.sent && x !in g.refused
  {
    PartsApart(g.sent + g.refused, g.remaining);
    assert x.key in Keys(g.remaining);
    assert x in g.sent || x in g.refused ==> x in g.sent + g.refused && x.key in Keys(g.sent + g.refused);
    SameItems(All(g), claimed);
    assert x in Elements(All(g));
  }

  lemma TurnCounts(p: Provider, room: int, g: Progress)
    requires p.batchSize > 0
    ensures var t := Turn(p, room, g);
      SentBy(t.sentBy, p.name) - SentBy(g.sentBy, p.name) == |t.sent| - |g.sent|
  {
    var inv := (left: int, h: Progress) =>
      SentBy(h.sentBy, p.name) - SentBy(g.sentBy, p.name) == |h.sent| - |g.sent|;
    var left := TurnInduction(p, room, g, inv);
  }

  lemma LastRejection(st: Post, claimed: seq<Outgoing>, chain: seq<Provider>, g: Progress, x: Outgoing)
    requires ValidChain(chain) && chain != [] && Sound(st, claimed, g) && x in Chain(chain, g).remaining
    requires x in RejectedByTurn(chain, |chain| - 1, g)
    ensures var last := |chain| - 1; var b, after := Before(chain, last, g), AfterCalls(chain, last, g);
      |after.refused| >= 3 && after.sent == b.sent
  {
    var last := |chain| - 1;
    var b, after, end := Before(chain, last, g), AfterCalls(chain, last, g), Chain(chain, g);
    LastTurn(chain, g);
    TurnsSent(chain, last, g);
    TurnIsSound(st, claimed, chain, last, g);
    ChainKeepsSound(st, claimed, chain, g);
    DeferredIsUnsent(st, claimed, end, x);
    assert x in after.refused;
    TurnCounts(chain[last], Room(b.post.claims, chain[last].name, chain[last].limits, b.post.now), b);
    assert after.sent[..|b.sent|] == b.sent;
  }

  /** Why a mail is left waiting: every provider of the chain rejected it in a call of its
      turn, or ended its turn with a failed call, or delivered all that its windows had
      room for. If the last provider rejected it, that was one of three rejections at
      least with nothing delivered, which are not believed. */
  lemma WhyAMailWaits(st: Post, items: seq<Outgoing>, chain: seq<Provider>, cap: int, i: nat, x: Outgoing)
    requires ValidChain(chain) && i < |chain| && x in Batch(st, items, chain, cap).deferred
    ensures var start := Start(st, items, cap); var b, after := Before(chain, i, start), AfterCalls(chain, i, start);
      || x in RejectedByTurn(chain, i, start)
      || Fails(TurnCalls(chain, i, start))
      || |after.sent| - |b.sent| == Room(b.post.claims, chain[i].name, chain[i].limits, b.post.now)
    ensures var start := Start(st, items, cap); var b, after := Before(chain, i, start), AfterCalls(chain, i, start);
      i == |chain| - 1 && x in RejectedByTurn(chain, i, start) ==> |after.refused| >= 3 && after.sent == b.sent
  {
    var start := Start(st, items, cap);
    StartIsSound(st, items, cap);
    ChainKeepsSound(st, start.remaining, chain, start);
    DeferredIsUnsent(st, start.remaining, Chain(chain, start), x);
    TurnsSent(chain, i, start);
    TurnIsSound(st, start.remaining, chain, i, start);
    TurnOfAChain(chain, i, start);
    LeftOrRefused(st, start.remaining, AfterCalls(chain, i, start), x);
    if i == |chain| - 1 && x in RejectedByTurn(chain, i, start) {
      LastRejection(st, start.remaining, chain, start, x);
    }
  }

  lemma TurnStarts(p: Provider, room: int, g: Progress, log: seq<Offer>)
    requires p.batchSize > 0 && room > 0 && g.remaining != []
    requires log == g.post.offers + NextCall(p, room, g).offers
    ensures log <= Turn(p, room, g).post.offers
  {
    var inv := (left: int, h: Progress) => (left == room && h == g) || log <= h.post.offers;
    var end := (h: Progress) => log <= h.post.offers;
    TurnLeads(p, room, g, inv, end);
  }

  /** Mail is packed: a provider with room is asked, and first offered the head of what is
      left, as much as its batch size and its room allow. */
  lemma AProviderWithRoomIsAsked(chain: seq<Provider>, i: nat, g: Progress)
    requires ValidChain(chain) && i < |chain|
    ensures var b := Before(chain, i, g);
      var room := Room(b.post.claims, chain[i].name, chain[i].limits, b.post.now);
      if b.remaining == [] || room == 0 then TurnCalls(chain, i, g) == []
      else
        && TurnCalls(chain, i, g) != []
        && TurnCalls(chain, i, g)[0].items == b.remaining[..Min(chain[i].batchSize, Min(room, |b.remaining|))]
  {
    var b := Before(chain, i, g);
    var p, room := chain[i], Room(b.post.claims, chain[i].name, chain[i].limits, b.post.now);
    if b.remaining != [] && room > 0 {
      var d := NextCall(p, room, b);
      TurnStarts(p, room, b, b.post.offers + d.offers);
      assert d.offers[0].items == NextChunk(p, room, b.remaining);
      assert AfterCalls(chain, i, g).post.offers[|b.post.offers|] == (b.post.offers + d.offers)[|b.post.offers|];
    }
  }
}
