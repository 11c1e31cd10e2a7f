/** What the app's requests achieve (app/api.py). */
module DeviceCredentials {
  import opened Common
  import opened Devices
  import opened DeviceProtocol

  // Said of the rows' fields: which codes count and what they do, how a phone proves itself,
  // and who may hold a token.

  // ---------------------------------------------------------------------
  // A posted code

  /** Which codes count: the one on the row, younger than a day, posted with the main
      secret or with the pending secret that still waits there. */
  predicate CodeCounts(w: World, req: nat, code: Code) {
    && req in w.requests && w.requests[req].id in w.rows
    && var q, r := w.requests[req], w.rows[w.requests[req].id];
    && r.code == Some(code) && r.codeAt.Some? && w.now - r.codeAt.value < 86400
    && (q.pending.Some? ==> r.pending == Some(q.secret))
  }

  /** In any run a posted code that counts verifies the device, and is used up with every
      pending secret. Posted with the pending secret it makes that the main one, and the
      device verified as of now; posted with the main one it leaves the secret and an
      earlier verification as they were. Nothing else changes, and a code that does not
      count changes nothing. */
  lemma WhatAPostedCodeDoes(events: seq<Event>, req: nat, code: Code)
    ensures var w := Run(EMPTY, events); CodeAccepted(w, req, code) <==> CodeCounts(w, req, code)
    ensures var w := Run(EMPTY, events); !CodeCounts(w, req, code) ==> Step(w, PostCode(req, code)) == w
    ensures var w := Run(EMPTY, events); CodeCounts(w, req, code) ==>
      var after, q := Step(w, PostCode(req, code)), w.requests[req];
      && q.id in after.rows
      && var r, s := w.rows[q.id], after.rows[q.id];
      && s.verifiedAt.Some? && s.code.None? && s.pending.None?
      && s.secret == (if q.pending.Some? then q.secret else r.secret)
      && (s.secret == q.secret <==> q.pending.Some? || r.secret == q.secret)
      && s.verifiedAt.value == (if q.pending.None? && r.verifiedAt.Some? then r.verifiedAt.value else w.now)
      && s == r.(secret := s.secret, verifiedAt := s.verifiedAt, code := None, pending := None)
      && after == w.(rows := w.rows[q.id := s])
  {
    RunKeepsInv(EMPTY, events);
  }

  // ---------------------------------------------------------------------
  // One row per phone

  /** No two rows hold one token. */
  ghost predicate OneHolder(w: World) {
    && (forall i, j :: i in w.rows && j in w.rows && i != j ==>
          w.rows[i].platform != w.rows[j].platform || w.rows[i].token != w.rows[j].token)
    && forall i :: i in w.rows ==> i < w.nextId
  }

  lemma SetKeepsOneHolder(w: World, id: Id, r: Row)
    requires OneHolder(w) && id in w.rows
    requires Holds(w.rows[id], r.platform, r.token) || Free(w, r.platform, r.token, id)
    ensures OneHolder(Set(w, id, r))
  {
    var after := Set(w, id, r);
    forall i, j | i in after.rows && j in after.rows && i != j
      ensures !Holds(after.rows[i], after.rows[j].platform, after.rows[j].token)
    {
      assert i != id ==> after.rows[i] == w.rows[i];
      assert j != id ==> after.rows[j] == w.rows[j];
    }
  }

  lemma RegisterKeepsOneHolder(w: World, platform: Platform, token: Token, secret: Secret)
    requires OneHolder(w)
    ensures OneHolder(Registered(w, platform, token, secret))
  {
    var holder := Holder(w, platform, token);
    if holder.Some? {
      SetKeepsOneHolder(w, holder.value, Reregistered(w.rows[holder.value], secret, w.now));
    }
  }

  lemma SenderKeepsOneHolder(w: World, e: Event)
    requires OneHolder(w) && (FromSender(e) || e.Mark?)
    ensures OneHolder(SenderStep(w, e))
  {
  }

  lemma StepKeepsOneHolder(w: World, e: Event)
    requires OneHolder(w)
    ensures OneHolder(Step(w, e))
  {
    if FromSender(e) || e.Mark? {
      SenderKeepsOneHolder(w, e);
    } else if e.Register? {
      RegisterKeepsOneHolder(w, e.platform, e.token, e.secret);
    } else if FromRequest(e) && Reaches(w, e.req) {
      var q, r := w.requests[e.req], w.rows[w.requests[e.req].id];
      match e
      case ChangeToken(_, token) =>
        if Free(w, r.platform, token, q.id) {
          SetKeepsOneHolder(w, q.id, Retokened(r, token, w.now));
        }
      case PostCode(_, code) => SetKeepsOneHolder(w, q.id, Verified(r, code, q.pending, w.now));
      case AskAgain(_) => SetKeepsOneHolder(w, q.id, Requested(r, Asker(q), DropIfStale, w.now));
      case DeleteMe(_) =>
    }
  }

  lemma {:induction false} RunKeepsOneHolder(w: World, events: seq<Event>)
    requires OneHolder(w)
    ensures OneHolder(Run(w, events))
    decreases |events|
  {
    if events != [] {
      StepKeepsOneHolder(w, events[0]);
      RunKeepsOneHolder(Step(w, events[0]), events[1..]);
    }
  }

  /** In any run, whatever is registered, changed and deleted, a token of a platform is
      held by one row at most. */
  lemma ATokenHasOneHolder(events: seq<Event>, i: Id, j: Id)
    requires var w := Run(EMPTY, events); i in w.rows && j in w.rows && i != j
    ensures var w := Run(EMPTY, events);
      w.rows[i].platform != w.rows[j].platform || w.rows[i].token != w.rows[j].token
  {
    RunKeepsOneHolder(EMPTY, events);
  }

  // ---------------------------------------------------------------------
  // Registering

  /** A known phone registered again: the newcomer's secret only waits, and the phone's
      own secret, verification, code and refusals stay. An owner's request still waiting
      for its push stays as it is, any other starts over as an open one. */
  predicate WaitsBeside(r: Row, s: Row, secret: Secret, now: int) {
    && s.pending == Some(secret) && s.pendingSince == now && !s.retired && s.deadSince.None?
    && s.requestedAt == now && s.sentAt.None?
    && (s.platform, s.token, s.secret, s.verifiedAt) == (r.platform, r.token, r.secret, r.verifiedAt)
    && (s.code, s.codeAt, s.tries) == (r.code, r.codeAt, r.tries)
    && (s.kind, s.failures, s.nextAt)
       == if r.kind.Owner? && r.sentAt.None? then (Owner, r.failures, r.nextAt) else (Open, 0, None)
  }

  /** A phone nobody registered: its own secret, and nothing proved or sent yet. */
  predicate StartsUnproved(s: Row, platform: Platform, token: Token, secret: Secret, now: int) {
    && (s.platform, s.token, s.secret) == (platform, token, secret)
    && s.verifiedAt.None? && s.pending.None? && s.code.None? && s.codeAt.None? && s.sentAt.None?
    && s.kind.Open? && s.requestedAt == now && s.failures == s.tries == 0 && s.nextAt.None?
    && s.deadSince.None? && !s.retired
  }

  /** In any run a registration touches one row: the one that holds the token, or a new
      one under an id no row ever had. */
  lemma WhatARegistrationDoes(events: seq<Event>, platform: Platform, token: Token, secret: Secret) returns (id: Id)
    ensures var w := Run(EMPTY, events); var after := Step(w, Register(platform, token, secret));
      && id in after.rows && after.rows - {id} == w.rows - {id}
      && (if id in w.rows then
            && w.rows[id].platform == platform && w.rows[id].token == token
            && WaitsBeside(w.rows[id], after.rows[id], secret, w.now)
          else
            && (forall i :: i in w.rows ==> i < id && !(w.rows[i].platform == platform && w.rows[i].token == token))
            && StartsUnproved(after.rows[id], platform, token, secret, w.now))
      && after.nextId == (if id in w.rows then w.nextId else id + 1)
      && after == w.(rows := after.rows, nextId := after.nextId)
  {
    RunKeepsOneHolder(EMPTY, events);
    var w := Run(EMPTY, events);
    var holder := Holder(w, platform, token);
    id := if holder.None? then w.nextId else holder.value;
  }

  // ---------------------------------------------------------------------
  // A phone proves itself

  /** Nothing stands in a newcomer's way: the stored code, if any, is a minute old, and an
      owner's request it would join is neither used up nor backing off. */
  predicate Unhindered(r: Row, now: int) {
    && (r.codeAt.Some? ==> now - r.codeAt.value >= 60)
    && (r.kind.Owner? && r.sentAt.None? ==> r.failures < 3 && (r.nextAt.Some? ==> r.nextAt.value <= now))
  }

  /** A sender's steps with a device. */
  function Sending(id: Id, s: nat, code: Code): seq<Event> {
    [Pick(s, id), Store(s, code), LookAgain(s), Send(s), Mark(s)]
  }

  /** A device as a registration leaves it, when nothing stands in the way. */
  predicate Expected(r: Row, now: int) {
    && (r.verifiedAt.None? || r.pending.Some?) && !r.retired && r.sentAt.None? && r.requestedAt == now
    && r.failures < 3 && (r.nextAt.Some? ==> r.nextAt.value <= now)
    && (r.codeAt.Some? ==> now - r.codeAt.value >= 60)
  }

  lemma {:induction false} RunAppend(w: World, events: seq<Event>, more: seq<Event>)
    ensures Run(w, events + more) == Run(Run(w, events), more)
    decreases |events|
  {
    if events == [] {
      assert events + more == more;
    } else {
      assert (events + more)[1..] == events[1..] + more;
      RunAppend(Step(w, events[0]), events[1..], more);
    }
  }

  lemma {:induction false} RunOne(w: World, e: Event)
    ensures Run(w, [e]) == Step(w, e)
  {
    assert [e][1..] == [];
  }

  lemma {:induction false} RunTwo(w: World, e: Event, f: Event)
    ensures Run(w, [e, f]) == Step(Step(w, e), f)
  {
    assert [e, f] == [e] + [f];
    RunAppend(w, [e], [f]);
    RunOne(w, e);
    RunOne(Step(w, e), f);
  }

  /** A sender that has stored its code and found the phone unchanged. */
  lemma TheSenderPrepares(w: World, id: Id, s: nat, code: Code)
    requires id in w.rows && Expected(w.rows[id], w.now) && s !in w.senders && code !in w.codes
    ensures var r := w.rows[id]; var after := Step(Step(Step(w, Pick(s, id)), Store(s, code)), LookAgain(s));
      after == w.(rows := w.rows[id := r.(code := Some(code), codeAt := Some(w.now))], codes := w.codes + {code},
                  senders := w.senders[s := Cleared(id, r.token, code, r.platform)])
  {
    var r := w.rows[id];
    var w1 := Step(w, Pick(s, id));
    assert w1 == w.(senders := w.senders[s := Picked(id, r.token)]);
    var w2 := Step(w1, Store(s, code));
    assert w2.senders == w.senders[s := Stored(id, r.token, code)];
    assert Step(w2, LookAgain(s)).senders == w.senders[s := Cleared(id, r.token, code, r.platform)];
  }

  lemma TheSenderPushes(w: World, id: Id, s: nat, code: Code)
    requires id in w.rows && w.rows[id].code == Some(code) && s in w.senders
    requires w.senders[s] == Cleared(id, w.rows[id].token, code, w.rows[id].platform)
    ensures var r := w.rows[id];
      Step(Step(w, Send(s)), Mark(s)) ==
      w.(rows := w.rows[id := r.(sentAt := Some(w.now), tries := 0)], senders := w.senders - {s},
            pushes := w.pushes + {Push(code, r.platform, r.token)})
  {
  }

  lemma SendingOnce(w: World, id: Id, s: nat, code: Code)
    ensures Run(w, Sending(id, s, code))
      == Step(Step(Step(Step(Step(w, Pick(s, id)), Store(s, code)), LookAgain(s)), Send(s)), Mark(s))
  {
    assert Sending(id, s, code) == [Pick(s, id), Store(s, code)] + ([LookAgain(s)] + [Send(s), Mark(s)]);
    RunAppend(w, [Pick(s, id), Store(s, code)], [LookAgain(s)] + [Send(s), Mark(s)]);
    RunTwo(w, Pick(s, id), Store(s, code));
    var w2 := Step(Step(w, Pick(s, id)), Store(s, code));
    RunAppend(w2, [LookAgain(s)], [Send(s), Mark(s)]);
    RunOne(w2, LookAgain(s));
    RunTwo(Step(w2, LookAgain(s)), Send(s), Mark(s));
  }

  /** A device that waits for its code, and that nothing hinders, is sent one. */
  lemma TheSenderSends(w: World, id: Id, s: nat, code: Code)
    requires id in w.rows && Expected(w.rows[id], w.now) && s !in w.senders && code !in w.codes
    ensures var after, r := Run(w, Sending(id, s, code)), w.rows[id];
      && after.rows == w.rows[id := r.(code := Some(code), codeAt := Some(w.now), sentAt := Some(w.now), tries := 0)]
      && after.pushes == w.pushes + {Push(code, r.platform, r.token)}
      && after.requests == w.requests && after.now == w.now && after.nextId == w.nextId
      && after.codes == w.codes + {code} && after.senders == w.senders
  {
    SendingOnce(w, id, s, code);
    TheSenderPrepares(w, id, s, code);
    TheSenderPushes(Step(Step(Step(w, Pick(s, id)), Store(s, code)), LookAgain(s)), id, s, code);
  }

  /** Authenticating with the secret a registration has just left, as the phone's own or
      as the one that waits. */
  lemma TheNewcomerIsKnown(w: World, id: Id, req: nat, secret: Secret)
    requires id in w.rows && !w.rows[id].retired && req !in w.requests
    requires
      var r := w.rows[id]; r.secret == secret || (r.pending == Some(secret) && w.now - r.pendingSince < 86400)
    ensures var q := Request(id, secret, if w.rows[id].secret == secret then None else Some(secret));
      Step(w, Authenticate(req, id, secret)) == w.(requests := w.requests[req := q])
  {
  }

  lemma ThePhoneAnswers(w: World, id: Id, req: nat, secret: Secret, code: Code)
    requires id in w.rows && w.rows[id].code == Some(code) && w.rows[id].codeAt == Some(w.now)
    requires req in w.requests && w.requests[req].id == id && w.requests[req].secret == secret
    requires if w.requests[req].pending.None? then w.rows[id].secret == secret && w.rows[id].verifiedAt.None?
             else w.requests[req].pending == w.rows[id].pending == Some(secret)
    ensures var r := w.rows[id];
      Step(w, PostCode(req, code)) ==
      w.(rows := w.rows[id := r.(secret := secret, verifiedAt := Some(w.now), code := None, pending := None)])
  {
  }

  /** Around a phone that has just proved itself: no time passed, its code was delivered
      now, one more code was drawn, and other requests go on. */
  predicate Meanwhile(w: World, after: World, id: Id, req: nat, code: Code) {
    && after.now == w.now && id in after.rows
    && after.rows[id].codeAt == after.rows[id].sentAt == Some(w.now) && !after.rows[id].retired
    && after.codes == w.codes + {code} && after.senders == w.senders && after.requests - {req} == w.requests - {req}
  }

  /** From any state of the system, a phone can prove itself: whoever held its token
      before, it registers, is sent a code and posts it, and is verified under its own new
      secret, the former one being gone. What can keep it waiting is a code not yet a
      minute old, or an owner's request that is used up or backing off. */
  lemma APhoneProvesItself(events: seq<Event>, platform: Platform, token: Token, secret: Secret, req: nat, s: nat,
                           code: Code) returns (id: Id)
    requires var w := Run(EMPTY, events);
      && req !in w.requests && s !in w.senders && code !in w.codes
      && forall i :: i in w.rows && w.rows[i].platform == platform && w.rows[i].token == token ==>
           Unhindered(w.rows[i], w.now) && w.rows[i].secret != secret
    ensures var after :=
        Run(EMPTY, events + ([Register(platform, token, secret), Authenticate(req, id, secret)]
                               + (Sending(id, s, code) + [PostCode(req, code)])));
      && id in after.rows && after.rows[id].platform == platform && after.rows[id].token == token
      && after.rows[id].secret == secret && after.rows[id].verifiedAt == Some(after.now)
      && after.rows[id].pending.None? && after.rows[id].code.None?
      && Push(code, platform, token) in after.pushes
      && Meanwhile(Run(EMPTY, events), after, id, req, code)
    ensures var w := Run(EMPTY, events);
      forall i :: i in w.rows && w.rows[i].platform == platform && w.rows[i].token == token ==> i == id
  {
    RunKeepsOneHolder(EMPTY, events);
    id := WhatARegistrationDoes(events, platform, token, secret);
    var w := Run(EMPTY, events);
    var e, f := Register(platform, token, secret), Authenticate(req, id, secret);
    var w1 := Step(w, e);
    var w2 := Step(w1, f);
    TheNewcomerIsKnown(w1, id, req, secret);
    TheSenderSends(w2, id, s, code);
    var w3 := Run(w2, Sending(id, s, code));
    ThePhoneAnswers(w3, id, req, secret, code);
    RunAppend(EMPTY, events, [e, f] + (Sending(id, s, code) + [PostCode(req, code)]));
    RunAppend(w, [e, f], Sending(id, s, code) + [PostCode(req, code)]);
    RunTwo(w, e, f);
    RunAppend(w2, Sending(id, s, code), [PostCode(req, code)]);
    RunOne(w3, PostCode(req, code));
  }

  /** The secret of a device need not be the one its verifier came with. Here an owner is
      let in, a newcomer takes the phone over, and the first owner's request, still under
      way, posts the next code: it counts, and verifies the newcomer's device. */
  lemma AnOvertakenOwnerVerifiesTheNext() returns (events: seq<Event>, req: nat, code: Code)
    ensures var w := Run(EMPTY, events);
      && CodeCounts(w, req, code) && w.requests[req].pending.None?
      && w.rows[w.requests[req].id].secret != w.requests[req].secret
  {
    var first := [Register(Apns, "t", 1), Authenticate(0, 0, 1)];
    RunTwo(EMPTY, Register(Apns, "t", 1), Authenticate(0, 0, 1));
    var w := Run(EMPTY, first);
    assert w.requests[0] == Request(0, 1, None) && Unhindered(w.rows[0], w.now);
    var id := APhoneProvesItself(first, Apns, "t", 2, 1, 0, 10);
    var taken := first + ([Register(Apns, "t", 2), Authenticate(1, id, 2)] + (Sending(id, 0, 10) + [PostCode(1, 10)]));
    var w1 := Run(EMPTY, taken);
    assert 0 in w1.requests - {1} && w1.requests[0] == Request(0, 1, None);
    var again := [Tick(60), Register(Apns, "t", 3)];
    RunTwo(w1, Tick(60), Register(Apns, "t", 3));
    RunAppend(EMPTY, taken, again);
    RunKeepsOneHolder(EMPTY, taken);
    var w2 := Run(EMPTY, taken + again);
    assert w2.rows[0].pending == Some(3) && w2.rows[0].secret == 2;
    TheSenderSends(w2, 0, 0, 11);
    RunAppend(EMPTY, taken + again, Sending(0, 0, 11));
    events, req, code := taken + again + Sending(0, 0, 11), 0, 11;
  }

  // ---------------------------------------------------------------------
  // The other requests

  /** A request is let in with the main secret, or with a pending one for a day, while the
      device is not retired; it carries which of them it came with, and changes no row. */
  lemma WhoIsLetIn(w: World, req: nat, id: Id, secret: Secret)
    requires req !in w.requests
    ensures var after := Step(w, Authenticate(req, id, secret));
      && (req in after.requests <==>
            && id in w.rows && !w.rows[id].retired
            && (w.rows[id].secret == secret
                || (w.rows[id].pending == Some(secret) && w.now - w.rows[id].pendingSince < 86400)))
      && after == w.(requests := after.requests) && after.requests - {req} == w.requests - {req}
      && (req in after.requests ==>
            && after.requests[req].id == id && after.requests[req].secret == secret
            && after.requests[req].pending == if w.rows[id].secret == secret then None else Some(secret))
  {
  }

  /** The request is from the device's owner: it came with the main secret, and that is
      still the main one. */
  predicate FromOwner(w: World, req: nat) {
    && req in w.requests && w.requests[req].id in w.rows && w.requests[req].pending.None?
    && w.rows[w.requests[req].id].secret == w.requests[req].secret
  }

  /** A row after its owner moved it to another token: nothing about the old one counts. */
  predicate MovedTo(r: Row, s: Row, token: Token, now: int) {
    && s.token == token && (s.platform, s.secret, s.retired, s.pendingSince)
                           == (r.platform, r.secret, r.retired, r.pendingSince)
    && s.verifiedAt.None? && s.pending.None? && s.code.None? && s.codeAt.None? && s.sentAt.None?
    && s.kind.Owner? && s.requestedAt == now && s.failures == s.tries == 0 && s.nextAt.None? && s.deadSince.None?
  }

  /** Only its owner moves a device to another token or deletes it, and only to a token
      that no other device of the platform holds. */
  lemma WhatOwnersDo(w: World, req: nat, token: Token)
    requires FromOwner(w, req)
    ensures var id := w.requests[req].id; Step(w, DeleteMe(req)) == w.(rows := w.rows - {id})
    ensures var id := w.requests[req].id;
      var r, after := w.rows[id], Step(w, ChangeToken(req, token));
      && after == w.(rows := after.rows) && id in after.rows && after.rows - {id} == w.rows - {id}
      && (if token != r.token
             && forall i :: i in w.rows && i != id ==> w.rows[i].platform != r.platform || w.rows[i].token != token
          then MovedTo(r, after.rows[id], token, w.now) else after == w)
  {
  }

  lemma OnlyOwnersDo(w: World, req: nat, token: Token)
    requires !FromOwner(w, req)
    ensures Step(w, DeleteMe(req)) == Step(w, ChangeToken(req, token)) == w
  {
  }

  /** Asking again restarts the request. A code younger than a minute goes on to count; a
      caller with a pending secret joins an owner's request that still waits for its push
      without giving it a fresh start. */
  lemma WhatAskingAgainDoes(w: World, req: nat)
    ensures req in w.requests && w.requests[req].id in w.rows ==>
      var id, q, after := w.requests[req].id, w.requests[req], Step(w, AskAgain(req));
      && id in after.rows && after == w.(rows := after.rows) && after.rows - {id} == w.rows - {id}
      && var r, s := w.rows[id], after.rows[id];
      && s == r.(requestedAt := w.now, sentAt := None, code := s.code, codeAt := s.codeAt, kind := s.kind,
                 failures := s.failures, nextAt := s.nextAt)
      && (s.code, s.codeAt)
         == (if r.codeAt.Some? && w.now - r.codeAt.value < 60 then (r.code, r.codeAt) else (None, None))
      && (s.kind, s.failures, s.nextAt)
         == if q.pending.None? then (Owner, 0, None)
            else if r.kind.Owner? && r.sentAt.None? then (Owner, r.failures, r.nextAt) else (Open, 0, None)
  {
  }

  // ---------------------------------------------------------------------
  // Senders

  /** Seconds a device is left alone after one more refusal. */
  function Pause(refusals: nat): nat {
    if refusals >= 6 then 3600 else [60, 120, 240, 480, 960, 1920][refusals]
  }

  /** After a refusal a sender picks the device again exactly from the end of the pause on,
      while its request is less than a day old, its push still to be delivered, and fewer
      than three refusals came with evidence. */
  lemma ARefusedDeviceWaits(w: World, id: Id, confirmed: bool, seconds: nat, s: nat)
    requires id in w.rows && s !in w.senders
    ensures var r := w.rows[id];
      s in Step(Step(Step(w, Refuse(id, confirmed)), Tick(seconds)), Pick(s, id)).senders <==>
        && seconds >= Pause(r.tries)
        && (r.verifiedAt.None? || r.pending.Some?) && !r.retired && r.sentAt.None?
        && w.now + seconds - r.requestedAt < 86400
        && (if confirmed then r.failures + 1 < 3 else r.failures < 3)
    ensures var r := w.rows[id];
      Step(w, Refuse(id, confirmed)) ==
      w.(rows := w.rows[id := r.(failures := if confirmed then r.failures + 1 else r.failures, tries := r.tries + 1,
                                 nextAt := Some(w.now + Pause(r.tries)))])
  {
    PauseIsBackoff(w.rows[id].tries);
  }

  lemma PauseIsBackoff(refusals: nat)
    ensures Pause(refusals) == Backoff(refusals)
  {
    assert Backoff(0) == 60 && Backoff(1) == 120;
    assert Backoff(2) == 240 && Backoff(3) == 480;
    assert Backoff(4) == 960 && Backoff(5) == 1920;
  }

  /** Storing a code is a sender's claim: it holds while the push is undelivered and the
      last code a minute old, and a sender whose claim fails gives up and touches nothing. */
  lemma WhatStoringDoes(w: World, s: nat, code: Code)
    requires s in w.senders && w.senders[s].Picked? && code !in w.codes
    ensures var id, token, after := w.senders[s].id, w.senders[s].token, Step(w, Store(s, code));
      if && id in w.rows && w.rows[id].sentAt.None?
         && (w.rows[id].codeAt.Some? ==> w.now - w.rows[id].codeAt.value >= 60)
      then
        after == w.(rows := w.rows[id := w.rows[id].(code := Some(code), codeAt := Some(w.now))],
                    senders := w.senders[s := Stored(id, token, code)], codes := w.codes + {code})
      else after == w.(senders := w.senders - {s}, codes := w.codes + {code})
  {
  }

  /** The sender goes on only while the device still holds the token it was picked with. */
  lemma WhatLookingAgainDoes(w: World, s: nat)
    requires s in w.senders && w.senders[s].Stored?
    ensures var p, after := w.senders[s], Step(w, LookAgain(s));
      after == w.(senders :=
        if p.id in w.rows && !w.rows[p.id].retired && w.rows[p.id].token == p.token then
          w.senders[s := Cleared(p.id, p.token, p.code, w.rows[p.id].platform)]
        else w.senders - {s})
  {
  }

  /** A push is handed over once the sender is cleared, and stamped as delivered, which
      clears the refusals, only on the row that still holds its code. */
  lemma WhatSendingDoes(w: World, s: nat)
    requires s in w.senders && w.senders[s].Cleared?
    ensures var p := w.senders[s];
      && Step(w, Send(s)) == w.(pushes := w.pushes + {Push(p.code, p.platform, p.token)})
      && Step(w, Mark(s)) ==
           w.(senders := w.senders - {s},
              rows := if p.id in w.rows && w.rows[p.id].code == Some(p.code) then
                        w.rows[p.id := w.rows[p.id].(sentAt := Some(w.now), tries := 0)]
                      else w.rows)
  {
  }

  /** Retiring marks the row that still holds the token; a purged row is gone, and time
      changes none. */
  lemma WhatHousekeepingDoes(w: World, id: Id, token: Token, seconds: nat)
    ensures Step(w, Retire(id, token)) ==
              if id in w.rows && w.rows[id].token == token then
                w.(rows := w.rows[id := w.rows[id].(retired := true)])
              else w
    ensures Step(w, Purge(id)) == w.(rows := w.rows - {id}) && Step(w, Tick(seconds)) == w.(now := w.now + seconds)
  {
  }
}
