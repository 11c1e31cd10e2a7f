/** The verification protocol as it really runs (app/api.py, app/push.py, app/repo.py). */
module DeviceProtocol {
  import opened Common
  import opened Devices

  // App requests read a row long before they write it. Senders (the web process and
  // the poller's sweep) pick a device, store a code, look at the device again and push.
  // Each of these is a step of its own, and they come in any order.

  /** An authenticated request under way: the secret it presented, which was the main
      one then, or the pending one (`pending`). */
  datatype Request = Request(id: Id, secret: Secret, pending: Option<Secret>)

  /** A sender's progress with one device: the token it read, the code it stored, and
      the platform it found the token on when it looked again. */
  datatype Sender =
    | Picked(id: Id, token: Token)
    | Stored(id: Id, token: Token, code: Code)
    | Cleared(id: Id, token: Token, code: Code, platform: Platform)

  /** A code handed to a relay for a phone. */
  datatype Push = Push(code: Code, platform: Platform, token: Token)

  datatype World = World(now: int, rows: Rows, nextId: Id, requests: map<nat, Request>, senders: map<nat, Sender>,
                         pushes: set<Push>, codes: set<Code>)

  datatype Event =
    | Tick(seconds: nat)
    // the app
    | Register(platform: Platform, token: Token, secret: Secret)
    | Authenticate(req: nat, id: Id, secret: Secret)
    | ChangeToken(req: nat, token: Token)
    | PostCode(req: nat, code: Code)
    | AskAgain(req: nat)
    | DeleteMe(req: nat)
    // a sender
    | Pick(s: nat, id: Id)
    | Store(s: nat, code: Code)
    | LookAgain(s: nat)
    | Send(s: nat)
    | Mark(s: nat)
    // what relays and housekeeping make of a row
    | Refuse(id: Id, confirmed: bool)
    | Retire(id: Id, token: Token)
    | Purge(id: Id)

  const EMPTY := World(0, map[], 0, map[], map[], {}, {})

  function Set(w: World, id: Id, r: Row): World {
    w.(rows := w.rows[id := r])
  }

  /** Nobody else holds the token. */
  predicate Free(w: World, platform: Platform, token: Token, but: Id) {
    forall i :: i in w.rows && i != but ==> !Holds(w.rows[i], platform, token)
  }

  ghost function Holder(w: World, platform: Platform, token: Token): Option<Id> {
    if exists i :: i in w.rows && Holds(w.rows[i], platform, token) then
      var i :| i in w.rows && Holds(w.rows[i], platform, token); Some(i)
    else None
  }

  /** The row a request is about, if it is still there. */
  predicate Reaches(w: World, req: nat) {
    req in w.requests && w.requests[req].id in w.rows
  }

  /** Whose verification an authenticated caller asks for. */
  function Asker(q: Request): Kind {
    if q.pending.Some? then Open else Owner
  }

  predicate MayChange(w: World, req: nat) {
    Reaches(w, req) && w.requests[req].pending.None? && w.rows[w.requests[req].id].secret == w.requests[req].secret
  }

  // ---------------------------------------------------------------------
  // Steps

  ghost function Registered(w: World, platform: Platform, token: Token, secret: Secret): World {
    var holder := Holder(w, platform, token);
    if holder.None? then w.(rows := w.rows[w.nextId := NewRow(platform, token, secret, w.now)], nextId := w.nextId + 1)
    else Set(w, holder.value, Reregistered(w.rows[holder.value], secret, w.now))
  }

  function Authenticated(w: World, req: nat, id: Id, secret: Secret): World {
    if id !in w.rows || w.rows[id].retired || req in w.requests then w
    else if w.rows[id].secret == secret then w.(requests := w.requests[req := Request(id, secret, None)])
    else if w.rows[id].pending == Some(secret) && w.rows[id].pendingSince > w.now - DAY then
      w.(requests := w.requests[req := Request(id, secret, Some(secret))])
    else w
  }

  predicate CodeAccepted(w: World, req: nat, code: Code) {
    Reaches(w, req) && Accepts(w.rows[w.requests[req].id], code, w.requests[req].pending, w.now)
  }

  /** The sender looks its device up again: same token, and not retired? */
  predicate StillThere(w: World, s: nat) {
    && s in w.senders && w.senders[s].Stored? && w.senders[s].id in w.rows
    && !w.rows[w.senders[s].id].retired && w.rows[w.senders[s].id].token == w.senders[s].token
  }

  function SenderStep(w: World, e: Event): World
    requires e.Pick? || e.Store? || e.LookAgain? || e.Send? || e.Mark?
  {
    match e
    case Pick(s, id) =>
      if s in w.senders || id !in w.rows || !Awaiting(w.rows[id], w.now) then w
      else w.(senders := w.senders[s := Picked(id, w.rows[id].token)])
    case Store(s, code) =>
      if s !in w.senders || !w.senders[s].Picked? || code in w.codes then w
      else
        var id, token := w.senders[s].id, w.senders[s].token;
        if id !in w.rows || !CanStore(w.rows[id], w.now) then w.(senders := w.senders - {s}, codes := w.codes + {code})
        else Set(w, id, w.rows[id].(code := Some(code), codeAt := Some(w.now)))
          .(senders := w.senders[s := Stored(id, token, code)], codes := w.codes + {code})
    case LookAgain(s) =>
      if !StillThere(w, s) then w.(senders := w.senders - {s})
      else w.(senders := w.senders[s := Cleared(w.senders[s].id, w.senders[s].token, w.senders[s].code,
        w.rows[w.senders[s].id].platform)])
    case Send(s) =>
      if s !in w.senders || !w.senders[s].Cleared? then w
      else w.(pushes := w.pushes + {Push(w.senders[s].code, w.senders[s].platform, w.senders[s].token)})
    case Mark(s) =>
      if s !in w.senders || !w.senders[s].Cleared? then w
      else if w.senders[s].id in w.rows && w.rows[w.senders[s].id].code == Some(w.senders[s].code) then
        Set(w, w.senders[s].id, w.rows[w.senders[s].id].(sentAt := Some(w.now), tries := 0))
          .(senders := w.senders - {s})
      else w.(senders := w.senders - {s})
  }

  ghost function Step(w: World, e: Event): World {
    match e
    case Tick(seconds) => w.(now := w.now + seconds)
    case Register(platform, token, secret) => Registered(w, platform, token, secret)
    case Authenticate(req, id, secret) => Authenticated(w, req, id, secret)
    case ChangeToken(req, token) =>
      if MayChange(w, req) && Free(w, w.rows[w.requests[req].id].platform, token, w.requests[req].id) then
        Set(w, w.requests[req].id, Retokened(w.rows[w.requests[req].id], token, w.now))
      else w
    case PostCode(req, code) =>
      if CodeAccepted(w, req, code) then
        Set(w, w.requests[req].id, Verified(w.rows[w.requests[req].id], code, w.requests[req].pending, w.now))
      else w
    case AskAgain(req) =>
      if Reaches(w, req) then
        Set(w, w.requests[req].id, Requested(w.rows[w.requests[req].id], Asker(w.requests[req]), DropIfStale, w.now))
      else w
    case DeleteMe(req) => if MayChange(w, req) then w.(rows := w.rows - {w.requests[req].id}) else w
    case Pick(_, _) => SenderStep(w, e)
    case Store(_, _) => SenderStep(w, e)
    case LookAgain(_) => SenderStep(w, e)
    case Send(_) => SenderStep(w, e)
    case Mark(_) => SenderStep(w, e)
    case Refuse(id, confirmed) => if id in w.rows then Set(w, id, RefusedOnce(w.rows[id], confirmed, w.now)) else w
    case Retire(id, token) =>
      if id in w.rows && w.rows[id].token == token then Set(w, id, w.rows[id].(retired := true)) else w
    case Purge(id) => w.(rows := w.rows - {id})
  }

  ghost function Run(w: World, events: seq<Event>): World
    decreases |events|
  {
    if events == [] then w else Run(Step(w, events[0]), events[1..])
  }

  // ---------------------------------------------------------------------
  // What every step keeps

  /** The pushes of a row's code all went to the row's phone. */
  ghost predicate PushedHere(w: World, r: Row) {
    r.code.Some? ==>
      && r.code.value in w.codes
      && forall p :: p in w.pushes && p.code == r.code.value ==> p.platform == r.platform && p.token == r.token
  }

  /** A sender about to push a row's code holds the row's token. */
  ghost predicate AimedHere(w: World, s: Sender) {
    && (s.Picked? || s.code in w.codes)
    && (!s.Picked? ==> forall i :: i in w.rows && w.rows[i].code == Some(s.code) ==> i == s.id)
    && (s.Cleared? && s.id in w.rows && w.rows[s.id].code == Some(s.code) ==>
          s.token == w.rows[s.id].token && s.platform == w.rows[s.id].platform)
  }

  ghost predicate Inv(w: World) {
    && (forall i :: i in w.rows ==> i < w.nextId && PushedHere(w, w.rows[i]))
    && (forall i, j :: i in w.rows && j in w.rows && i != j && w.rows[i].code.Some? ==>
          w.rows[i].code != w.rows[j].code)
    && (forall s :: s in w.senders ==> w.senders[s].id < w.nextId && AimedHere(w, w.senders[s]))
    && (forall p :: p in w.pushes ==> p.code in w.codes)
    && (forall q :: q in w.requests ==>
          w.requests[q].pending.None? || w.requests[q].pending == Some(w.requests[q].secret))
  }

  /** A row changed in any way that keeps its code for its phone, or drops it. */
  predicate NoNewCode(before: Row, after: Row) {
    after.code.Some? ==> after.code == before.code && after.platform == before.platform && after.token == before.token
  }

  /** Nothing is sent, and no row has a code that it did not have. */
  ghost predicate Quiet(w: World, after: World) {
    && after.pushes == w.pushes && after.codes == w.codes && after.nextId >= w.nextId
    && (forall i :: i in after.rows ==> i < after.nextId)
    && (forall i :: i in after.rows && after.rows[i].code.Some? ==> i in w.rows && NoNewCode(w.rows[i], after.rows[i]))
    && (forall s :: s in after.senders ==> s in w.senders && after.senders[s] == w.senders[s])
    && (forall q :: q in after.requests ==>
          after.requests[q].pending.None? || after.requests[q].pending == Some(after.requests[q].secret))
  }

  lemma QuietKeepsInv(w: World, after: World)
    requires Inv(w) && Quiet(w, after)
    ensures Inv(after)
  {
    forall s | s in after.senders ensures AimedHere(after, after.senders[s]) {
      assert AimedHere(w, w.senders[s]);
    }
  }

  lemma PickKeepsInv(w: World, s: nat, id: Id)
    requires Inv(w)
    ensures Inv(SenderStep(w, Pick(s, id)))
  {
    var after := SenderStep(w, Pick(s, id));
    forall t | t in after.senders ensures AimedHere(after, after.senders[t]) {
      assert t in w.senders ==> AimedHere(w, w.senders[t]);
    }
  }

  lemma StoreKeepsInv(w: World, s: nat, code: Code)
    requires Inv(w) && s in w.senders && w.senders[s].Picked? && code !in w.codes
    ensures Inv(SenderStep(w, Store(s, code)))
  {
    var after := SenderStep(w, Store(s, code));
    var id := w.senders[s].id;
    forall i | i in after.rows ensures PushedHere(after, after.rows[i]) {
      assert PushedHere(w, w.rows[i]);
    }
    forall t | t in after.senders ensures AimedHere(after, after.senders[t]) {
      assert AimedHere(w, w.senders[t]);
      if id in w.rows && CanStore(w.rows[id], w.now) {
        assert forall i :: i in w.rows && i != id ==> after.rows[i] == w.rows[i];
      }
    }
  }

  lemma LookKeepsInv(w: World, s: nat)
    requires Inv(w)
    ensures Inv(SenderStep(w, LookAgain(s)))
  {
    var after := SenderStep(w, LookAgain(s));
    forall t | t in after.senders ensures AimedHere(after, after.senders[t]) {
      assert AimedHere(w, w.senders[t]);
    }
  }

  lemma SendKeepsInv(w: World, s: nat)
    requires Inv(w)
    ensures Inv(SenderStep(w, Send(s)))
  {
    if s in w.senders && w.senders[s].Cleared? {
      var after := SenderStep(w, Send(s));
      assert AimedHere(w, w.senders[s]);
      forall i | i in after.rows ensures PushedHere(after, after.rows[i]) {
        assert PushedHere(w, w.rows[i]);
      }
      forall t | t in after.senders ensures AimedHere(after, after.senders[t]) {
        assert AimedHere(w, w.senders[t]);
      }
    }
  }

  lemma SetIsQuiet(w: World, id: Id, r: Row)
    requires Inv(w) && id in w.rows && NoNewCode(w.rows[id], r)
    ensures Quiet(w, Set(w, id, r))
  {
  }

  predicate FromRequest(e: Event) {
    e.ChangeToken? || e.PostCode? || e.AskAgain? || e.DeleteMe?
  }

  predicate FromSender(e: Event) {
    e.Pick? || e.Store? || e.LookAgain? || e.Send?
  }

  /** What a request makes of its row never gives it a code. */
  lemma RequestsGiveNoCode(r: Row, token: Token, code: Code, pending: Option<Secret>, kind: Kind, now: int)
    ensures NoNewCode(r, Retokened(r, token, now)) && NoNewCode(r, Verified(r, code, pending, now))
    ensures NoNewCode(r, Requested(r, kind, DropIfStale, now))
  {
  }

  lemma RequestIsQuiet(w: World, e: Event)
    requires Inv(w) && FromRequest(e)
    ensures Quiet(w, Step(w, e))
  {
    if e.DeleteMe? || !Reaches(w, e.req) {
      RemovalIsQuiet(w, e);
    } else {
      var q, r := w.requests[e.req], w.rows[w.requests[e.req].id];
      var token, code := if e.ChangeToken? then e.token else "", if e.PostCode? then e.code else 0;
      RequestsGiveNoCode(r, token, code, q.pending, Asker(q), w.now);
      SetIsQuiet(w, q.id, Retokened(r, token, w.now));
      SetIsQuiet(w, q.id, Verified(r, code, q.pending, w.now));
      SetIsQuiet(w, q.id, Requested(r, Asker(q), DropIfStale, w.now));
      NothingIsQuiet(w);
    }
  }

  lemma NothingIsQuiet(w: World)
    requires Inv(w)
    ensures Quiet(w, w)
  {
  }

  lemma RemovalIsQuiet(w: World, e: Event)
    requires Inv(w) && FromRequest(e) && (e.DeleteMe? || !Reaches(w, e.req))
    ensures Quiet(w, Step(w, e))
  {
  }

  lemma RegisterIsQuiet(w: World, platform: Platform, token: Token, secret: Secret)
    requires Inv(w)
    ensures Quiet(w, Registered(w, platform, token, secret))
  {
    var holder := Holder(w, platform, token);
    if holder.Some? {
      SetIsQuiet(w, holder.value, Reregistered(w.rows[holder.value], secret, w.now));
    }
  }

  lemma AuthenticateIsQuiet(w: World, req: nat, id: Id, secret: Secret)
    requires Inv(w)
    ensures Quiet(w, Authenticated(w, req, id, secret))
  {
  }

  lemma MarkIsQuiet(w: World, s: nat)
    requires Inv(w)
    ensures Quiet(w, SenderStep(w, Mark(s)))
  {
  }

  lemma RestIsQuiet(w: World, e: Event)
    requires Inv(w) && !FromRequest(e) && !FromSender(e)
    ensures Quiet(w, Step(w, e))
  {
    match e
    case Register(platform, token, secret) => RegisterIsQuiet(w, platform, token, secret);
    case Authenticate(req, id, secret) => AuthenticateIsQuiet(w, req, id, secret);
    case Mark(s) => MarkIsQuiet(w, s);
    case Refuse(id, confirmed) => if id in w.rows { SetIsQuiet(w, id, RefusedOnce(w.rows[id], confirmed, w.now)); }
    case Retire(id, token) => if id in w.rows { SetIsQuiet(w, id, w.rows[id].(retired := true)); }
    case _ =>
  }

  lemma SenderKeepsInv(w: World, e: Event)
    requires Inv(w) && FromSender(e)
    ensures Inv(SenderStep(w, e))
  {
    match e
    case Pick(s, id) => PickKeepsInv(w, s, id);
    case LookAgain(s) => LookKeepsInv(w, s);
    case Send(s) => SendKeepsInv(w, s);
    case Store(s, code) =>
      if s in w.senders && w.senders[s].Picked? && code !in w.codes {
        StoreKeepsInv(w, s, code);
      }
  }

  lemma StepKeepsInv(w: World, e: Event)
    requires Inv(w)
    ensures Inv(Step(w, e))
  {
    if FromSender(e) {
      SenderKeepsInv(w, e);
      assert Step(w, e) == SenderStep(w, e);
    } else {
      if FromRequest(e) {
        RequestIsQuiet(w, e);
      } else {
        RestIsQuiet(w, e);
      }
      QuietKeepsInv(w, Step(w, e));
    }
  }

  lemma {:induction false} RunKeepsInv(w: World, events: seq<Event>)
    requires Inv(w)
    ensures Inv(Run(w, events))
    decreases |events|
  {
    if events != [] {
      StepKeepsInv(w, events[0]);
      RunKeepsInv(Step(w, events[0]), events[1..]);
    }
  }

  // ---------------------------------------------------------------------
  // Main results

  /** In any run, a code that is accepted was pushed to no phone but the one whose
      token the row holds at that moment, whatever changed between picking the device,
      storing the code and sending it. */
  lemma AnAcceptedCodeReachedOnlyThisPhone(events: seq<Event>, req: nat, code: Code, p: Push)
    requires var w := Run(EMPTY, events); CodeAccepted(w, req, code) && p in w.pushes && p.code == code
    ensures var w := Run(EMPTY, events); Holds(w.rows[w.requests[req].id], p.platform, p.token)
  {
    RunKeepsInv(EMPTY, events);
    var w := Run(EMPTY, events);
    assert PushedHere(w, w.rows[w.requests[req].id]);
  }

  /** What a step makes of a device's secret, token and verification. */
  lemma OnlyOwnRequestsTouchCredentials(w: World, e: Event, id: Id)
    requires id in w.rows && id < w.nextId && id in Step(w, e).rows
    ensures var before, after := w.rows[id], Step(w, e).rows[id];
      || (after.secret == before.secret && after.verifiedAt == before.verifiedAt && after.token == before.token)
      || (e.ChangeToken? && MayChange(w, e.req) && w.requests[e.req].id == id
          && after == Retokened(before, e.token, w.now))
      || (e.PostCode? && CodeAccepted(w, e.req, e.code) && w.requests[e.req].id == id
          && after == Verified(before, e.code, w.requests[e.req].pending, w.now))
  {
  }

  /** In any run, a device's main secret changes only by a posted code, to the pending
      secret the poster authenticated with, which was the row's pending secret. */
  lemma OnlyACodeMovesTheMainSecret(events: seq<Event>, e: Event, id: Id)
    requires var w := Run(EMPTY, events);
      id in w.rows && id in Step(w, e).rows && Step(w, e).rows[id].secret != w.rows[id].secret
    ensures var w := Run(EMPTY, events);
      && e.PostCode? && CodeAccepted(w, e.req, e.code) && w.requests[e.req].id == id
      && w.rows[id].pending == Some(w.requests[e.req].secret)
      && Step(w, e).rows[id].secret == w.requests[e.req].secret
  {
    RunKeepsInv(EMPTY, events);
    OnlyOwnRequestsTouchCredentials(Run(EMPTY, events), e, id);
  }

  /** In any run, a device becomes verified only by a posted code. */
  lemma OnlyACodeVerifies(events: seq<Event>, e: Event, id: Id)
    requires var w := Run(EMPTY, events);
      id in w.rows && id in Step(w, e).rows && w.rows[id].verifiedAt.None? && Step(w, e).rows[id].verifiedAt.Some?
    ensures var w := Run(EMPTY, events); e.PostCode? && CodeAccepted(w, e.req, e.code) && w.requests[e.req].id == id
  {
    RunKeepsInv(EMPTY, events);
    OnlyOwnRequestsTouchCredentials(Run(EMPTY, events), e, id);
  }

  /** In any run, a new token has to be proved afresh: verification, code and pending
      secret all end with the old one. */
  lemma ANewTokenStartsOver(events: seq<Event>, e: Event, id: Id)
    requires var w := Run(EMPTY, events);
      id in w.rows && id in Step(w, e).rows && Step(w, e).rows[id].token != w.rows[id].token
    ensures var w := Run(EMPTY, events); e.ChangeToken? && MayChange(w, e.req) && w.requests[e.req].id == id
    ensures var after := Step(Run(EMPTY, events), e).rows[id];
        after.verifiedAt.None? && after.code.None? && after.pending.None?
  {
    RunKeepsInv(EMPTY, events);
    OnlyOwnRequestsTouchCredentials(Run(EMPTY, events), e, id);
  }

  // ---------------------------------------------------------------------
  // One code a minute

  /** The sender's write takes effect on the device. */
  predicate Claims(w: World, e: Event, id: Id) {
    && e.Store? && e.s in w.senders && w.senders[e.s].Picked? && e.code !in w.codes
    && w.senders[e.s].id == id && id in w.rows && CanStore(w.rows[id], w.now)
  }

  /** The device is there, with a code stored since `since`, or its minute is over. */
  predicate Spaced(w: World, id: Id, since: int) {
    && id in w.rows && id < w.nextId
    && (w.rows[id].codeAt.None? ==> w.now >= since + MINUTE)
    && (w.rows[id].codeAt.Some? ==> w.rows[id].codeAt.value >= since)
  }

  predicate SamePhone(w: World, after: World, id: Id) {
    id in w.rows && id in after.rows && after.rows[id].token == w.rows[id].token
  }

  lemma SpacedSet(w: World, id: Id, since: int, at: Id, r: Row)
    requires Spaced(w, id, since) && at in w.rows
    requires at == id ==>
      r.codeAt == w.rows[id].codeAt || (r.codeAt.None? && Stale(w.rows[id], w.now)) || r.codeAt == Some(w.now)
    requires at == id && r.codeAt == Some(w.now) ==> w.now >= since
    ensures Spaced(Set(w, at, r), id, since)
  {
  }

  /** None of these makes a code look older or newer; a stale one may be dropped. */
  lemma CodeTimesStay(r: Row, code: Code, pending: Option<Secret>, kind: Kind, secret: Secret, now: int)
    ensures Verified(r, code, pending, now).codeAt == r.codeAt == Reregistered(r, secret, now).codeAt
    ensures Requested(r, kind, DropIfStale, now).codeAt == (if Stale(r, now) then None else r.codeAt)
  {
  }

  lemma SpacedRequest(w: World, e: Event, id: Id, since: int)
    requires Spaced(w, id, since) && SamePhone(w, Step(w, e), id) && since <= w.now && FromRequest(e)
    ensures Spaced(Step(w, e), id, since)
  {
    if Reaches(w, e.req) {
      var q, r := w.requests[e.req], w.rows[w.requests[e.req].id];
      match e
      case PostCode(_, code) =>
        CodeTimesStay(r, code, q.pending, Open, 0, w.now);
        SpacedSet(w, id, since, q.id, Verified(r, code, q.pending, w.now));
      case AskAgain(_) =>
        CodeTimesStay(r, 0, None, Asker(q), 0, w.now);
        SpacedSet(w, id, since, q.id, Requested(r, Asker(q), DropIfStale, w.now));
      case _ =>
    }
  }

  lemma SpacedRegister(w: World, platform: Platform, token: Token, secret: Secret, id: Id, since: int)
    requires Spaced(w, id, since)
    ensures Spaced(Registered(w, platform, token, secret), id, since)
  {
    var holder := Holder(w, platform, token);
    if holder.Some? {
      CodeTimesStay(w.rows[holder.value], 0, None, Open, secret, w.now);
      SpacedSet(w, id, since, holder.value, Reregistered(w.rows[holder.value], secret, w.now));
    }
  }

  lemma SpacedStep(w: World, e: Event, id: Id, since: int)
    requires Spaced(w, id, since) && SamePhone(w, Step(w, e), id) && since <= w.now
    ensures Spaced(Step(w, e), id, since) && since <= Step(w, e).now
  {
    if FromRequest(e) {
      SpacedRequest(w, e, id, since);
    } else if e.Register? {
      SpacedRegister(w, e.platform, e.token, e.secret, id, since);
    }
  }

  /** The device keeps its row and its phone throughout. */
  ghost predicate KeepsPhone(w: World, events: seq<Event>, id: Id)
    decreases |events|
  {
    events != [] ==> SamePhone(w, Step(w, events[0]), id) && KeepsPhone(Step(w, events[0]), events[1..], id)
  }

  lemma {:induction false} SpacedRun(w: World, events: seq<Event>, id: Id, since: int)
    requires Spaced(w, id, since) && KeepsPhone(w, events, id) && since <= w.now
    ensures Spaced(Run(w, events), id, since)
    decreases |events|
  {
    if events != [] {
      SpacedStep(w, events[0], id, since);
      SpacedRun(Step(w, events[0]), events[1..], id, since);
    }
  }

  /** Of any number of senders, web requests and sweeps, one at most a minute stores a
      code for a device: two do only if the device changes its token in between. */
  lemma OneCodeAMinute(w: World, first: Event, events: seq<Event>, second: Event, id: Id)
    requires Inv(w) && Claims(w, first, id) && KeepsPhone(Step(w, first), events, id)
    requires Claims(Run(Step(w, first), events), second, id)
    ensures Run(Step(w, first), events).now >= w.now + MINUTE
  {
    SpacedRun(Step(w, first), events, id, w.now);
  }
}
