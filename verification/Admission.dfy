/** Subscriptions coming, changing and going in every city, by mail and by app: the
    routes of app/web.py and app/api.py as one state machine over the table that
    app/repo.py keeps. */
module Admission {
  import opened Common
  import opened Planning
  import opened PlanCap

  type Id = nat

  /** `push` marks an app subscription. Each carries one service. */
  datatype Sub = Sub(city: string, push: bool, service: Service, locations: Locations,
                     confirmed: bool, deleted: bool, expires: int)

  datatype State = State(now: int, rows: map<Id, Sub>)
  datatype Config = Config(maxPlans: map<string, int>, default: int)

  const EMPTY := State(0, map[])

  function Cap(cfg: Config, city: string): int {
    CapForCity(cfg.maxPlans, city, cfg.default)
  }

  /** Mail: confirmed, not deleted, term running. App: the same, whether or not its
      device is verified right now. */
  predicate Live(s: Sub, now: int) {
    !s.deleted && s.expires > now && (s.push || s.confirmed)
  }

  predicate Counts(st: State, id: Id, city: string, skip: Option<Id>) {
    id in st.rows && skip != Some(id) && st.rows[id].city == city && Live(st.rows[id], st.now)
  }

  function MailServices(st: State, city: string, skip: Option<Id>): set<Service> {
    set id | id in st.rows && Counts(st, id, city, skip) && !st.rows[id].push :: st.rows[id].service
  }

  function AppServices(st: State, city: string, skip: Option<Id>): set<Service> {
    set id | id in st.rows && Counts(st, id, city, skip) && st.rows[id].push :: st.rows[id].service
  }

  function OwnLive(st: State, skip: Option<Id>): set<Service> {
    if skip.Some? && skip.value in st.rows && Live(st.rows[skip.value], st.now)
    then {st.rows[skip.value].service} else {}
  }

  /** What the city is polled for. */
  function Polled(st: State, city: string): set<Service> {
    MailServices(st, city, None) + AppServices(st, city, None)
  }

  function AppHeld(st: State, city: string): set<Service> {
    AppServices(st, city, None) - MailServices(st, city, None)
  }

  /** What a request asks the plan cap: may a subscription of this kind watch this
      service, leaving out the one it is about? */
  datatype Question = Question(city: string, service: Service, push: bool, skip: Option<Id>)

  predicate Refused(st: State, cfg: Config, q: Question) {
    PlaceRefused(MailServices(st, q.city, q.skip), AppServices(st, q.city, q.skip), q.service, Cap(cfg, q.city),
      q.push, OwnLive(st, q.skip))
  }

  // ---------------------------------------------------------------------
  // One transaction of each route

  /** A request that has reached its transaction. What a route checks before that
      (the row was there, not deleted, not expired) may be out of date by then, so a
      transaction relies on nothing but what it asks itself. `judged` is the service
      such a read found in the row, which confirming and renewing ask the cap about. */
  datatype Event =
    | Tick(seconds: nat)
    | MailSignUp(id: Id, city: string, service: Service, locations: Locations, expires: int)
    | AppSignUp(id: Id, city: string, service: Service, locations: Locations, expires: int)
    | Confirm(id: Id, judged: Service)
    | Edit(id: Id, service: Service, locations: Locations, expires: int)
    | Renew(id: Id, judged: Service, expires: int)
    | Delete(id: Id)
    | PullIn(id: Id, expires: int)
    | Purge(id: Id)

  function Put(st: State, id: Id, s: Sub): State {
    st.(rows := st.rows[id := s])
  }

  function Asked(st: State, e: Event): Option<Question> {
    match e
    case MailSignUp(_, city, service, _, _) => Some(Question(city, service, false, None))
    case AppSignUp(_, city, service, _, _) => Some(Question(city, service, true, None))
    case Confirm(id, judged) =>
      if id in st.rows then Some(Question(st.rows[id].city, judged, false, Some(id))) else None
    case Edit(id, service, _, _) =>
      if id in st.rows then Some(Question(st.rows[id].city, service, st.rows[id].push, Some(id))) else None
    case Renew(id, judged, _) =>
      if id in st.rows then Some(Question(st.rows[id].city, judged, st.rows[id].push, Some(id))) else None
    case _ => None
  }

  /** What the request does when the cap lets it. A mail row counts once confirmed,
      an app row at once; an edit can pull the expiry in, never out. */
  function Granted(st: State, e: Event): State {
    match e
    case Tick(seconds) => st.(now := st.now + seconds)
    case MailSignUp(id, city, service, locations, expires) =>
      if id in st.rows then st else Put(st, id, Sub(city, false, service, locations, false, false, expires))
    case AppSignUp(id, city, service, locations, expires) =>
      if id in st.rows then st else Put(st, id, Sub(city, true, service, locations, true, false, expires))
    case Confirm(id, _) =>
      if id !in st.rows || st.rows[id].push then st else Put(st, id, st.rows[id].(confirmed := true))
    case Edit(id, service, locations, expires) =>
      if id !in st.rows then st
      else Put(st, id, st.rows[id].(service := service, locations := locations,
          expires := Min(st.rows[id].expires, expires)))
    case Renew(id, _, expires) =>
      if id !in st.rows || st.rows[id].deleted then st else Put(st, id, st.rows[id].(expires := expires))
    case Delete(id) =>
      if id !in st.rows then st else Put(st, id, st.rows[id].(deleted := true))
    case PullIn(id, expires) =>
      if id !in st.rows then st else Put(st, id, st.rows[id].(expires := Min(st.rows[id].expires, expires)))
    case Purge(id) => st.(rows := st.rows - {id})
  }

  /** A refused request changes nothing. */
  function Step(st: State, cfg: Config, e: Event): State {
    var q := Asked(st, e);
    if q.Some? && Refused(st, cfg, q.value) then st else Granted(st, e)
  }

  function Run(st: State, cfg: Config, events: seq<Event>): State
    decreases |events|
  {
    if events == [] then st else Run(Step(st, cfg, events[0]), cfg, events[1..])
  }

  // ---------------------------------------------------------------------
  // What one row contributes

  function Contribution(st: State, id: Id, city: string): set<Service> {
    if Counts(st, id, city, None) then {st.rows[id].service} else {}
  }

  /** A city is polled for what the others watch and what the row itself does. */
  lemma PolledWithout(st: State, id: Id, city: string)
    ensures Polled(st, city) ==
              MailServices(st, city, Some(id)) + AppServices(st, city, Some(id)) + Contribution(st, id, city)
  {
    forall s | s in Polled(st, city)
      ensures s in MailServices(st, city, Some(id)) + AppServices(st, city, Some(id)) + Contribution(st, id, city)
    {
      var i :| i in st.rows && Counts(st, i, city, None) && st.rows[i].service == s;
      assert i != id ==> Counts(st, i, city, Some(id));
    }
    forall s | s in MailServices(st, city, Some(id)) ensures s in Polled(st, city) {
      var i :| i in st.rows && Counts(st, i, city, Some(id)) && !st.rows[i].push && st.rows[i].service == s;
      assert Counts(st, i, city, None);
    }
    forall s | s in AppServices(st, city, Some(id)) ensures s in Polled(st, city) {
      var i :| i in st.rows && Counts(st, i, city, Some(id)) && st.rows[i].push && st.rows[i].service == s;
      assert Counts(st, i, city, None);
    }
  }

  /** The others do not depend on the row. */
  lemma OthersUnchanged(st: State, id: Id, s: Sub, city: string)
    ensures MailServices(Put(st, id, s), city, Some(id)) == MailServices(st, city, Some(id))
    ensures AppServices(Put(st, id, s), city, Some(id)) == AppServices(st, city, Some(id))
  {
    var after := Put(st, id, s);
    assert forall i :: i != id ==> (Counts(after, i, city, Some(id)) <==> Counts(st, i, city, Some(id)));
  }

  // ---------------------------------------------------------------------
  // The bound over whole runs

  ghost predicate Bounded(st: State, cfg: Config) {
    forall city :: |Polled(st, city)| <= PollBound(Cap(cfg, city))
  }

  /** A change to one row that gives its city nothing new. */
  lemma PutNothingNew(st: State, cfg: Config, id: Id, s: Sub)
    requires Bounded(st, cfg)
    requires Live(s, st.now) ==>
               && id in st.rows && Live(st.rows[id], st.now)
               && s.city == st.rows[id].city && s.service == st.rows[id].service
    ensures Bounded(Put(st, id, s), cfg)
  {
    forall city ensures |Polled(Put(st, id, s), city)| <= PollBound(Cap(cfg, city)) {
      OthersUnchanged(st, id, s, city);
      PolledWithout(st, id, city);
      PolledWithout(Put(st, id, s), id, city);
      SubsetCardinality(Polled(Put(st, id, s), city), Polled(st, city));
    }
  }

  /** A change to one row that the cap was asked about. */
  lemma PutAdmittedHere(st: State, cfg: Config, id: Id, s: Sub)
    requires Bounded(st, cfg)
    requires id in st.rows ==> st.rows[id].city == s.city
    requires !Refused(st, cfg, Question(s.city, s.service, s.push, Some(id)))
    ensures |Polled(Put(st, id, s), s.city)| <= PollBound(Cap(cfg, s.city))
  {
    var after := Put(st, id, s);
    var mail, app := MailServices(st, s.city, Some(id)), AppServices(st, s.city, Some(id));
    var own := OwnLive(st, Some(id));
    assert mail + app + own == Polled(st, s.city) by {
      PolledWithout(st, id, s.city);
    }
    OneServiceRule(mail, app, s.service, Cap(cfg, s.city), s.push, own);
    OneServiceIsNotMixed(mail + app, s.service, own);
    AdmittedWithinBound(mail, app, {s.service}, own, Cap(cfg, s.city), s.push);
    PolledAfterPut(st, id, s);
    SubsetCardinality(Polled(after, s.city), mail + app + {s.service});
  }

  lemma PolledAfterPut(st: State, id: Id, s: Sub)
    ensures Polled(Put(st, id, s), s.city) <=
              MailServices(st, s.city, Some(id)) + AppServices(st, s.city, Some(id)) + {s.service}
  {
    OthersUnchanged(st, id, s, s.city);
    PolledWithout(Put(st, id, s), id, s.city);
  }

  lemma PutElsewhere(st: State, id: Id, s: Sub, city: string)
    requires id in st.rows ==> st.rows[id].city == s.city
    requires city != s.city
    ensures Polled(Put(st, id, s), city) == Polled(st, city)
  {
    OthersUnchanged(st, id, s, city);
    PolledWithout(st, id, city);
    PolledWithout(Put(st, id, s), id, city);
  }

  lemma PutAdmitted(st: State, cfg: Config, id: Id, s: Sub)
    requires Bounded(st, cfg)
    requires id in st.rows ==> st.rows[id].city == s.city
    requires !Refused(st, cfg, Question(s.city, s.service, s.push, Some(id)))
    ensures Bounded(Put(st, id, s), cfg)
  {
    PutAdmittedHere(st, cfg, id, s);
    forall city | city != s.city ensures |Polled(Put(st, id, s), city)| <= PollBound(Cap(cfg, city)) {
      PutElsewhere(st, id, s, city);
    }
  }

  lemma FewerPolled(st: State, after: State, city: string)
    requires st.now <= after.now
    requires forall id :: id in after.rows ==> id in st.rows && after.rows[id] == st.rows[id]
    ensures Polled(after, city) <= Polled(st, city)
  {
    forall id | id in after.rows && Counts(after, id, city, None) ensures Counts(st, id, city, None) {
    }
  }

  lemma FewerRows(st: State, cfg: Config, after: State)
    requires Bounded(st, cfg) && st.now <= after.now
    requires forall id :: id in after.rows ==> id in st.rows && after.rows[id] == st.rows[id]
    ensures Bounded(after, cfg)
  {
    forall city ensures |Polled(after, city)| <= PollBound(Cap(cfg, city)) {
      FewerPolled(st, after, city);
      SubsetCardinality(Polled(after, city), Polled(st, city));
    }
  }

  /** The service a route judged is the one its row still carries. */
  predicate JudgedFresh(st: State, e: Event) {
    (e.Confirm? || e.Renew?) && e.id in st.rows ==> e.judged == st.rows[e.id].service
  }

  /** A new row is judged with nobody left out, which is the same thing. */
  lemma NobodyToSkip(st: State, cfg: Config, city: string, service: Service, push: bool, id: Id)
    requires id !in st.rows
    ensures Refused(st, cfg, Question(city, service, push, None))
        == Refused(st, cfg, Question(city, service, push, Some(id)))
  {
    assert forall i :: Counts(st, i, city, None) <==> Counts(st, i, city, Some(id));
    assert MailServices(st, city, None) == MailServices(st, city, Some(id));
    assert AppServices(st, city, None) == AppServices(st, city, Some(id));
  }

  lemma StepKeepsBound(st: State, cfg: Config, e: Event)
    requires Bounded(st, cfg) && JudgedFresh(st, e)
    ensures Bounded(Step(st, cfg, e), cfg)
  {
    var after := Step(st, cfg, e);
    if after != st {
      match e
      case Tick(_) => FewerRows(st, cfg, after);
      case Purge(_) => FewerRows(st, cfg, after);
      case Delete(id) => PutNothingNew(st, cfg, id, after.rows[id]);
      case PullIn(id, _) => PutNothingNew(st, cfg, id, after.rows[id]);
      case MailSignUp(id, city, service, _, _) =>
        PutNothingNew(st, cfg, id, after.rows[id]);
      case AppSignUp(id, city, service, _, _) =>
        NobodyToSkip(st, cfg, city, service, true, id);
        PutAdmitted(st, cfg, id, after.rows[id]);
      case Confirm(id, _) => PutAdmitted(st, cfg, id, after.rows[id]);
      case Edit(id, _, _, _) => PutAdmitted(st, cfg, id, after.rows[id]);
      case Renew(id, _, _) => PutAdmitted(st, cfg, id, after.rows[id]);
    }
  }

  ghost predicate FreshRun(st: State, cfg: Config, events: seq<Event>)
    decreases |events|
  {
    events != [] ==> JudgedFresh(st, events[0]) && FreshRun(Step(st, cfg, events[0]), cfg, events[1..])
  }

  lemma {:induction false} RunKeepsBound(st: State, cfg: Config, events: seq<Event>)
    requires Bounded(st, cfg) && FreshRun(st, cfg, events)
    ensures Bounded(Run(st, cfg, events), cfg)
    decreases |events|
  {
    if events != [] {
      StepKeepsBound(st, cfg, events[0]);
      RunKeepsBound(Step(st, cfg, events[0]), cfg, events[1..]);
    }
  }

  lemma EmptyIsBounded(cfg: Config)
    ensures Bounded(EMPTY, cfg)
  {
    forall c ensures |Polled(EMPTY, c)| <= PollBound(Cap(cfg, c)) {
      assert Polled(EMPTY, c) == {};
    }
  }

  /** Over any run of sign-ups, confirmations, edits, renewals, expiries and
      deletions by mail and app, a city is never polled for more than
      cap + cap / 2 services. */
  lemma PollsStayBounded(cfg: Config, events: seq<Event>, city: string)
    requires FreshRun(EMPTY, cfg, events)
    ensures var cap := if city in cfg.maxPlans && cfg.maxPlans[city] != 0 then cfg.maxPlans[city] else cfg.default;
      |Polled(Run(EMPTY, cfg, events), city)| <= if cap >= 0 then cap + cap / 2 else 0
  {
    EmptyIsBounded(cfg);
    RunKeepsBound(EMPTY, cfg, events);
  }

  /** So polling any of the live subscriptions takes at most that many plans. */
  lemma PlansStayBounded(cfg: Config, events: seq<Event>, city: string, wishes: seq<Wish>)
    requires FreshRun(EMPTY, cfg, events)
    requires var st := Run(EMPTY, cfg, events);
      forall w :: w in wishes ==>
        exists id :: id in st.rows && Live(st.rows[id], st.now)
          && w == Wish(st.rows[id].city, Filter([st.rows[id].service], st.rows[id].locations))
    ensures var cap := if city in cfg.maxPlans && cfg.maxPlans[city] != 0 then cfg.maxPlans[city] else cfg.default;
      |InCity(Planned(wishes, cfg.maxPlans, cfg.default), city)| <= if cap >= 0 then cap + cap / 2 else 0
  {
    var st := Run(EMPTY, cfg, events);
    PollsStayBounded(cfg, events, city);
    PlansPerCity(wishes, cfg.maxPlans, cfg.default, city);
    forall s | s in WantedServices(wishes, city) ensures s in Polled(st, city) {
      var w :| w in wishes && w.city == city && s in w.filter.services;
      var id :| id in st.rows && Live(st.rows[id], st.now)
        && w == Wish(st.rows[id].city, Filter([st.rows[id].service], st.rows[id].locations));
      assert Counts(st, id, city, None);
    }
    SubsetCardinality(WantedServices(wishes, city), Polled(st, city));
  }

  // ---------------------------------------------------------------------
  // The app's share drains

  /** The services mail held in a city are all still held by mail. */
  predicate NoMailLeft(before: State, after: State, city: string) {
    MailServices(before, city, None) <= MailServices(after, city, None)
  }

  lemma SkipSelf(st: State, id: Id, city: string)
    requires id in st.rows && st.rows[id].push
    ensures MailServices(st, city, Some(id)) == MailServices(st, city, None)
    ensures AppServices(st, city, Some(id)) <= AppServices(st, city, None)
  {
    forall s | s in MailServices(st, city, None) ensures s in MailServices(st, city, Some(id)) {
      var i :| i in st.rows && Counts(st, i, city, None) && !st.rows[i].push && st.rows[i].service == s;
      assert Counts(st, i, city, Some(id));
    }
    forall s | s in MailServices(st, city, Some(id)) ensures s in MailServices(st, city, None) {
      var i :| i in st.rows && Counts(st, i, city, Some(id)) && !st.rows[i].push && st.rows[i].service == s;
      assert Counts(st, i, city, None);
    }
    forall s | s in AppServices(st, city, Some(id)) ensures s in AppServices(st, city, None) {
      var i :| i in st.rows && Counts(st, i, city, Some(id)) && st.rows[i].push && st.rows[i].service == s;
      assert Counts(st, i, city, None);
    }
  }

  lemma AppServicesAfterPut(st: State, id: Id, s: Sub, city: string)
    ensures AppServices(Put(st, id, s), city, None) <=
              AppServices(st, city, Some(id))
                + (if s.push && s.city == city && Live(s, st.now) then {s.service} else {})
  {
    var after := Put(st, id, s);
    forall x | x in AppServices(after, city, None)
      ensures x in AppServices(st, city, Some(id)) || (s.push && s.city == city && Live(s, st.now) && x == s.service)
    {
      var i :| i in after.rows && Counts(after, i, city, None) && after.rows[i].push && after.rows[i].service == x;
      assert i != id ==> Counts(st, i, city, Some(id));
    }
  }

  /** An app row put in place with the cap's leave keeps app-held services within
      the share, or where they were. */
  lemma PutAppAdmitted(st: State, cfg: Config, id: Id, s: Sub)
    requires s.push && (id in st.rows ==> st.rows[id].push)
    requires !Refused(st, cfg, Question(s.city, s.service, true, Some(id)))
    requires MailServices(st, s.city, Some(id)) == MailServices(st, s.city, None)
    requires AppServices(st, s.city, Some(id)) <= AppServices(st, s.city, None)
    requires NoMailLeft(st, Put(st, id, s), s.city)
    ensures |AppHeld(Put(st, id, s), s.city)| <= Max(|AppHeld(st, s.city)|, Cap(cfg, s.city) / 2)
  {
    var after := Put(st, id, s);
    AppServicesAfterPut(st, id, s, s.city);
    GrantKeepsTheShare(MailServices(st, s.city, None), MailServices(after, s.city, None),
                       AppServices(st, s.city, None), AppServices(st, s.city, Some(id)),
                         AppServices(after, s.city, None),
                       s.service, OwnLive(st, Some(id)), Cap(cfg, s.city));
  }

  lemma FewerAppServices(st: State, after: State, city: string)
    requires NoMailLeft(st, after, city)
    requires AppServices(after, city, None) <= AppServices(st, city, None)
    ensures |AppHeld(after, city)| <= |AppHeld(st, city)|
  {
    SubsetCardinality(AppHeld(after, city), AppHeld(st, city));
  }

  lemma SkipMail(st: State, id: Id, city: string)
    requires id !in st.rows || !st.rows[id].push
    ensures AppServices(st, city, Some(id)) == AppServices(st, city, None)
  {
    forall s | s in AppServices(st, city, None) ensures s in AppServices(st, city, Some(id)) {
      var i :| i in st.rows && Counts(st, i, city, None) && st.rows[i].push && st.rows[i].service == s;
      assert Counts(st, i, city, Some(id));
    }
    forall s | s in AppServices(st, city, Some(id)) ensures s in AppServices(st, city, None) {
      var i :| i in st.rows && Counts(st, i, city, Some(id)) && st.rows[i].push && st.rows[i].service == s;
      assert Counts(st, i, city, None);
    }
  }

  lemma NewRow(st: State, id: Id, city: string)
    requires id !in st.rows
    ensures MailServices(st, city, Some(id)) == MailServices(st, city, None)
    ensures AppServices(st, city, Some(id)) == AppServices(st, city, None)
    ensures OwnLive(st, Some(id)) == {}
  {
    assert forall i :: Counts(st, i, city, None) <==> Counts(st, i, city, Some(id));
  }

  /** An app row's change elsewhere, or a change that keeps it no more alive than it was. */
  lemma PutAppElsewhere(st: State, id: Id, s: Sub, city: string)
    requires s.push && id in st.rows && st.rows[id].push
    requires s.city == city && Live(s, st.now) ==>
               Live(st.rows[id], st.now) && s.city == st.rows[id].city && s.service == st.rows[id].service
    ensures AppServices(Put(st, id, s), city, None) <= AppServices(st, city, None)
  {
    AppServicesAfterPut(st, id, s, city);
    SkipSelf(st, id, city);
    if s.city == city && Live(s, st.now) {
      assert Counts(st, id, city, None);
    }
  }

  lemma LaterFewerApps(st: State, after: State, city: string)
    requires st.now <= after.now
    requires forall id :: id in after.rows ==> id in st.rows && after.rows[id] == st.rows[id]
    ensures AppServices(after, city, None) <= AppServices(st, city, None)
  {
    forall id | id in after.rows && Counts(after, id, city, None) ensures Counts(st, id, city, None) {
    }
  }

  lemma MailPutKeepsApps(st: State, id: Id, s: Sub, city: string)
    requires !s.push && (id in st.rows ==> !st.rows[id].push)
    ensures AppServices(Put(st, id, s), city, None) <= AppServices(st, city, None)
  {
    AppServicesAfterPut(st, id, s, city);
    SkipMail(st, id, city);
  }

  /** The step gave, or left, an app row of the city its place by the cap's leave. */
  predicate AppAdmission(st: State, cfg: Config, e: Event, city: string) {
    var after := Step(st, cfg, e);
    && (e.AppSignUp? || e.Edit? || e.Renew?)
    && after != st && e.id in after.rows && after.rows[e.id].push && after.rows[e.id].city == city
  }

  lemma AppRowAdmitted(st: State, cfg: Config, e: Event, city: string)
    requires AppAdmission(st, cfg, e, city)
    requires JudgedFresh(st, e) && NoMailLeft(st, Step(st, cfg, e), city)
    ensures |AppHeld(Step(st, cfg, e), city)| <= Max(|AppHeld(st, city)|, Cap(cfg, city) / 2)
  {
    var s := Step(st, cfg, e).rows[e.id];
    if e.AppSignUp? {
      NewRow(st, e.id, city);
      NobodyToSkip(st, cfg, city, s.service, true, e.id);
    } else {
      SkipSelf(st, e.id, city);
    }
    PutAppAdmitted(st, cfg, e.id, s);
  }

  lemma NoAppGain(st: State, cfg: Config, e: Event, city: string)
    requires !AppAdmission(st, cfg, e, city)
    ensures AppServices(Step(st, cfg, e), city, None) <= AppServices(st, city, None)
  {
    var after := Step(st, cfg, e);
    if e.Tick? || e.Purge? {
      LaterFewerApps(st, after, city);
    } else if after != st {
      var s := after.rows[e.id];
      assert after == Put(st, e.id, s);
      if !s.push {
        MailPutKeepsApps(st, e.id, s, city);
      } else if e.AppSignUp? {
        AppServicesAfterPut(st, e.id, s, city);
        NewRow(st, e.id, city);
      } else {
        PutAppElsewhere(st, e.id, s, city);
      }
    }
  }

  /** Past the share, only a mail subscriber leaving a service makes app-held
      services more: any other step leaves them within the share or no more than
      they were. */
  lemma OnlyMailLeavingGrowsAppHeld(st: State, cfg: Config, e: Event, city: string)
    requires JudgedFresh(st, e) && NoMailLeft(st, Step(st, cfg, e), city)
    ensures |AppHeld(Step(st, cfg, e), city)| <= Max(|AppHeld(st, city)|, Cap(cfg, city) / 2)
  {
    if AppAdmission(st, cfg, e, city) {
      AppRowAdmitted(st, cfg, e, city);
    } else {
      NoAppGain(st, cfg, e, city);
      FewerAppServices(st, Step(st, cfg, e), city);
    }
  }

  lemma AppServicesWithSelf(st: State, id: Id, city: string)
    requires id in st.rows
    ensures AppServices(st, city, None) <= AppServices(st, city, Some(id)) + {st.rows[id].service}
  {
    forall x | x in AppServices(st, city, None)
      ensures x in AppServices(st, city, Some(id)) || x == st.rows[id].service
    {
      var i :| i in st.rows && Counts(st, i, city, None) && st.rows[i].push && st.rows[i].service == x;
      assert i != id ==> Counts(st, i, city, Some(id));
    }
  }

  /** App-held services are past the share in the row's city, and no mail
      subscriber holds the row's service. */
  predicate PastTheShare(st: State, cfg: Config, s: Sub) {
    |AppHeld(st, s.city)| > Cap(cfg, s.city) / 2 && s.service !in MailServices(st, s.city, None)
  }

  lemma AppHeldIsRefused(st: State, cfg: Config, id: Id)
    requires id in st.rows && st.rows[id].push && PastTheShare(st, cfg, st.rows[id])
    ensures Refused(st, cfg, Question(st.rows[id].city, st.rows[id].service, true, Some(id)))
  {
    var s := st.rows[id];
    var mail, app := MailServices(st, s.city, None), AppServices(st, s.city, None);
    var others := AppServices(st, s.city, Some(id));
    assert app <= others + {s.service} by { AppServicesWithSelf(st, id, s.city); }
    assert mail == MailServices(st, s.city, Some(id)) by { SkipSelf(st, id, s.city); }
    NoAppPlaceOverTheShare(mail, app, others, s.service, OwnLive(st, Some(id)), Cap(cfg, s.city));
  }

  lemma RefusedChangesNothing(st: State, cfg: Config, e: Event)
    requires Asked(st, e).Some? && Refused(st, cfg, Asked(st, e).value)
    ensures Step(st, cfg, e) == st
  {
  }

  lemma AppRenewalAsks(st: State, id: Id, e: Event)
    requires id in st.rows && st.rows[id].push && e.Renew? && e.id == id && e.judged == st.rows[id].service
    ensures Asked(st, e) == Some(Question(st.rows[id].city, st.rows[id].service, true, Some(id)))
  {
  }

  /** Past the share no renewal on an app-held service is accepted. */
  lemma AppHeldRenewalsAreRefused(st: State, cfg: Config, id: Id, e: Event)
    requires id in st.rows && st.rows[id].push && PastTheShare(st, cfg, st.rows[id])
    requires e.Renew? && e.id == id && e.judged == st.rows[id].service
    ensures Step(st, cfg, e) == st
  {
    AppHeldIsRefused(st, cfg, id);
    AppRenewalAsks(st, id, e);
    RefusedChangesNothing(st, cfg, e);
  }

  lemma AppPlaceIsWebPlace(st: State, cfg: Config, city: string, service: Service)
    requires !Refused(st, cfg, Question(city, service, true, None))
    ensures !Refused(st, cfg, Question(city, service, false, None))
  {
    var mail, app, own := MailServices(st, city, None), AppServices(st, city, None), OwnLive(st, None);
    OneServiceRule(mail, app, service, Cap(cfg, city), true, own);
    OneServiceRule(mail, app, service, Cap(cfg, city), false, own);
    AppGrantIsWebGrant(mail, app, {service}, own, Cap(cfg, city));
  }

  /** Whatever sign-up the app is granted, the website would be granted it too. */
  lemma AppSignUpsAreWebSignUps(st: State, cfg: Config, id: Id, city: string, service: Service, locations: Locations,
                                expires: int)
    requires Step(st, cfg, AppSignUp(id, city, service, locations, expires)) != st
    ensures id in Step(st, cfg, MailSignUp(id, city, service, locations, expires)).rows
  {
    AppPlaceIsWebPlace(st, cfg, city, service);
  }
}
