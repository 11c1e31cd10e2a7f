/** How tight the polling bound is, and what it rests on. Confirming and renewing ask
    the cap about the service they read from the row before their transaction began
    (app/web.py `confirm_route`, `renew_route`, app/api.py `renew`). The bound holds
    while that is still the row's service (`Admission.PollsStayBounded`), it is
    reached, and it is left by one service whenever the two differ: for every city
    with a plan and every two services. */
module StaleReads {
  import opened Common
  import opened Planning
  import opened PlanCap
  import opened Admission

  const OFFICES: Locations := Offices(["office"])

  /** Two different services of a city, one a request read, one its row carries by
      then, and which request it is. */
  datatype Race = Race(city: string, judged: Service, held: Service, kind: Kind)
  datatype Kind = Confirmation | MailRenewal | AppRenewal

  predicate Differ(r: Race) {
    r.judged != r.held
  }

  // ---------------------------------------------------------------------
  // Runs

  /** The row that races: out of the running, carrying another service than the one
      a request for it has just read. */
  function Waiting(r: Race): Sub {
    Sub(r.city, r.kind.AppRenewal?, r.held, OFFICES, !r.kind.Confirmation?, false,
      if r.kind.Confirmation? then 100 else 1)
  }

  /** That request. */
  function Last(r: Race): Event {
    if r.kind.Confirmation? then Confirm(0, r.judged) else Renew(0, r.judged, 100)
  }

  lemma {:induction false} RunAppend(st: State, cfg: Config, a: seq<Event>, b: seq<Event>)
    ensures Run(st, cfg, a + b) == Run(Run(st, cfg, a), cfg, b)
    ensures FreshRun(st, cfg, a + b) == (FreshRun(st, cfg, a) && FreshRun(Run(st, cfg, a), cfg, b))
    decreases |a|
  {
    if a == [] {
      assert a + b == b;
    } else {
      assert (a + b)[1..] == a[1..] + b;
      RunAppend(Step(st, cfg, a[0]), cfg, a[1..], b);
    }
  }

  /** Requests that were each judged on what its row still carries lead here. */
  ghost predicate Leads(cfg: Config, st: State) {
    exists events :: FreshRun(EMPTY, cfg, events) && Run(EMPTY, cfg, events) == st
  }

  lemma RunSnoc(cfg: Config, events: seq<Event>, e: Event)
    ensures Run(EMPTY, cfg, events + [e]) == Step(Run(EMPTY, cfg, events), cfg, e)
    ensures FreshRun(EMPTY, cfg, events + [e])
        == (FreshRun(EMPTY, cfg, events) && JudgedFresh(Run(EMPTY, cfg, events), e))
  {
    RunAppend(EMPTY, cfg, events, [e]);
    assert [e][1..] == [];
  }

  lemma OneMore(cfg: Config, st: State, e: Event, after: State)
    requires Leads(cfg, st) && JudgedFresh(st, e) && Step(st, cfg, e) == after
    ensures Leads(cfg, after)
  {
    var events :| FreshRun(EMPTY, cfg, events) && Run(EMPTY, cfg, events) == st;
    RunSnoc(cfg, events, e);
  }

  // ---------------------------------------------------------------------
  // What each step does

  /** A row that is not live adds nothing, wherever it is left out. */
  lemma DormantRow(st: State, id: Id, city: string)
    requires id in st.rows ==> !Live(st.rows[id], st.now)
    ensures MailServices(st, city, Some(id)) == MailServices(st, city, None)
    ensures AppServices(st, city, Some(id)) == AppServices(st, city, None)
    ensures OwnLive(st, Some(id)) == {}
  {
    assert forall i :: Counts(st, i, city, None) <==> Counts(st, i, city, Some(id));
  }

  lemma LiveRow(st: State, id: Id, s: Sub)
    requires id in st.rows ==> !Live(st.rows[id], st.now)
    requires Live(s, st.now)
    ensures s.push ==> MailServices(Put(st, id, s), s.city, None) == MailServices(st, s.city, None)
    ensures s.push ==> AppServices(Put(st, id, s), s.city, None) == AppServices(st, s.city, None) + {s.service}
    ensures !s.push ==> MailServices(Put(st, id, s), s.city, None) == MailServices(st, s.city, None) + {s.service}
    ensures !s.push ==> AppServices(Put(st, id, s), s.city, None) == AppServices(st, s.city, None)
  {
    var after := Put(st, id, s);
    assert forall i :: i != id ==> (Counts(after, i, s.city, None) <==> Counts(st, i, s.city, None));
    assert Counts(after, id, s.city, None) && !Counts(st, id, s.city, None);
  }

  lemma StepGranted(st: State, cfg: Config, e: Event)
    requires Asked(st, e).Some? ==> !Refused(st, cfg, Asked(st, e).value)
    ensures Step(st, cfg, e) == Granted(st, e)
  {
  }

  /** A pending row changes no verdict. */
  lemma PendingRow(st: State, cfg: Config, id: Id, s: Sub)
    requires id !in st.rows && !Live(s, st.now) && !s.push
    requires !Refused(st, cfg, Question(s.city, s.service, s.push, None))
    ensures Asked(Put(st, id, s), Confirm(id, s.service)) == Some(Question(s.city, s.service, false, Some(id)))
    ensures !Refused(Put(st, id, s), cfg, Question(s.city, s.service, false, Some(id)))
  {
    DormantRow(st, id, s.city);
    DormantRow(Put(st, id, s), id, s.city);
    OthersUnchanged(st, id, s, s.city);
  }

  lemma PutTwice(st: State, id: Id, s: Sub, t: Sub)
    ensures Put(Put(st, id, s), id, t) == Put(st, id, t)
  {
    assert st.rows[id := s][id := t] == st.rows[id := t];
  }

  /** Signing up by mail and confirming at once. */
  lemma MailSignsUp(st: State, cfg: Config, id: Id, s: Sub)
    requires id !in st.rows && !s.push && !s.confirmed && !s.deleted
    requires !Refused(st, cfg, Question(s.city, s.service, s.push, None))
    ensures Step(st, cfg, MailSignUp(id, s.city, s.service, s.locations, s.expires)) == Put(st, id, s)
    ensures Step(Put(st, id, s), cfg, Confirm(id, s.service)) == Put(st, id, s.(confirmed := true))
  {
    StepGranted(st, cfg, MailSignUp(id, s.city, s.service, s.locations, s.expires));
    PendingRow(st, cfg, id, s);
    StepGranted(Put(st, id, s), cfg, Confirm(id, s.service));
    PutTwice(st, id, s, s.(confirmed := true));
  }

  lemma MailJoins(cfg: Config, st: State, id: Id, s: Sub)
    requires Leads(cfg, st) && id !in st.rows && !s.push && s.confirmed && !s.deleted
    requires !Refused(st, cfg, Question(s.city, s.service, s.push, None))
    ensures Leads(cfg, Put(st, id, s))
  {
    var before := s.(confirmed := false);
    MailSignsUp(st, cfg, id, before);
    OneMore(cfg, st, MailSignUp(id, s.city, s.service, s.locations, s.expires), Put(st, id, before));
    OneMore(cfg, Put(st, id, before), Confirm(id, s.service), Put(st, id, s));
  }

  lemma AppJoins(cfg: Config, st: State, id: Id, s: Sub)
    requires Leads(cfg, st) && id !in st.rows && s.push && s.confirmed && !s.deleted
    requires !Refused(st, cfg, Question(s.city, s.service, s.push, None))
    ensures Leads(cfg, Put(st, id, s))
  {
    var e := AppSignUp(id, s.city, s.service, s.locations, s.expires);
    StepGranted(st, cfg, e);
    OneMore(cfg, st, e, Put(st, id, s));
  }

  // ---------------------------------------------------------------------
  // Filling a city

  predicate InPlay(cfg: Config, r: Race, apps: nat, mails: nat) {
    && Differ(r) && 1 <= Cap(cfg, r.city)
    && apps <= Cap(cfg, r.city) / 2 && mails <= Cap(cfg, r.city)
        && (mails > 0 ==> apps == Cap(cfg, r.city) / 2)
  }

  /** App subscriptions watch `apps` services, mail `mails` others, the judged one first
      among them; nobody watches the one the waiting row carries. */
  predicate Holding(r: Race, mail: set<Service>, app: set<Service>, apps: nat, mails: nat) {
    && |app| == apps && |mail| == mails && (forall s :: s in mail ==> s !in app)
    && r.held !in mail && r.held !in app && r.judged !in app && (mails > 0 ==> r.judged in mail)
  }

  ghost predicate Filled(st: State, r: Race, apps: nat, mails: nat) {
    && st.now == 2 && 0 in st.rows && st.rows[0] == Waiting(r)
    && (forall id :: id in st.rows ==> id <= apps + mails)
    && Holding(r, MailServices(st, r.city, None), AppServices(st, r.city, None), apps, mails)
  }

  lemma {:induction false} NoLonger(taken: set<Service>) returns (n: nat)
    ensures forall s :: s in taken ==> |s| <= n
    decreases |taken|
  {
    if taken == {} {
      n := 0;
    } else {
      var s :| s in taken;
      var m := NoLonger(taken - {s});
      n := Max(m, |s|);
    }
  }

  /** There is always another service. */
  lemma Another(taken: set<Service>) returns (s: Service)
    ensures s !in taken
  {
    var n := NoLonger(taken);
    s := seq(n + 1, i => 'x');
  }

  lemma RoomForAll(mail: set<Service>, app: set<Service>, name: Service, cap: int, push: bool)
    requires (forall s :: s in mail ==> s !in app) && name !in mail && name !in app
    requires if push then mail == {} && |app| + 1 <= cap / 2 else |app| <= cap / 2 && |mail| + 1 <= cap
    ensures !PlaceRefused(mail, app, name, cap, push, {})
  {
    assert app - mail == app;
  }

  lemma LedByApp(cfg: Config, r: Race, apps: nat, st: State, s: Sub)
    requires InPlay(cfg, r, apps + 1, 0) && Leads(cfg, st) && Filled(st, r, apps, 0)
    requires s == Sub(r.city, true, s.service, OFFICES, true, false, 100)
    requires s.service !in AppServices(st, r.city, None)
    ensures Leads(cfg, Put(st, apps + 1, s))
  {
    RoomForAll(MailServices(st, r.city, None), AppServices(st, r.city, None), s.service, Cap(cfg, r.city), true);
    assert apps + 1 !in st.rows;
    AppJoins(cfg, st, apps + 1, s);
  }

  lemma FilledByApp(r: Race, apps: nat, st: State, s: Sub)
    requires Filled(st, r, apps, 0) && s == Sub(r.city, true, s.service, OFFICES, true, false, 100)
    requires Holding(r, MailServices(st, r.city, None), AppServices(st, r.city, None) + {s.service}, apps + 1, 0)
    ensures Filled(Put(st, apps + 1, s), r, apps + 1, 0)
  {
    LiveRow(st, apps + 1, s);
  }

  lemma OneMoreApp(cfg: Config, r: Race, apps: nat, st: State) returns (after: State)
    requires InPlay(cfg, r, apps + 1, 0) && Leads(cfg, st) && Filled(st, r, apps, 0)
    ensures Leads(cfg, after) && Filled(after, r, apps + 1, 0)
  {
    var name := Another(AppServices(st, r.city, None) + {r.judged, r.held});
    var s := Sub(r.city, true, name, OFFICES, true, false, 100);
    after := Put(st, apps + 1, s);
    LedByApp(cfg, r, apps, st, s);
    FilledByApp(r, apps, st, s);
  }

  lemma NextMail(r: Race, mail: set<Service>, app: set<Service>, apps: nat, mails: nat) returns (name: Service)
    requires Differ(r) && Holding(r, mail, app, apps, mails)
    ensures name !in mail && name !in app && Holding(r, mail + {name}, app, apps, mails + 1)
  {
    name := r.judged;
    if mails > 0 {
      name := Another(mail + app + {r.held});
    }
  }

  /** Mail still finds a place in the city. */
  predicate RoomForMail(cfg: Config, st: State, city: string) {
    var mail, app := MailServices(st, city, None), AppServices(st, city, None);
    && (forall s :: s in mail ==> s !in app)
    && |app| <= Cap(cfg, city) / 2 && |mail| + 1 <= Cap(cfg, city)
  }

  lemma PlaceLeft(cfg: Config, r: Race, apps: nat, mails: nat, st: State)
    requires InPlay(cfg, r, apps, mails + 1) && Filled(st, r, apps, mails)
    ensures RoomForMail(cfg, st, r.city) && apps + mails + 1 !in st.rows
  {
  }

  lemma JoinsByMail(cfg: Config, st: State, id: Id, city: string, name: Service)
    requires Leads(cfg, st) && id !in st.rows && RoomForMail(cfg, st, city)
    requires name !in MailServices(st, city, None) && name !in AppServices(st, city, None)
    ensures Leads(cfg, Put(st, id, Sub(city, false, name, OFFICES, true, false, 100)))
  {
    RoomForAll(MailServices(st, city, None), AppServices(st, city, None), name, Cap(cfg, city), false);
    MailJoins(cfg, st, id, Sub(city, false, name, OFFICES, true, false, 100));
  }

  lemma FilledByMail(r: Race, apps: nat, mails: nat, st: State, s: Sub)
    requires Filled(st, r, apps, mails) && s == Sub(r.city, false, s.service, OFFICES, true, false, 100)
    requires Holding(r, MailServices(st, r.city, None) + {s.service}, AppServices(st, r.city, None), apps, mails + 1)
    ensures Filled(Put(st, apps + mails + 1, s), r, apps, mails + 1)
  {
    LiveRow(st, apps + mails + 1, s);
  }

  lemma NextFilled(r: Race, apps: nat, mails: nat, st: State) returns (name: Service)
    requires Differ(r) && Filled(st, r, apps, mails)
    ensures name !in MailServices(st, r.city, None) && name !in AppServices(st, r.city, None)
    ensures Filled(Put(st, apps + mails + 1, Sub(r.city, false, name, OFFICES, true, false, 100)), r, apps, mails + 1)
  {
    name := NextMail(r, MailServices(st, r.city, None), AppServices(st, r.city, None), apps, mails);
    FilledByMail(r, apps, mails, st, Sub(r.city, false, name, OFFICES, true, false, 100));
  }

  lemma OneMoreMail(cfg: Config, r: Race, apps: nat, mails: nat, st: State) returns (after: State)
    requires InPlay(cfg, r, apps, mails + 1) && Leads(cfg, st) && Filled(st, r, apps, mails)
    ensures Leads(cfg, after) && Filled(after, r, apps, mails + 1)
  {
    var name := NextFilled(r, apps, mails, st);
    PlaceLeft(cfg, r, apps, mails, st);
    JoinsByMail(cfg, st, apps + mails + 1, r.city, name);
    after := Put(st, apps + mails + 1, Sub(r.city, false, name, OFFICES, true, false, 100));
  }

  // ---------------------------------------------------------------------
  // The row that waits

  lemma NothingHeld(now: int, city: string, rows: map<Id, Sub>)
    requires forall id :: id in rows ==> id == 0 && !Live(rows[0], now)
    ensures MailServices(State(now, rows), city, None) == {} == AppServices(State(now, rows), city, None)
  {
  }

  lemma FirstFits(cfg: Config, st: State, r: Race, service: Service, skip: Option<Id>)
    requires 1 <= Cap(cfg, r.city)
    requires MailServices(st, r.city, skip) == {} == AppServices(st, r.city, skip)
    ensures !Refused(st, cfg, Question(r.city, service, false, skip))
  {
    var none: set<Service> := {};
    assert none - none == {};
  }

  lemma RowZeroEdited(cfg: Config, st: State, r: Race)
    requires 1 <= Cap(cfg, r.city) && st.rows.Keys == {0} && st.now == 2
    requires st.rows[0] == Waiting(r).(service := r.judged) && !r.kind.AppRenewal?
    ensures Step(st, cfg, Edit(0, r.held, OFFICES, Waiting(r).expires)) == State(2, map[0 := Waiting(r)])
  {
    NothingHeld(2, r.city, st.rows);
    DormantRow(st, 0, r.city);
    FirstFits(cfg, st, r, r.held, Some(0));
    StepGranted(st, cfg, Edit(0, r.held, OFFICES, Waiting(r).expires));
    assert st.rows[0 := Waiting(r)] == map[0 := Waiting(r)];
  }

  lemma SignUpFirst(cfg: Config, r: Race, s: Sub)
    requires 1 <= Cap(cfg, r.city) && s.city == r.city && !s.push && !s.confirmed && !s.deleted
    ensures !Refused(EMPTY, cfg, Question(r.city, s.service, false, None))
    ensures Step(EMPTY, cfg, MailSignUp(0, s.city, s.service, s.locations, s.expires)) == State(0, map[0 := s])
  {
    NothingHeld(0, r.city, map[]);
    FirstFits(cfg, EMPTY, r, s.service, None);
    StepGranted(EMPTY, cfg, MailSignUp(0, s.city, s.service, s.locations, s.expires));
  }

  lemma OpenedByMail(cfg: Config, r: Race)
    requires Differ(r) && 1 <= Cap(cfg, r.city) && !r.kind.AppRenewal?
    ensures Leads(cfg, State(2, map[0 := Waiting(r)]))
  {
    var row := Waiting(r).(service := r.judged, confirmed := false);
    SignUpFirst(cfg, r, row);
    assert Run(EMPTY, cfg, []) == EMPTY;
    OneMore(cfg, EMPTY, MailSignUp(0, r.city, r.judged, OFFICES, row.expires), State(0, map[0 := row]));
    if r.kind.MailRenewal? {
      MailSignsUp(EMPTY, cfg, 0, row);
      OneMore(cfg, State(0, map[0 := row]), Confirm(0, r.judged), State(0, map[0 := row.(confirmed := true)]));
    }
    var held := row.(confirmed := r.kind.MailRenewal?);
    OneMore(cfg, State(0, map[0 := held]), Tick(2), State(2, map[0 := held]));
    RowZeroEdited(cfg, State(2, map[0 := held]), r);
    OneMore(cfg, State(2, map[0 := held]), Edit(0, r.held, OFFICES, held.expires), State(2, map[0 := Waiting(r)]));
  }

  // An app row may have to be let onto a service that mail holds, when the app has no
  // share of its own: a mail row holds each service in turn for it, and goes.

  function Helper(r: Race, service: Service): Sub {
    Sub(r.city, false, service, OFFICES, true, false, 100)
  }

  lemma HeldByMail(st: State, cfg: Config, q: Question, id: Id)
    requires Counts(st, id, q.city, q.skip) && !st.rows[id].push && st.rows[id].service == q.service
    ensures !Refused(st, cfg, q)
  {
    assert q.service in MailServices(st, q.city, q.skip);
  }

  lemma HelperComes(cfg: Config, r: Race)
    requires 1 <= Cap(cfg, r.city)
    ensures Leads(cfg, State(0, map[1 := Helper(r, r.judged)]))
  {
    NothingHeld(0, r.city, map[]);
    FirstFits(cfg, EMPTY, r, r.judged, None);
    assert FreshRun(EMPTY, cfg, []) && Run(EMPTY, cfg, []) == EMPTY;
    MailJoins(cfg, EMPTY, 1, Helper(r, r.judged));
    assert Put(EMPTY, 1, Helper(r, r.judged)) == State(0, map[1 := Helper(r, r.judged)]);
  }

  /** The app row beside the mail row that holds a place for it. */
  function Both(now: int, row: Sub, helper: Sub): State {
    State(now, map[0 := row, 1 := helper])
  }

  lemma AppComes(cfg: Config, r: Race, row: Sub)
    requires 1 <= Cap(cfg, r.city) && row == Sub(r.city, true, r.judged, OFFICES, true, false, 1)
    ensures Leads(cfg, Both(0, row, Helper(r, r.judged)))
  {
    HelperComes(cfg, r);
    var st := State(0, map[1 := Helper(r, r.judged)]);
    HeldByMail(st, cfg, Question(r.city, r.judged, true, None), 1);
    AppJoins(cfg, st, 0, row);
    assert Put(st, 0, row) == Both(0, row, Helper(r, r.judged));
  }

  lemma HelperMoves(cfg: Config, r: Race, row: Sub)
    requires 1 <= Cap(cfg, r.city) && row.push && row.expires == 1
    ensures Step(Both(2, row, Helper(r, r.judged)), cfg, Edit(1, r.held, OFFICES, 100))
        == Both(2, row, Helper(r, r.held))
  {
    var st := Both(2, row, Helper(r, r.judged));
    assert MailServices(st, r.city, Some(1)) == {} == AppServices(st, r.city, Some(1));
    FirstFits(cfg, st, r, r.held, Some(1));
    StepGranted(st, cfg, Edit(1, r.held, OFFICES, 100));
    assert Put(st, 1, Helper(r, r.held)) == Both(2, row, Helper(r, r.held));
  }

  lemma AppIsLetOn(cfg: Config, r: Race, row: Sub)
    ensures !Refused(Both(2, row, Helper(r, r.held)), cfg, Question(r.city, r.held, true, Some(0)))
  {
    HeldByMail(Both(2, row, Helper(r, r.held)), cfg, Question(r.city, r.held, true, Some(0)), 1);
  }

  lemma AppMoved(r: Race, row: Sub)
    requires row.push && row.city == r.city && row.locations == OFFICES && row.expires == 1
    ensures var st := Both(2, row, Helper(r, r.held));
      && Asked(st, Edit(0, r.held, OFFICES, 1)) == Some(Question(r.city, r.held, true, Some(0)))
      && Granted(st, Edit(0, r.held, OFFICES, 1)) == Both(2, row.(service := r.held), Helper(r, r.held))
  {
    var st := Both(2, row, Helper(r, r.held));
    assert Put(st, 0, row.(service := r.held)) == Both(2, row.(service := r.held), Helper(r, r.held));
  }

  lemma AppMoves(cfg: Config, r: Race, row: Sub)
    requires row.push && row.city == r.city && row.locations == OFFICES && row.expires == 1
    ensures Step(Both(2, row, Helper(r, r.held)), cfg, Edit(0, r.held, OFFICES, 1))
      == Both(2, row.(service := r.held), Helper(r, r.held))
  {
    AppIsLetOn(cfg, r, row);
    AppMoved(r, row);
  }

  lemma HelperGoes(cfg: Config, row: Sub, helper: Sub)
    ensures Step(Both(2, row, helper), cfg, Purge(1)) == State(2, map[0 := row])
  {
    assert Both(2, row, helper).rows - {1} == map[0 := row];
  }

  lemma OpenedByApp(cfg: Config, r: Race)
    requires Differ(r) && 1 <= Cap(cfg, r.city) && r.kind.AppRenewal?
    ensures Leads(cfg, State(2, map[0 := Waiting(r)]))
  {
    var row, first, second := Waiting(r).(service := r.judged), Helper(r, r.judged), Helper(r, r.held);
    AppComes(cfg, r, row);
    OneMore(cfg, Both(0, row, first), Tick(2), Both(2, row, first));
    HelperMoves(cfg, r, row);
    OneMore(cfg, Both(2, row, first), Edit(1, r.held, OFFICES, 100), Both(2, row, second));
    AppMoves(cfg, r, row);
    OneMore(cfg, Both(2, row, second), Edit(0, r.held, OFFICES, 1), Both(2, Waiting(r), second));
    HelperGoes(cfg, Waiting(r), second);
    OneMore(cfg, Both(2, Waiting(r), second), Purge(1), State(2, map[0 := Waiting(r)]));
  }

  lemma {:induction false} Fill(cfg: Config, r: Race, apps: nat, mails: nat) returns (st: State)
    requires InPlay(cfg, r, apps, mails)
    ensures Leads(cfg, st) && Filled(st, r, apps, mails)
    decreases apps + mails
  {
    if mails > 0 {
      st := Fill(cfg, r, apps, mails - 1);
      st := OneMoreMail(cfg, r, apps, mails - 1, st);
    } else if apps > 0 {
      st := Fill(cfg, r, apps - 1, 0);
      st := OneMoreApp(cfg, r, apps - 1, st);
    } else {
      st := State(2, map[0 := Waiting(r)]);
      if r.kind.AppRenewal? {
        OpenedByApp(cfg, r);
      } else {
        OpenedByMail(cfg, r);
      }
      NothingHeld(2, r.city, st.rows);
    }
  }

  /** As many services as the bound allows. */
  lemma FullCity(cfg: Config, r: Race) returns (events: seq<Event>)
    requires Differ(r) && 1 <= Cap(cfg, r.city)
    ensures FreshRun(EMPTY, cfg, events)
    ensures var st := Run(EMPTY, cfg, events);
      && st.now == 2 && 0 in st.rows && st.rows[0] == Waiting(r)
      && |Polled(st, r.city)| == PollBound(Cap(cfg, r.city)) && r.held !in Polled(st, r.city)
      && r.judged in MailServices(st, r.city, None)
  {
    var st := Fill(cfg, r, Cap(cfg, r.city) / 2, Cap(cfg, r.city));
    PolledSize(MailServices(st, r.city, None), AppServices(st, r.city, None));
    assert AppServices(st, r.city, None) - MailServices(st, r.city, None) == AppServices(st, r.city, None);
    events :| FreshRun(EMPTY, cfg, events) && Run(EMPTY, cfg, events) == st;
  }

  // ---------------------------------------------------------------------
  // Main results

  /** The bound is the best there is: in every city with a plan a run of requests,
      each judged on what its row still carries, reaches it. */
  lemma TheBoundIsReached(cfg: Config, city: string)
    requires 1 <= Cap(cfg, city)
    ensures exists events :: FreshRun(EMPTY, cfg, events)
              && |Polled(Run(EMPTY, cfg, events), city)| == Cap(cfg, city) + Cap(cfg, city) / 2
  {
    var events := FullCity(cfg, Race(city, "", "held", MailRenewal));
  }

  lemma JudgedIsPolled(st: State, cfg: Config, r: Race)
    requires r.judged in MailServices(st, r.city, Some(0))
    ensures !Refused(st, cfg, Question(r.city, r.judged, r.kind.AppRenewal?, Some(0)))
  {
  }

  lemma LastGranted(st: State, r: Race)
    requires 0 in st.rows && st.rows[0] == Waiting(r)
    ensures Granted(st, Last(r)) == Put(st, 0, Waiting(r).(confirmed := true, expires := 100))
  {
  }

  lemma LastStep(cfg: Config, r: Race, st: State)
    requires st.now == 2 && 0 in st.rows && st.rows[0] == Waiting(r) && r.judged in MailServices(st, r.city, None)
    ensures Step(st, cfg, Last(r)) == Put(st, 0, Waiting(r).(confirmed := true, expires := 100))
  {
    DormantRow(st, 0, r.city);
    JudgedIsPolled(st, cfg, r);
    assert Asked(st, Last(r)) == Some(Question(r.city, r.judged, r.kind.AppRenewal?, Some(0)));
    LastGranted(st, r);
  }

  /** The racing request takes effect on a full city. */
  lemma LastOneIn(cfg: Config, r: Race, st: State)
    requires Differ(r) && st.now == 2 && 0 in st.rows && st.rows[0] == Waiting(r)
    requires r.judged in MailServices(st, r.city, None)
    ensures !JudgedFresh(st, Last(r)) && Polled(Step(st, cfg, Last(r)), r.city) == Polled(st, r.city) + {r.held}
  {
    LastStep(cfg, r, st);
    LiveRow(st, 0, Waiting(r).(confirmed := true, expires := 100));
  }

  /** One request judged on a service its row has given up leaves the bound,
      whichever two services they are, confirming or renewing, by mail or by app. */
  lemma AStaleReadLeavesTheBound(cfg: Config, r: Race)
    requires Differ(r) && 1 <= Cap(cfg, r.city)
    ensures exists events ::
              && FreshRun(EMPTY, cfg, events)
              && !JudgedFresh(Run(EMPTY, cfg, events), Last(r))
              && |Polled(Run(EMPTY, cfg, events + [Last(r)]), r.city)| == Cap(cfg, r.city) + Cap(cfg, r.city) / 2 + 1
  {
    var events := FullCity(cfg, r);
    LastOneIn(cfg, r, Run(EMPTY, cfg, events));
    RunSnoc(cfg, events, Last(r));
  }
}
