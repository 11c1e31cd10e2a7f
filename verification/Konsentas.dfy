/** The konsentas session (app/scrapers/konsentas.py). */
module Konsentas {
  import opened Common

  // One cached sign-up per form, walked forward to the slots and back, and replaced at most
  // every half hour, against an arbitrary server.

  type Form = nat
  type Token = nat

  /** Where a sign-up stands: choosing services, choosing a slot, anywhere else; and,
      as far as the poller tracks it, possibly unknown. */
  datatype Stage = Services | Termin | Other(name: nat) | Unknown

  /** What came back: an answer, an error reply (the token refused, or anything else),
      or nothing at all. */
  datatype Reply = Answered | Refused(stale: bool) | Lost

  /** The n-th answer of the server. `moved` is where the sign-up really went, whatever
      the reply says; an answer tells the truth about it. */
  datatype Answer = Answer(reply: Reply, moved: Option<Stage>, elapsed: nat)
  type Server = nat -> Answer

  const TOKEN_TTL := 7 * 3600
  const REOPEN := 1800

  datatype Kind = Open | Forward | Back | Slots

  /** A request as it went out: what the poller took the step to be, what it was, what
      became of it, and whether its poll was at the second attempt. */
  datatype Sent = Sent(kind: Kind, form: Form, at: int, tracked: Stage, from: Stage, reply: Reply, to: Stage,
                       second: bool)

  datatype Session = Session(token: Token, stage: Stage, at: int)

  /** The module's two dictionaries, the clock, and, for the proofs, where each sign-up
      really stands, every request made, and which attempt of a poll this is. */
  datatype State = State(now: int, sessions: map<Form, Session>, lastOpened: map<Form, int>,
                         standing: map<Token, Stage>, log: seq<Sent>, second: bool)

  datatype Outcome = Fetched | AtServices | Failed(stale: bool)

  // ---------------------------------------------------------------------
  // Requests

  function Really(st: State, token: Token): Stage {
    if token in st.standing then st.standing[token] else Unknown
  }

  /** One request of a sign-up's step machine, and its reply. */
  function Request(server: Server, st: State, form: Form, token: Token, kind: Kind, tracked: Stage): (r: (Reply, State))
    ensures st.log <= r.1.log && r.1.second == st.second
  {
    var a := server(|st.log|);
    var before := Really(st, token);
    var after := if kind.Slots? || a.moved.None? then before else a.moved.value;
    (a.reply, st.(now := st.now + a.elapsed, standing := st.standing[token := after],
                  log := st.log + [Sent(kind, form, st.now, tracked, before, a.reply, after, st.second)]))
  }

  /** `_step`: the session follows an answer, stays put on an error reply, and loses
      track when nothing came back. */
  function Stepped(server: Server, st: State, form: Form, kind: Kind): (r: (Outcome, State))
    requires form in st.sessions
    ensures !r.0.AtServices? && form in r.1.sessions && st.log <= r.1.log && r.1.second == st.second
  {
    var s := st.sessions[form];
    var (reply, after) := Request(server, st, form, s.token, kind, s.stage);
    match reply
    case Answered => (Fetched, after.(sessions := after.sessions[form := s.(stage := Really(after, s.token))]))
    case Refused(stale) => (Failed(stale), after)
    case Lost => (Failed(false), after.(sessions := after.sessions[form := s.(stage := Unknown)]))
  }

  /** The reply to the walk back was lost: the poll ends there. */
  predicate LostOnTheWay(st: State, form: Form, outcome: Outcome)
    requires form in st.sessions
  {
    outcome.Failed? && st.sessions[form].stage.Unknown?
  }

  /** Ask for a new sign-up, and remember when. */
  function AskedToOpen(server: Server, st: State, form: Form): (r: (Reply, State))
    ensures st.log <= r.1.log
  {
    Request(server, st.(lastOpened := st.lastOpened[form := st.now]), form, |st.log|, Open, Unknown)
  }

  /** Drop the sign-up, and open another one unless the last was opened too recently. */
  function Opened(server: Server, st: State, form: Form): (r: (Outcome, State))
    ensures r.0.AtServices? ==> form in r.1.sessions && r.1.sessions[form].stage.Services?
    ensures st.log <= r.1.log && r.1.second == st.second
  {
    var gone := st.(sessions := st.sessions - {form});
    if form in gone.lastOpened && gone.now - gone.lastOpened[form] < REOPEN then (Failed(false), gone)
    else
      var token := |gone.log|;
      var (reply, after) := AskedToOpen(server, gone, form);
      match reply
      case Refused(stale) => (Failed(stale), after)
      case Lost => (Failed(false), after)
      case Answered =>
        if Really(after, token) != Services then (Failed(false), after)
        else (AtServices, after.(sessions := after.sessions[form := Session(token, Services, after.now)]))
  }

  /** The cached sign-up, walked back if it stands at the slots; None for "open another". */
  function Cached(server: Server, st: State, form: Form): (r: (Option<Outcome>, State))
    ensures r.0 == Some(AtServices) ==> form in r.1.sessions && r.1.sessions[form].stage.Services?
    ensures st.log <= r.1.log && r.1.second == st.second
  {
    if form !in st.sessions || st.now - st.sessions[form].at >= TOKEN_TTL then (None, st)
    else if st.sessions[form].stage == Services then (Some(AtServices), st)
    else if st.sessions[form].stage != Termin then (None, st)
    else
      var (outcome, back) := Stepped(server, st, form, Back);
      if LostOnTheWay(back, form, outcome) then (Some(outcome), back)
      else if outcome.Fetched? && back.sessions[form].stage == Services then (Some(AtServices), back)
      else (None, back)
  }

  /** `_signup_at_services`. */
  function SignupAtServices(server: Server, st: State, form: Form): (r: (Outcome, State))
    ensures r.0.AtServices? ==> form in r.1.sessions && r.1.sessions[form].stage.Services?
    ensures st.log <= r.1.log && r.1.second == st.second
  {
    var (cached, there) := Cached(server, st, form);
    if cached.Some? then (cached.value, there) else Opened(server, there, form)
  }

  /** After a forward step: read the slots, or walk back if it led elsewhere. */
  function Landed(server: Server, st: State, form: Form): (r: (Outcome, State))
    requires form in st.sessions
    ensures st.log <= r.1.log && r.1.second == st.second
  {
    var s := st.sessions[form];
    if s.stage == Termin then
      var (reply, done) := Request(server, st, form, s.token, Slots, Termin);
      (match reply case Answered => Fetched case Refused(stale) => Failed(stale) case Lost => Failed(false), done)
    else if s.stage == Services then (Failed(false), st)
    else
      var (back, end) := Stepped(server, st, form, Back);
      (if back.Fetched? then Failed(false) else back, end)
  }

  /** `_fetch`: forward from the service step, never from anywhere else. */
  function Fetch(server: Server, st: State, form: Form): (r: (Outcome, State))
    ensures st.log <= r.1.log && r.1.second == st.second
  {
    var (ready, there) := SignupAtServices(server, st, form);
    if !ready.AtServices? then (ready, there)
    else
      var (outcome, next) := Stepped(server, there, form, Forward);
      if outcome.Fetched? then Landed(server, next, form) else (outcome, next)
  }

  /** `poll`: once more with a fresh sign-up if the city dropped the token. */
  function Poll(server: Server, st: State, form: Form): (Outcome, State) {
    var (outcome, after) := Fetch(server, st.(second := false), form);
    if outcome == Failed(true) then Fetch(server, Again(after, form), form) else (outcome, after)
  }

  function Again(st: State, form: Form): State {
    st.(sessions := st.sessions - {form}, second := true)
  }

  // ---------------------------------------------------------------------
  // Runs

  /** Polls of any forms, any time apart. */
  datatype Turn = Turn(form: Form, wait: nat)

  const EMPTY := State(0, map[], map[], map[], [], false)

  function Turned(server: Server, st: State, t: Turn): State {
    Poll(server, Later(st, t.wait), t.form).1
  }

  function Later(st: State, wait: nat): State {
    st.(now := st.now + wait)
  }

  function Run(server: Server, st: State, turns: seq<Turn>): State
    decreases |turns|
  {
    if turns == [] then st else Run(server, Turned(server, st, turns[0]), turns[1..])
  }

  // ---------------------------------------------------------------------
  // What every request keeps

  /** Sign-ups of one form are opened half an hour apart, and the time of the last is
      remembered. */
  predicate Spaced(st: State) {
    && (forall i, j :: 0 <= i < j < |st.log| && st.log[i].kind.Open? && st.log[j].kind.Open? ==>
          st.log[i].form == st.log[j].form ==> st.log[j].at - st.log[i].at >= REOPEN)
    && (forall i :: 0 <= i < |st.log| && st.log[i].kind.Open? ==>
          st.log[i].form in st.lastOpened && st.log[i].at <= st.lastOpened[st.log[i].form] <= st.now)
    && (forall f :: f in st.lastOpened ==> st.lastOpened[f] <= st.now)
  }

  predicate OnlyFromServices(st: State) {
    forall i :: 0 <= i < |st.log| && st.log[i].kind.Forward? ==> st.log[i].tracked.Services?
  }

  /** The poll keeps the session of a refused request, unless its token was refused at
      the first attempt. */
  predicate Kept(r: Sent) {
    r.reply.Refused? && (r.reply.stale ==> r.second)
  }

  /** Where the poll keeps the session, an error reply to a forward step means that the
      step was not taken. */
  predicate RefusalsLeaveTheStep(log: seq<Sent>) {
    forall i :: 0 <= i < |log| && log[i].kind.Forward? && Kept(log[i]) ==> log[i].to == log[i].from
  }

  /** Where a session but this form's is tracked at the service step, its sign-up is
      there, and every forward step started there. */
  predicate TracksOthers(st: State, form: Option<Form>) {
    && (forall f :: f in st.sessions && Some(f) != form && st.sessions[f].stage.Services? ==>
          Really(st, st.sessions[f].token) == Services)
    && (forall i :: 0 <= i < |st.log| && st.log[i].kind.Forward? ==> st.log[i].from.Services?)
  }

  predicate Tracks(st: State) {
    TracksOthers(st, None)
  }

  /** No two sessions share a sign-up. */
  predicate OwnTokens(st: State) {
    && (forall f :: f in st.sessions ==> st.sessions[f].token < |st.log|)
    && (forall f, g :: f in st.sessions && g in st.sessions && f != g ==> st.sessions[f].token != st.sessions[g].token)
  }

  predicate Base(st: State) {
    Spaced(st) && OnlyFromServices(st) && OwnTokens(st)
  }

  /** The log only grows, so a step taken in spite of its error reply ends tracking for
      good. */
  predicate Inv(st: State) {
    Base(st) && (RefusalsLeaveTheStep(st.log) ==> Tracks(st))
  }

  /** The same while a poll is about to drop the form's session. */
  predicate InvOthers(st: State, form: Form) {
    Base(st) && (RefusalsLeaveTheStep(st.log) ==> TracksOthers(st, Some(form)))
  }

  lemma RequestKeeps(server: Server, st: State, form: Form, token: Token, kind: Kind, tracked: Stage)
    requires Base(st) && !kind.Open? && (kind.Forward? ==> tracked.Services?)
    ensures Base(Request(server, st, form, token, kind, tracked).1)
  {
    var after := Request(server, st, form, token, kind, tracked).1;
    assert forall i :: 0 <= i < |st.log| ==> after.log[i] == st.log[i];
  }

  lemma ShorterLog(a: seq<Sent>, b: seq<Sent>)
    requires a <= b && RefusalsLeaveTheStep(b)
    ensures RefusalsLeaveTheStep(a)
  {
    assert forall i :: 0 <= i < |a| ==> a[i] == b[i];
  }

  /** A request moves no sign-up but its own. */
  lemma RequestTracks(server: Server, st: State, form: Form, kind: Kind)
    requires OwnTokens(st) && Tracks(st) && form in st.sessions
    requires kind.Back? || (kind.Forward? && st.sessions[form].stage.Services?)
    ensures var s := st.sessions[form];
      TracksOthers(Request(server, st, form, s.token, kind, s.stage).1, Some(form))
  {
    var s := st.sessions[form];
    var after := Request(server, st, form, s.token, kind, s.stage).1;
    assert forall i :: 0 <= i < |st.log| ==> after.log[i] == st.log[i];
    assert after.log[|st.log|].kind == kind;
  }

  lemma SessionTracks(st: State, form: Form, s: Session)
    requires TracksOthers(st, Some(form))
    ensures TracksOthers(st.(sessions := st.sessions[form := s]), Some(form))
    ensures s.stage.Services? ==> Really(st, s.token) == Services ==> Tracks(st.(sessions := st.sessions[form := s]))
    ensures !s.stage.Services? ==> Tracks(st.(sessions := st.sessions[form := s]))
  {
  }

  /** Walking back never loses track, whatever is refused; a forward step does only if
      it was taken in spite of its error reply, and then of this session alone. */
  lemma SteppedTracks(server: Server, st: State, form: Form, kind: Kind)
    requires OwnTokens(st) && Tracks(st) && form in st.sessions
    requires (kind.Back? && !st.sessions[form].stage.Services?) || (kind.Forward? && st.sessions[form].stage.Services?)
    requires RefusalsLeaveTheStep(Stepped(server, st, form, kind).1.log)
    ensures TracksOthers(Stepped(server, st, form, kind).1, Some(form))
    ensures kind.Back? || st.second || Stepped(server, st, form, kind).0 != Failed(true) ==>
              Tracks(Stepped(server, st, form, kind).1)
  {
    var s := st.sessions[form];
    var (reply, after) := Request(server, st, form, s.token, kind, s.stage);
    RequestTracks(server, st, form, kind);
    match reply
    case Answered => SessionTracks(after, form, s.(stage := Really(after, s.token)));
    case Lost => SessionTracks(after, form, s.(stage := Unknown));
    case Refused(stale) =>
      assert after.log[|st.log|].kind == kind && (Kept(after.log[|st.log|]) || (stale && !st.second));
      assert after.sessions == after.sessions[form := s];
      SessionTracks(after, form, s);
  }

  /** What the poller notes of a session it goes on with. */
  lemma SessionKeeps(st: State, form: Form, stage: Stage)
    requires Base(st) && form in st.sessions
    ensures Base(st.(sessions := st.sessions[form := st.sessions[form].(stage := stage)]))
  {
  }

  lemma SteppedBase(server: Server, st: State, form: Form, kind: Kind)
    requires Base(st) && form in st.sessions && (kind.Back? || (kind.Forward? && st.sessions[form].stage.Services?))
    ensures Base(Stepped(server, st, form, kind).1)
  {
    var s := st.sessions[form];
    RequestKeeps(server, st, form, s.token, kind, s.stage);
    var (reply, after) := Request(server, st, form, s.token, kind, s.stage);
    match reply
    case Answered => SessionKeeps(after, form, Really(after, s.token));
    case Lost => SessionKeeps(after, form, Unknown);
    case Refused(_) =>
  }

  lemma SteppedKeeps(server: Server, st: State, form: Form, kind: Kind)
    requires Inv(st) && form in st.sessions
    requires (kind.Back? && !st.sessions[form].stage.Services?) || (kind.Forward? && st.sessions[form].stage.Services?)
    ensures InvOthers(Stepped(server, st, form, kind).1, form)
    ensures kind.Back? || st.second || Stepped(server, st, form, kind).0 != Failed(true) ==>
              Inv(Stepped(server, st, form, kind).1)
  {
    SteppedBase(server, st, form, kind);
    var after := Stepped(server, st, form, kind).1;
    if RefusalsLeaveTheStep(after.log) {
      ShorterLog(st.log, after.log);
      SteppedTracks(server, st, form, kind);
    }
  }

  /** Dropping the session ends the doubt about it. */
  lemma DropKeeps(st: State, form: Form)
    requires InvOthers(st, form)
    ensures Inv(Again(st, form))
  {
  }

  lemma OpenRequestKeeps(server: Server, st: State, form: Form)
    requires Base(st) && (form in st.lastOpened ==> st.now - st.lastOpened[form] >= REOPEN)
    ensures var after := AskedToOpen(server, st, form).1;
      Base(after) && after.sessions == st.sessions && |after.log| == |st.log| + 1
  {
    var after := AskedToOpen(server, st, form).1;
    assert after.log[|st.log|].form == form && after.log[|st.log|].at == st.now;
    assert forall i :: 0 <= i < |st.log| ==> after.log[i] == st.log[i];
  }

  /** The number of the request that opened a sign-up is nobody else's token. */
  lemma NewTokenKeeps(st: State, form: Form, token: Token)
    requires Base(st) && token < |st.log| && forall f :: f in st.sessions ==> st.sessions[f].token < token
    ensures Base(st.(sessions := st.sessions[form := Session(token, Services, st.now)]))
  {
  }

  lemma AskedTracks(server: Server, st: State, form: Form)
    requires OwnTokens(st) && Tracks(st)
    ensures Tracks(AskedToOpen(server, st, form).1)
  {
    var after := AskedToOpen(server, st, form).1;
    assert forall i :: 0 <= i < |st.log| ==> after.log[i] == st.log[i];
    assert after.log[|st.log|].kind == Open;
  }

  lemma OpenedTracks(server: Server, st: State, form: Form)
    requires OwnTokens(st) && Tracks(st)
    ensures Tracks(Opened(server, st, form).1)
  {
    var gone := st.(sessions := st.sessions - {form});
    var after := AskedToOpen(server, gone, form).1;
    AskedTracks(server, gone, form);
    SessionTracks(after, form, Session(|gone.log|, Services, after.now));
  }

  lemma OpenedBase(server: Server, st: State, form: Form)
    requires Base(st)
    ensures Base(Opened(server, st, form).1)
  {
    var gone := st.(sessions := st.sessions - {form});
    assert Base(gone);
    if !(form in gone.lastOpened && gone.now - gone.lastOpened[form] < REOPEN) {
      OpenRequestKeeps(server, gone, form);
      NewTokenKeeps(AskedToOpen(server, gone, form).1, form, |gone.log|);
    }
  }

  lemma OpenedKeeps(server: Server, st: State, form: Form)
    requires Inv(st)
    ensures Inv(Opened(server, st, form).1)
  {
    OpenedBase(server, st, form);
    var after := Opened(server, st, form).1;
    if RefusalsLeaveTheStep(after.log) {
      ShorterLog(st.log, after.log);
      OpenedTracks(server, st, form);
    }
  }

  lemma CachedKeeps(server: Server, st: State, form: Form)
    requires Inv(st)
    ensures Inv(Cached(server, st, form).1)
  {
    if form in st.sessions && st.sessions[form].stage == Termin {
      SteppedKeeps(server, st, form, Back);
    }
  }

  /** Reading the slots moves nothing. */
  lemma ReadingKeeps(server: Server, st: State, form: Form, token: Token)
    requires Inv(st)
    ensures Inv(Request(server, st, form, token, Slots, Termin).1)
  {
    RequestKeeps(server, st, form, token, Slots, Termin);
    var after := Request(server, st, form, token, Slots, Termin).1;
    if RefusalsLeaveTheStep(after.log) {
      ShorterLog(st.log, after.log);
    }
  }

  lemma LandedKeeps(server: Server, st: State, form: Form)
    requires Inv(st) && form in st.sessions
    ensures Inv(Landed(server, st, form).1)
  {
    if st.sessions[form].stage == Termin {
      ReadingKeeps(server, st, form, st.sessions[form].token);
    } else if st.sessions[form].stage != Services {
      SteppedKeeps(server, st, form, Back);
    }
  }

  lemma FetchKeeps(server: Server, st: State, form: Form)
    requires Inv(st)
    ensures InvOthers(Fetch(server, st, form).1, form)
    ensures st.second || Fetch(server, st, form).0 != Failed(true) ==> Inv(Fetch(server, st, form).1)
  {
    CachedKeeps(server, st, form);
    OpenedKeeps(server, Cached(server, st, form).1, form);
    var (ready, there) := SignupAtServices(server, st, form);
    if ready.AtServices? {
      SteppedKeeps(server, there, form, Forward);
      if Stepped(server, there, form, Forward).0.Fetched? {
        LandedKeeps(server, Stepped(server, there, form, Forward).1, form);
      }
    }
  }

  lemma TurnKeeps(server: Server, st: State, t: Turn)
    requires Inv(st)
    ensures Inv(Turned(server, st, t))
  {
    var begun := Later(st, t.wait).(second := false);
    assert Inv(begun);
    FetchKeeps(server, begun, t.form);
    var (outcome, after) := Fetch(server, begun, t.form);
    if outcome == Failed(true) {
      DropKeeps(after, t.form);
      FetchKeeps(server, Again(after, t.form), t.form);
    }
  }

  lemma {:induction false} RunKeeps(server: Server, st: State, turns: seq<Turn>)
    requires Inv(st)
    ensures Inv(Run(server, st, turns))
    decreases |turns|
  {
    if turns != [] {
      TurnKeeps(server, st, turns[0]);
      RunKeeps(server, Turned(server, st, turns[0]), turns[1..]);
    }
  }

  // ---------------------------------------------------------------------
  // Main results

  /** Whatever the server answers, and however often the form is polled, its sign-ups
      are opened at least half an hour apart. */
  lemma OpeningsAreSpaced(server: Server, turns: seq<Turn>)
    ensures var log := Run(server, EMPTY, turns).log;
      forall i, j :: 0 <= i < j < |log| && log[i].kind.Open? && log[j].kind.Open? && log[i].form == log[j].form ==>
        log[j].at - log[i].at >= REOPEN
  {
    RunKeeps(server, EMPTY, turns);
  }

  /** A forward step goes out only when the tracked step is the service step. */
  lemma ForwardOnlyWhenTrackedAtServices(server: Server, turns: seq<Turn>)
    ensures var log := Run(server, EMPTY, turns).log;
      forall i :: 0 <= i < |log| && log[i].kind.Forward? ==> log[i].tracked.Services?
  {
    RunKeeps(server, EMPTY, turns);
  }

  /** As long as an error reply whose session the poll keeps means that the step was not
      taken, every forward step starts at the service step of the sign-up itself, and
      never goes on from a later one. */
  lemma ForwardOnlyFromServices(server: Server, turns: seq<Turn>)
    ensures var log := Run(server, EMPTY, turns).log;
      RefusalsLeaveTheStep(log) ==> forall i :: 0 <= i < |log| && log[i].kind.Forward? ==> log[i].from.Services?
  {
    RunKeeps(server, EMPTY, turns);
  }

  /** A poll with a fresh session tracked at the service step goes forward from wherever
      the sign-up is. */
  lemma PollGoesForward(server: Server, st: State, form: Form)
    requires form in st.sessions && st.sessions[form].stage.Services? && st.now - st.sessions[form].at < TOKEN_TTL
    ensures var log := Poll(server, st, form).1.log;
      |st.log| < |log| && log[|st.log|].kind == Forward && log[|st.log|].from == Really(st, st.sessions[form].token)
  {
    var begun := st.(second := false);
    var next := Stepped(server, begun, form, Forward).1;
    assert next.log[|st.log|].kind == Forward && next.log[|st.log|].from == Really(st, st.sessions[form].token);
    var after := Fetch(server, begun, form).1;
    assert next.log <= after.log;
  }

  function Last(st: State): Sent
    requires st.log != []
  {
    st.log[|st.log| - 1]
  }

  /** The last request since `before`, if there was one, was a refused step forward. */
  predicate EndsRefused(before: State, after: State) {
    |before.log| < |after.log| && Last(after).kind.Forward? && Last(after).reply.Refused?
  }

  /** Getting a sign-up to the service step takes no step forward. */
  lemma OpenedTakesNone(server: Server, st: State, form: Form)
    ensures !EndsRefused(st, Opened(server, st, form).1)
  {
  }

  lemma CachedTakesNone(server: Server, st: State, form: Form)
    ensures !EndsRefused(st, Cached(server, st, form).1)
  {
  }

  lemma NoForwardToTheServices(server: Server, st: State, form: Form)
    ensures !EndsRefused(st, SignupAtServices(server, st, form).1)
  {
    CachedTakesNone(server, st, form);
    OpenedTakesNone(server, Cached(server, st, form).1, form);
  }

  /** Nor does what follows a step that was answered. */
  lemma LandedTakesNone(server: Server, st: State, form: Form)
    requires form in st.sessions
    ensures !EndsRefused(st, Landed(server, st, form).1)
  {
  }

  /** Still tracked at the service step, the session stands where its last request left
      the sign-up. */
  predicate Remains(st: State, form: Form)
    requires st.log != []
  {
    && form in st.sessions && st.sessions[form].stage.Services?
    && Really(st, st.sessions[form].token) == Last(st).to
  }

  lemma StepRefused(server: Server, st: State, form: Form)
    requires form in st.sessions && st.sessions[form].stage.Services?
    ensures var (outcome, after) := Stepped(server, st, form, Forward);
      && |after.log| == |st.log| + 1
      && (EndsRefused(st, after) ==>
            outcome == Failed(Last(after).reply.stale) && Last(after).second == st.second && Remains(after, form))
      && (outcome.Fetched? ==> Last(after).reply.Answered?)
  {
  }

  /** A last request that is a refused step forward is what the fetch ends with. */
  predicate EndsWithIt(before: State, end: (Outcome, State), form: Form) {
    EndsRefused(before, end.1) ==>
      end.0 == Failed(Last(end.1).reply.stale) && Last(end.1).second == before.second && Remains(end.1, form)
  }

  lemma FetchEndsWithIt(server: Server, st: State, form: Form)
    ensures EndsWithIt(st, Fetch(server, st, form), form)
  {
    NoForwardToTheServices(server, st, form);
    var (ready, there) := SignupAtServices(server, st, form);
    if ready.AtServices? {
      StepRefused(server, there, form);
      var (outcome, next) := Stepped(server, there, form, Forward);
      if outcome.Fetched? {
        LandedTakesNone(server, next, form);
      }
    }
  }

  /** A first attempt that ends so on a refused token is not what the poll ends with. */
  lemma OneOrTwoAttempts(begun: State, one: (Outcome, State), again: State, two: (Outcome, State), form: Form)
    requires EndsWithIt(begun, one, form) && EndsWithIt(again, two, form) && !begun.second
    requires again == Again(one.1, form) && one.1.log <= two.1.log
    requires var end := if one.0 == Failed(true) then two.1 else one.1;
      EndsRefused(begun, end) && Kept(Last(end))
    ensures Remains(if one.0 == Failed(true) then two.1 else one.1, form)
  {
  }

  /** A poll that ends with a refused step forward and keeps the session. */
  predicate EndsKept(server: Server, st: State, form: Form) {
    var after := Poll(server, st, form).1;
    EndsRefused(st, after) && Kept(Last(after))
  }

  lemma KeptRemains(server: Server, st: State, form: Form)
    requires EndsKept(server, st, form)
    ensures Remains(Poll(server, st, form).1, form)
  {
    var begun := st.(second := false);
    var one := Fetch(server, begun, form);
    var again := Again(one.1, form);
    FetchEndsWithIt(server, begun, form);
    FetchEndsWithIt(server, again, form);
    OneOrTwoAttempts(begun, one, again, Fetch(server, again, form), form);
  }

  /** And only then: when a poll ends with a step that was taken in spite of an error
      reply, of whichever kind, and keeps the session, the next poll in the session's
      time goes forward from wherever the sign-up is by now. */
  lemma AStepTakenInSpiteOfARefusalGoesOn(server: Server, st: State, form: Form, wait: nat)
    requires EndsKept(server, st, form)
    requires var next := Poll(server, st, form).1;
      form in next.sessions ==> next.now + wait - next.sessions[form].at < TOKEN_TTL
    ensures var next := Poll(server, st, form).1;
      && |next.log| < |Turned(server, next, Turn(form, wait)).log|
      && Turned(server, next, Turn(form, wait)).log[|next.log|].kind == Forward
      && Turned(server, next, Turn(form, wait)).log[|next.log|].from == Last(next).to
  {
    KeptRemains(server, st, form);
    PollGoesForward(server, Later(Poll(server, st, form).1, wait), form);
  }

  // ---------------------------------------------------------------------
  // What a poll asks

  /** The form's sign-up is younger than seven hours. */
  predicate Fresh(st: State, form: Form) {
    form in st.sessions && st.now - st.sessions[form].at < 25200
  }

  /** Half an hour has passed since a sign-up of the form was last opened. */
  predicate MayOpen(st: State, form: Form) {
    form in st.lastOpened ==> st.now - st.lastOpened[form] >= 1800
  }

  /** What the next request asks for, none if nothing may be asked. */
  function Asks(st: State, form: Form): Option<Kind> {
    if Fresh(st, form) && st.sessions[form].stage == Services then Some(Forward)
    else if Fresh(st, form) && st.sessions[form].stage == Termin then Some(Back)
    else if MayOpen(st, form) then Some(Open) else None
  }

  /** The first request since `st`: of that kind, for the form, at once. */
  predicate FirstIs(st: State, after: State, form: Form, kind: Kind) {
    && |st.log| < |after.log| && after.log[|st.log|].kind == kind
    && after.log[|st.log|].form == form && after.log[|st.log|].at == st.now
  }

  lemma FirstStays(st: State, after: State, end: State, form: Form, kind: Kind)
    requires FirstIs(st, after, form, kind) && after.log <= end.log
    ensures FirstIs(st, end, form, kind)
  {
  }

  lemma OpenedAsks(server: Server, st: State, form: Form)
    ensures var (outcome, after) := Opened(server, st, form);
      if MayOpen(st, form) then FirstIs(st, after, form, Open)
      else outcome == Failed(false) && after == st.(sessions := st.sessions - {form})
  {
  }

  lemma SteppedAsks(server: Server, st: State, form: Form, kind: Kind)
    requires form in st.sessions
    ensures FirstIs(st, Stepped(server, st, form, kind).1, form, kind)
  {
  }

  lemma SignupAsks(server: Server, st: State, form: Form)
    ensures var (outcome, after) := SignupAtServices(server, st, form);
      match Asks(st, form)
      case None => outcome == Failed(false) && after == st.(sessions := st.sessions - {form})
      case Some(kind) => if kind.Forward? then outcome == AtServices && after == st else FirstIs(st, after, form, kind)
  {
    OpenedAsks(server, st, form);
    if Asks(st, form) == Some(Back) {
      SteppedAsks(server, st, form, Back);
      FirstStays(st, Stepped(server, st, form, Back).1, SignupAtServices(server, st, form).1, form, Back);
    }
  }

  lemma FetchAsks(server: Server, st: State, form: Form)
    ensures var (outcome, after) := Fetch(server, st, form);
      match Asks(st, form)
      case None => outcome == Failed(false) && after == st.(sessions := st.sessions - {form})
      case Some(kind) => FirstIs(st, after, form, kind)
  {
    SignupAsks(server, st, form);
    var (ready, there) := SignupAtServices(server, st, form);
    if ready.AtServices? {
      SteppedAsks(server, there, form, Forward);
    }
  }

  /** What a poll asks first. A fresh sign-up at the service step is sent forward, one at
      the slots walked back; with any other, or none, another one is opened, but not
      within half an hour of the last: then nothing is asked, and the form is given up for
      now. */
  lemma WhatAPollAsksFirst(server: Server, st: State, form: Form)
    ensures var (outcome, after) := Poll(server, st, form);
      match Asks(st, form)
      case None => outcome == Failed(false) && after == st.(sessions := st.sessions - {form}, second := false)
      case Some(kind) => FirstIs(st, after, form, kind)
  {
    FetchAsks(server, st.(second := false), form);
    var (outcome, after) := Fetch(server, st.(second := false), form);
    assert after.log <= Poll(server, st, form).1.log;
  }

  /** A truthful answer that leads to the step. */
  predicate LeadsTo(a: Answer, step: Stage) {
    a.reply.Answered? && a.moved == Some(step)
  }

  /** A fetch from the service step on, and what its requests were. */
  predicate ReadsTheSlots(st: State, end: (Outcome, State), form: Form, kinds: seq<Kind>) {
    && end.0 == Fetched && |end.1.log| == |st.log| + |kinds| && st.log <= end.1.log
    && (forall i :: 0 <= i < |kinds| ==> end.1.log[|st.log| + i].kind == kinds[i])
    && form in end.1.sessions && end.1.sessions[form].stage == Termin
  }

  lemma ForwardReadsTheSlots(server: Server, st: State, form: Form)
    requires form in st.sessions && st.sessions[form].stage == Services
    requires LeadsTo(server(|st.log|), Termin) && server(|st.log| + 1).reply.Answered?
    ensures var next := Stepped(server, st, form, Forward);
      next.0.Fetched? && ReadsTheSlots(st, Landed(server, next.1, form), form, [Forward, Slots])
  {
  }

  /** A fresh sign-up goes on being used: where the city answers, a poll that finds it at
      the slots walks it back, forward again, and reads the slots. */
  lemma AFreshSignupGoesForwardAgain(server: Server, st: State, form: Form)
    requires Fresh(st, form) && st.sessions[form].stage == Termin
    requires LeadsTo(server(|st.log|), Services) && LeadsTo(server(|st.log| + 1), Termin)
    requires server(|st.log| + 2).reply.Answered?
    ensures var end := Poll(server, st, form);
      && ReadsTheSlots(st, end, form, [Back, Forward, Slots])
      && end.1.sessions[form].token == st.sessions[form].token
  {
    var begun := st.(second := false);
    var back := Stepped(server, begun, form, Back).1;
    assert SignupAtServices(server, begun, form) == (AtServices, back);
    ForwardReadsTheSlots(server, back, form);
  }

  /** Without one, another is opened and used at once. */
  lemma ANewSignupReadsTheSlots(server: Server, st: State, form: Form)
    requires form !in st.sessions && MayOpen(st, form)
    requires LeadsTo(server(|st.log|), Services) && LeadsTo(server(|st.log| + 1), Termin)
    requires server(|st.log| + 2).reply.Answered?
    ensures ReadsTheSlots(st, Poll(server, st, form), form, [Open, Forward, Slots])
    ensures Poll(server, st, form).1.lastOpened == st.lastOpened[form := st.now]
  {
    var begun := st.(second := false);
    var anew := Opened(server, begun, form);
    assert anew.0 == AtServices && |anew.1.log| == |st.log| + 1;
    assert SignupAtServices(server, begun, form) == anew;
    ForwardReadsTheSlots(server, anew.1, form);
  }

  /** An error reply to the step forward ends the poll, and the sign-up is kept where it
      is tracked; only a refused token is dropped at once, and another sign-up opened in
      the same poll if it may be. */
  lemma WhatARefusalCosts(server: Server, st: State, form: Form, stale: bool)
    requires Fresh(st, form) && st.sessions[form].stage == Services && server(|st.log|).reply == Refused(stale)
    ensures var (outcome, after) := Poll(server, st, form); var now := st.now + server(|st.log|).elapsed;
      if !stale then
        && outcome == Failed(false) && |after.log| == |st.log| + 1
        && after.sessions == st.sessions && after.lastOpened == st.lastOpened && after.now == now
      else if form in st.lastOpened && now - st.lastOpened[form] < 1800 then
        outcome == Failed(false) && |after.log| == |st.log| + 1 && form !in after.sessions
      else |after.log| > |st.log| + 1 && after.log[|st.log| + 1].kind == Open
  {
    var begun := st.(second := false);
    var (outcome, after) := Stepped(server, begun, form, Forward);
    assert Fetch(server, begun, form) == (outcome, after);
    if stale {
      FetchAsks(server, Again(after, form), form);
    }
  }

  /** The next attempt after a walk back: whether the sign-up is at the service step now. */
  lemma CachedWalksBack(server: Server, st: State, form: Form)
    requires Fresh(st, form) && st.sessions[form].stage == Termin
    ensures var a, (cached, there) := server(|st.log|), Cached(server, st, form);
      var led := if a.moved.Some? then a.moved.value else Really(st, st.sessions[form].token);
      && |there.log| == |st.log| + 1 && there.now == st.now + a.elapsed && there.lastOpened == st.lastOpened
      && (if a.reply.Lost? then
            && cached == Some(Failed(false))
            && there.sessions == st.sessions[form := st.sessions[form].(stage := Unknown)]
          else if a.reply.Answered? && led == Services then
            cached == Some(AtServices) && there.sessions[form].token == st.sessions[form].token
          else cached == None)
  {
  }

  /** A walk back that is lost ends the poll, and the sign-up is tracked no more; one that
      is refused or leads elsewhere has another sign-up opened, if it may be. */
  lemma WhatAFailedWalkBackCosts(server: Server, st: State, form: Form)
    requires Fresh(st, form) && st.sessions[form].stage == Termin
    ensures var (outcome, after) := Poll(server, st, form);
      var a, now := server(|st.log|), st.now + server(|st.log|).elapsed;
      var led := if a.moved.Some? then a.moved.value else Really(st, st.sessions[form].token);
      if a.reply.Lost? then
        && outcome == Failed(false) && |after.log| == |st.log| + 1
        && after.sessions == st.sessions[form := st.sessions[form].(stage := Unknown)]
      else if a.reply.Answered? && led == Services then
        |after.log| > |st.log| + 1 && after.log[|st.log| + 1].kind == Forward
      else if form in st.lastOpened && now - st.lastOpened[form] < 1800 then
        outcome == Failed(false) && |after.log| == |st.log| + 1 && form !in after.sessions
      else |after.log| > |st.log| + 1 && after.log[|st.log| + 1].kind == Open
  {
    var begun := st.(second := false);
    var (cached, there) := Cached(server, begun, form);
    CachedWalksBack(server, begun, form);
    OpenedAsks(server, there, form);
    var (outcome, after) := Fetch(server, begun, form);
    if cached == Some(AtServices) {
      SteppedAsks(server, there, form, Forward);
      FirstStays(there, Stepped(server, there, form, Forward).1, after, form, Forward);
    } else if cached.None? && MayOpen(there, form) {
      FirstStays(there, Opened(server, there, form).1, after, form, Open);
    }
    assert after.log <= Poll(server, st, form).1.log;
  }

  /** A poll that ends after so many requests, with nothing read. */
  predicate GivesUp(st: State, end: (Outcome, State), requests: nat) {
    end.0 == Failed(false) && |end.1.log| == |st.log| + requests
  }

  /** Where a step forward that was answered leads. At the slots they are read; still at the
      services the poll is over; anywhere else the sign-up is walked back, and the poll is
      over too. */
  lemma WhereAStepForwardLeads(server: Server, st: State, form: Form)
    requires Fresh(st, form) && st.sessions[form].stage == Services && server(|st.log|).reply.Answered?
    requires server(|st.log| + 1).reply != Refused(true)
    ensures var end, a, b := Poll(server, st, form), server(|st.log|), server(|st.log| + 1);
      var led := if a.moved.Some? then a.moved.value else Really(st, st.sessions[form].token);
      var back := if b.moved.Some? then b.moved.value else led;
      if led == Services then GivesUp(st, end, 1) && end.1.sessions == st.sessions
      else
        && |end.1.log| == |st.log| + 2
        && end.1.log[|st.log| + 1].kind == (if led == Termin then Slots else Back)
        && (if led == Termin then
              end.0 == (if b.reply.Answered? then Fetched else Failed(false))
              && end.1.sessions == st.sessions[form := st.sessions[form].(stage := Termin)]
            else
              end.0 == Failed(false) && end.1.sessions == st.sessions[form := st.sessions[form].(stage :=
                match b.reply case Answered => back case Refused(_) => led case Lost => Unknown)])
  {
    var begun := st.(second := false);
    var (outcome, next) := Stepped(server, begun, form, Forward);
    assert SignupAtServices(server, begun, form) == (AtServices, begun);
    assert Fetch(server, begun, form) == Landed(server, next, form);
    var s := st.sessions[form];
    assert st.sessions == st.sessions[form := s.(stage := Services)];
    var led := if server(|st.log|).moved.Some? then server(|st.log|).moved.value else Really(st, s.token);
    assert next.sessions == st.sessions[form := s.(stage := led)] && |next.log| == |st.log| + 1;
  }

  /** A token refused further on, at the slots or walking back, is dropped at once too, and
      another sign-up opened in the same poll if it may be. */
  lemma WhatALaterRefusalCosts(server: Server, st: State, form: Form)
    requires Fresh(st, form) && st.sessions[form].stage == Services && server(|st.log|).reply.Answered?
    requires server(|st.log|).moved.Some? && server(|st.log|).moved.value != Services
    requires server(|st.log| + 1).reply == Refused(true)
    ensures var (outcome, after) := Poll(server, st, form);
      var now := st.now + server(|st.log|).elapsed + server(|st.log| + 1).elapsed;
      if form in st.lastOpened && now - st.lastOpened[form] < 1800 then
        outcome == Failed(false) && |after.log| == |st.log| + 2 && form !in after.sessions
      else |after.log| > |st.log| + 2 && after.log[|st.log| + 2].kind == Open
  {
    var begun := st.(second := false);
    var next := Stepped(server, begun, form, Forward).1;
    var (outcome, after) := Landed(server, next, form);
    assert Fetch(server, begun, form) == (outcome, after);
    assert outcome == Failed(true) && |after.log| == |st.log| + 2;
    FetchAsks(server, Again(after, form), form);
  }

  /** Where opening leads. A new sign-up that does not stand at the services, or was not
      answered, is of no use, and no other is opened for half an hour, not even for a
      refused token. */
  lemma WhereOpeningLeads(server: Server, st: State, form: Form)
    requires form !in st.sessions && MayOpen(st, form)
    requires server(|st.log|).reply == Refused(true) ==> server(|st.log|).elapsed < 1800
    requires !LeadsTo(server(|st.log|), Services)
    requires server(|st.log|).reply.Answered? ==> server(|st.log|).moved.Some?
    ensures GivesUp(st, Poll(server, st, form), 1)
    ensures form !in Poll(server, st, form).1.sessions
    ensures Poll(server, st, form).1.lastOpened == st.lastOpened[form := st.now]
  {
    var begun := st.(second := false);
    var (outcome, after) := Opened(server, begun, form);
    assert SignupAtServices(server, begun, form) == (outcome, after);
    assert Fetch(server, begun, form) == (outcome, after);
    assert begun.sessions - {form} == begun.sessions;
    if outcome == Failed(true) {
      FetchAsks(server, Again(after, form), form);
    }
  }

  // ---------------------------------------------------------------------
  // The dictionaries themselves

  class Poller {
    const server: Server
    var now: int
    var sessions: map<Form, Session>       // _SESSIONS
    var lastOpened: map<Form, int>         // _OPENED
    var standing: map<Token, Stage>        // where the city has each sign-up
    var log: seq<Sent>                     // every request made
    var second: bool                       // at a poll's second attempt

    constructor (server: Server)
      ensures this.server == server && Current() == EMPTY
    {
      this.server := server;
      now, sessions, lastOpened, standing, log, second := 0, map[], map[], map[], [], false;
    }

    function Current(): State
      reads this
    {
      State(now, sessions, lastOpened, standing, log, second)
    }

    method Send(form: Form, token: Token, kind: Kind, tracked: Stage) returns (reply: Reply)
      modifies this`now, this`standing, this`log
      ensures (reply, Current()) == Request(server, old(Current()), form, token, kind, tracked)
    {
      var a := server(|log|);
      var before := Really(Current(), token);
      var after := if kind.Slots? || a.moved.None? then before else a.moved.value;
      log := log + [Sent(kind, form, now, tracked, before, a.reply, after, second)];
      standing := standing[token := after];
      now := now + a.elapsed;
      reply := a.reply;
    }

    method Step(form: Form, kind: Kind) returns (outcome: Outcome)
      requires form in sessions
      modifies this`now, this`standing, this`log, this`sessions
      ensures (outcome, Current()) == Stepped(server, old(Current()), form, kind)
      ensures form in sessions
    {
      var s := sessions[form];
      var reply := Send(form, s.token, kind, s.stage);
      match reply
      case Answered =>
        sessions := sessions[form := s.(stage := Really(Current(), s.token))];
        outcome := Fetched;
      case Refused(stale) =>
        outcome := Failed(stale);
      case Lost =>
        sessions := sessions[form := s.(stage := Unknown)];
        outcome := Failed(false);
    }

    method OpenSignup(form: Form) returns (outcome: Outcome)
      modifies this
      ensures (outcome, Current()) == Opened(server, old(Current()), form)
    {
      sessions := sessions - {form};
      if form in lastOpened && now - lastOpened[form] < REOPEN {
        return Failed(false);
      }
      lastOpened := lastOpened[form := now];
      var token := |log|;
      var reply := Send(form, token, Open, Unknown);
      match reply
      case Refused(stale) => outcome := Failed(stale);
      case Lost => outcome := Failed(false);
      case Answered =>
        if Really(Current(), token) != Services {
          return Failed(false);
        }
        sessions := sessions[form := Session(token, Services, now)];
        outcome := AtServices;
    }

    method SignupAtTheServices(form: Form) returns (outcome: Outcome)
      modifies this
      ensures (outcome, Current()) == SignupAtServices(server, old(Current()), form)
    {
      if form in sessions && now - sessions[form].at < TOKEN_TTL {
        if sessions[form].stage == Termin {
          outcome := Step(form, Back);
          if LostOnTheWay(Current(), form, outcome) {
            return;
          }
          if outcome.Fetched? && sessions[form].stage == Services {
            return AtServices;
          }
        } else if sessions[form].stage == Services {
          return AtServices;
        }
      }
      outcome := OpenSignup(form);
    }

    method ReadSlots(form: Form) returns (outcome: Outcome)
      requires form in sessions
      modifies this`now, this`standing, this`log, this`sessions
      ensures (outcome, Current()) == Landed(server, old(Current()), form)
    {
      var s := sessions[form];
      if s.stage == Termin {
        var reply := Send(form, s.token, Slots, Termin);
        match reply
        case Answered => outcome := Fetched;
        case Refused(stale) => outcome := Failed(stale);
        case Lost => outcome := Failed(false);
      } else {
        outcome := Failed(false);
        if s.stage != Services {
          outcome := Step(form, Back);
          if outcome.Fetched? {
            outcome := Failed(false);
          }
        }
      }
    }

    method FetchOnce(form: Form) returns (outcome: Outcome)
      modifies this
      ensures (outcome, Current()) == Fetch(server, old(Current()), form)
    {
      outcome := SignupAtTheServices(form);
      if outcome.AtServices? {
        outcome := Step(form, Forward);
        if outcome.Fetched? {
          outcome := ReadSlots(form);
        }
      }
    }

    method PollForm(form: Form) returns (outcome: Outcome)
      modifies this
      ensures (outcome, Current()) == Poll(server, old(Current()), form)
    {
      second := false;
      outcome := FetchOnce(form);
      if outcome == Failed(true) {
        sessions, second := sessions - {form}, true;
        outcome := FetchOnce(form);
      }
    }
  }
}
