/** A push batch is a run of the interleaved machine: what `PushBatch` computes at once,
    `Retirement` does step by step. */
module BatchRuns {
  import opened Common
  import opened Devices
  import Mail = MailBatch
  import B = PushBatch
  import PushLaws
  import opened Retirement

  // ---------------------------------------------------------------------
  // The same tables, seen by both

  predicate OfPlatform(r: Mail.Row) {
    r.stamp == Mail.By(B.NameOf(Apns)) || r.stamp == Mail.By(B.NameOf(Fcm))
  }

  /** The machine keeps of the claims those that name a push platform. */
  ghost predicate SameStamps(stamps: map<Key, (Platform, int)>, claims: Mail.Claims) {
    && (forall k :: k in stamps ==> k in claims && claims[k] == Mail.Row(Mail.By(B.NameOf(stamps[k].0)), stamps[k].1))
    && (forall k :: k in claims && OfPlatform(claims[k]) ==> k in stamps)
  }

  ghost predicate Mirrors(w: World, t: B.Tables) {
    && w.now == t.now && w.rows == t.rows && w.subs == t.subs && SameStamps(w.stamps, t.claims)
    && (forall id :: id in w.rows ==> id < w.nextId)
  }

  function TargetOf(p: B.Pending): Target {
    Target(p.item.device, p.token, p.platform)
  }

  function Targets(pending: seq<B.Pending>): set<Target> {
    set p | p in pending :: TargetOf(p)
  }

  /** What was read of the device is what its row says. */
  predicate AsRead(rows: Rows, p: B.Pending) {
    && p.item.device in rows && p.platform == rows[p.item.device].platform && p.token == rows[p.item.device].token
    && p.item.token == Some(p.token)
  }

  predicate AllAsRead(rows: Rows, pending: seq<B.Pending>) {
    forall p :: p in pending ==> AsRead(rows, p)
  }

  lemma OneStep(w: World, events: seq<Event>, e: Event)
    ensures Run(w, events + [e]) == Step(Run(w, events), e)
  {
    RunAppend(w, events, [e]);
    assert [e][1..] == [];
  }

  // ---------------------------------------------------------------------
  // The same answers, and nothing but the batch's own steps

  /** What a platform said about a device's token. */
  datatype Answer = Answer(device: Id, token: Option<Token>, platform: Platform, accepted: bool)

  /** The deliveries and dead answers among the tries of a batch, in order. */
  function Told(log: seq<B.Try>): seq<Answer> {
    if log == [] then []
    else
      var (before, last) := (Told(log[..|log| - 1]), log[|log| - 1]);
      if IsAnswer(last.verdict) then before + [AnswerOf(last)] else before
  }

  predicate IsAnswer(v: B.Verdict) {
    v.Accepted? || v.DeadToken?
  }

  function AnswerOf(try: B.Try): Answer {
    Answer(try.item.device, try.item.token, try.platform, try.verdict.Accepted?)
  }

  function AnswerTo(e: Entry): Answer {
    Answer(e.target.device, Some(e.target.token), e.target.platform, e.accepted)
  }

  function Heard(log: seq<Entry>): seq<Answer> {
    seq(|log|, i requires 0 <= i < |log| => AnswerTo(log[i]))
  }

  /** What the machine heard since `before` is what the batch was told, under its
      number. */
  ghost predicate Tells(before: seq<Entry>, after: seq<Entry>, b: nat, tries: seq<B.Try>) {
    && before <= after && Heard(after[|before|..]) == Told(tries)
    && (forall i :: |before| <= i < |after| ==> after[i].batch == b)
  }

  lemma OneMoreTold(before: seq<Entry>, after: seq<Entry>, b: nat, tries: seq<B.Try>, entry: Entry, try: B.Try)
    requires Tells(before, after, b, tries) && entry.batch == b && IsAnswer(try.verdict)
    requires AnswerOf(try) == AnswerTo(entry)
    ensures Tells(before, after + [entry], b, tries + [try])
  {
    assert (after + [entry])[|before|..] == after[|before|..] + [entry];
    assert Heard(after[|before|..] + [entry]) == Heard(after[|before|..]) + [AnswerOf(try)];
    assert (tries + [try])[..|tries|] == tries;
  }

  lemma NothingTold(before: seq<Entry>, after: seq<Entry>, b: nat, tries: seq<B.Try>, try: B.Try)
    requires Tells(before, after, b, tries) && !IsAnswer(try.verdict)
    ensures Tells(before, after, b, tries + [try])
  {
    assert (tries + [try])[..|tries|] == tries;
  }

  /** A step a batch takes itself: time passes, it forgets keys of its items, or it hears,
      judges, retires or ends under its own number. */
  predicate Own(b: nat, keys: set<Key>, e: Event) {
    match e
    case Tick(_) => true
    case Forget(forgotten) => forgotten <= keys
    case Deliver(c, _, _) => c == b
    case AnswerDead(c, _) => c == b
    case Judge(c, _) => c == b
    case RetireNow(c, _) => c == b
    case EndBatch(c) => c == b
    case _ => false
  }

  predicate AllOwn(b: nat, keys: set<Key>, events: seq<Event>) {
    forall e :: e in events ==> Own(b, keys, e)
  }

  // ---------------------------------------------------------------------
  // Claims that come and go

  /** Keys that no longer name a platform. */
  lemma KeysForgotten(w: World, t: B.Tables, keys: set<Key>, claims: Mail.Claims)
    requires Mirrors(w, t)
    requires forall k :: k !in keys ==> (k in claims <==> k in t.claims) && (k in claims ==> claims[k] == t.claims[k])
    requires forall k :: k in keys && k in claims ==> claims[k].stamp.Pending?
    ensures Mirrors(Step(w, Forget(keys)), t.(claims := claims))
  {
  }

  // ---------------------------------------------------------------------
  // The loop

  /** The batch under way, on both sides. */
  ghost predicate Follows(w: World, b: nat, g: B.Progress) {
    && Mirrors(w, g.t) && b !in w.ended
    && BatchAt(w, b) == BatchState(g.sentBy, Targets(g.dead), {})
  }

  lemma TargetsAppend(pending: seq<B.Pending>, p: B.Pending)
    ensures Targets(pending + [p]) == Targets(pending) + {TargetOf(p)}
  {
  }

  lemma NamesDiffer(p: Platform, q: Platform)
    ensures B.NameOf(p) == B.NameOf(q) <==> p == q
  {
    assert |"apns"| != |"fcm"|;
  }

  lemma DeliveryIsAStep(w: World, b: nat, g: B.Progress, p: B.Pending)
    requires Follows(w, b, g) && AsRead(g.t.rows, p)
    ensures var t := g.t;
      Follows(Step(w, Deliver(b, p.item.key, TargetOf(p))), b,
        g.(t := t.(claims := t.claims[p.item.key := Mail.Row(Mail.By(B.NameOf(p.platform)), t.now)],
                   rows := B.Alive(t.rows, p.item.device, p.token)),
           sentBy := g.sentBy + {p.platform}))
  {
    forall q: Platform ensures B.NameOf(p.platform) == B.NameOf(q) <==> p.platform == q {
      NamesDiffer(p.platform, q);
    }
  }

  lemma DeadAnswerIsAStep(w: World, b: nat, g: B.Progress, p: B.Pending)
    requires Follows(w, b, g) && AsRead(g.t.rows, p)
    ensures Follows(Step(w, AnswerDead(b, TargetOf(p))), b, g.(dead := g.dead + [p]))
  {
    TargetsAppend(g.dead, p);
  }

  lemma ForgettingIsAStep(w: World, b: nat, g: B.Progress, key: Key)
    requires Follows(w, b, g)
    ensures var t := g.t; Follows(Step(w, Forget({key})), b, g.(t := t.(claims := t.claims - {key})))
  {
    KeysForgotten(w, g.t, {key}, g.t.claims - {key});
  }

  /** The step an answer is, if it is one. */
  function StepOf(b: nat, p: B.Pending, verdict: B.Verdict): seq<Event> {
    match verdict
    case Accepted => [Deliver(b, p.item.key, TargetOf(p))]
    case DeadToken => [AnswerDead(b, TargetOf(p))]
    case Dropped => [Forget({p.item.key})]
    case Unsendable => [Forget({p.item.key})]
    case _ => []
  }

  /** What a batch only counts, the machine does not see. */
  lemma CountsAside(w: World, b: nat, g: B.Progress, h: B.Progress)
    requires Follows(w, b, g) && h.t == g.t && h.sentBy == g.sentBy && h.dead == g.dead
    ensures Follows(w, b, h)
  {
  }

  lemma AnswerIsAStep(w: World, b: nat, g: B.Progress, p: B.Pending, verdict: B.Verdict)
    requires Follows(w, b, g) && AsRead(g.t.rows, p)
    ensures Follows(Run(w, StepOf(b, p, verdict)), b, B.Settled(g, p, verdict, g.t))
  {
    var events := StepOf(b, p, verdict);
    if events != [] {
      assert events == [] + [events[0]];
      OneStep(w, [], events[0]);
    }
    match verdict
    case Accepted => DeliveryIsAStep(w, b, g, p);
    case DeadToken => DeadAnswerIsAStep(w, b, g, p);
    case Dropped => ForgettingIsAStep(w, b, g, p.item.key);
    case Unsendable => ForgettingIsAStep(w, b, g, p.item.key);
    case _ =>
  }

  lemma StepIsLogged(w: World, b: nat, g: B.Progress, p: B.Pending, verdict: B.Verdict)
    requires Follows(w, b, g) && AsRead(g.t.rows, p)
    ensures Run(w, StepOf(b, p, verdict)).log ==
      w.log + if IsAnswer(verdict) then [Entry(b, w.now, TargetOf(p), verdict.Accepted?)] else []
  {
    var events := StepOf(b, p, verdict);
    if events != [] {
      assert events == [] + [events[0]];
      OneStep(w, [], events[0]);
    }
  }

  lemma AnswerIsHeard(before: seq<Entry>, w: World, b: nat, g: B.Progress, p: B.Pending, verdict: B.Verdict)
    requires Follows(w, b, g) && AsRead(g.t.rows, p) && Tells(before, w.log, b, g.log)
    ensures Tells(before, Run(w, StepOf(b, p, verdict)).log, b, B.Settled(g, p, verdict, g.t).log)
  {
    var try := B.Try(p.item, p.platform, g.t.now, verdict);
    StepIsLogged(w, b, g, p, verdict);
    assert B.Settled(g, p, verdict, g.t).log == g.log + [try];
    if IsAnswer(verdict) {
      OneMoreTold(before, w.log, b, g.log, Entry(b, w.now, TargetOf(p), verdict.Accepted?), try);
    } else {
      NothingTold(before, w.log, b, g.log, try);
    }
  }

  /** Time passes while the relay answers. */
  lemma TimePasses(w: World, b: nat, g: B.Progress, t: B.Tables)
    requires Follows(w, b, g) && t == g.t.(now := t.now, requests := t.requests) && t.now >= g.t.now
    ensures Follows(Step(w, Tick(t.now - w.now)), b, g.(t := t))
  {
  }

  /** A run of the batch's own steps leads to where it is, and heard what it was told. */
  ghost predicate Leads(w: World, events: seq<Event>, b: nat, keys: set<Key>, g: B.Progress) {
    && AllOwn(b, keys, events) && Follows(Run(w, events), b, g)
    && Tells(w.log, Run(w, events).log, b, g.log)
  }

  lemma WaitingLeads(w: World, events: seq<Event>, b: nat, keys: set<Key>, g: B.Progress, t: B.Tables)
    requires Leads(w, events, b, keys, g)
    requires t == g.t.(now := t.now, requests := t.requests) && t.now >= g.t.now
    ensures Leads(w, events + [Tick(t.now - Run(w, events).now)], b, keys, g.(t := t))
  {
    OneStep(w, events, Tick(t.now - Run(w, events).now));
    TimePasses(Run(w, events), b, g, t);
  }

  lemma OwnAnswer(b: nat, keys: set<Key>, events: seq<Event>, p: B.Pending, verdict: B.Verdict)
    requires AllOwn(b, keys, events) && p.item.key in keys
    ensures AllOwn(b, keys, events + StepOf(b, p, verdict))
  {
  }

  lemma AnswerLeads(w: World, events: seq<Event>, b: nat, keys: set<Key>, g: B.Progress, p: B.Pending,
                    verdict: B.Verdict)
    requires Leads(w, events, b, keys, g) && AsRead(g.t.rows, p) && p.item.key in keys
    ensures Leads(w, events + StepOf(b, p, verdict), b, keys, B.Settled(g, p, verdict, g.t))
  {
    RunAppend(w, events, StepOf(b, p, verdict));
    OwnAnswer(b, keys, events, p, verdict);
    AnswerIsAStep(Run(w, events), b, g, p, verdict);
    AnswerIsHeard(w.log, Run(w, events), b, g, p, verdict);
  }

  /** One pass of the loop, as steps. */
  lemma OneLeads(relay: B.Relay, cfg: B.Config, started: int, w: World, events: seq<Event>, b: nat, keys: set<Key>,
                 g: B.Progress, p: B.Pending) returns (all: seq<Event>)
    requires Leads(w, events, b, keys, g) && AsRead(g.t.rows, p) && p.item.key in keys
    ensures Leads(w, all, b, keys, B.One(relay, cfg, started, g, p))
  {
    if p.platform in g.unusable || B.OverBudget(cfg, started, g) {
      all := events;
      CountsAside(Run(w, events), b, g, B.One(relay, cfg, started, g, p));
    } else {
      var (verdict, t) := B.Attempted(relay, g.t, p);
      var waited := events + [Tick(t.now - Run(w, events).now)];
      WaitingLeads(w, events, b, keys, g, t);
      AnswerLeads(w, waited, b, keys, g.(t := t), p, verdict);
      all := waited + StepOf(b, p, verdict);
      StartedEarlier(w, all, b, keys, g, p, verdict, t);
    }
  }

  /** When a try started is not for the machine to know. */
  lemma StartedEarlier(w: World, all: seq<Event>, b: nat, keys: set<Key>, g: B.Progress, p: B.Pending,
                       verdict: B.Verdict, t: B.Tables)
    requires Leads(w, all, b, keys, B.Settled(g.(t := t), p, verdict, t))
    ensures Leads(w, all, b, keys, B.Settled(g, p, verdict, t))
  {
    var later, earlier := B.Settled(g.(t := t), p, verdict, t), B.Settled(g, p, verdict, t);
    CountsAside(Run(w, all), b, later, earlier);
    var n := |g.log|;
    assert later.log[..n] == g.log == earlier.log[..n];
  }

  lemma OneKeepsRead(relay: B.Relay, cfg: B.Config, started: int, g: B.Progress, p: B.Pending, pending: seq<B.Pending>)
    requires AllAsRead(g.t.rows, pending)
    ensures AllAsRead(B.One(relay, cfg, started, g, p).t.rows, pending)
  {
  }

  /** Some such run leads from `w` to where the batch is. */
  ghost predicate Reached(w: World, b: nat, keys: set<Key>, g: B.Progress) {
    exists events :: Leads(w, events, b, keys, g)
  }

  lemma OneMoreReached(relay: B.Relay, cfg: B.Config, started: int, w: World, b: nat, keys: set<Key>, g: B.Progress,
                       p: B.Pending)
    requires Reached(w, b, keys, g) && AsRead(g.t.rows, p) && p.item.key in keys
    ensures Reached(w, b, keys, B.One(relay, cfg, started, g, p))
  {
    var events :| Leads(w, events, b, keys, g);
    var all := OneLeads(relay, cfg, started, w, events, b, keys, g, p);
  }

  predicate Among(rest: seq<B.Pending>, pending: seq<B.Pending>) {
    forall p :: p in rest ==> p in pending
  }

  lemma LoopIsARun(relay: B.Relay, cfg: B.Config, w: World, b: nat, keys: set<Key>, g: B.Progress,
                   pending: seq<B.Pending>)
    requires Reached(w, b, keys, g) && AllAsRead(g.t.rows, pending) && Among(g.dead, pending)
    requires forall p :: p in pending ==> p.item.key in keys
    ensures var end := B.Loop(relay, cfg, g.t.now, g, pending);
      Reached(w, b, keys, end) && AllAsRead(end.t.rows, pending) && Among(end.dead, pending)
  {
    var started := g.t.now;
    var inv := (h: B.Progress, rest: seq<B.Pending>) =>
      Reached(w, b, keys, h) && AllAsRead(h.t.rows, pending) && Among(rest, pending) && Among(h.dead, pending);
    forall h: B.Progress, rest: seq<B.Pending> | rest != [] && inv(h, rest)
      ensures inv(B.One(relay, cfg, started, h, rest[0]), rest[1..])
    {
      assert rest[0] in pending;
      OneMoreReached(relay, cfg, started, w, b, keys, h, rest[0]);
      OneKeepsRead(relay, cfg, started, h, rest[0], pending);
    }
    PushLaws.LoopInduction(relay, cfg, started, g, pending, inv);
  }

  // ---------------------------------------------------------------------
  // Judging the dead

  lemma {:induction false} HoldElsewhere(t: B.Tables, items: seq<B.Item>, id: Id)
    requires forall it :: it in items ==> it.device != id
    ensures var held := B.HoldAll(t, items).rows;
      (id in held <==> id in t.rows) && (id in held ==> held[id] == t.rows[id])
  {
    if items != [] {
      HoldElsewhere(t, items[..|items| - 1], id);
    }
  }

  /** Holding changes nothing but when a device first answered dead. */
  predicate OnlyHeld(t: B.Tables, after: B.Tables) {
    && after == t.(rows := after.rows) && after.rows.Keys == t.rows.Keys
    && forall id :: id in t.rows ==> after.rows[id] == t.rows[id].(deadSince := after.rows[id].deadSince)
  }

  lemma HoldOneKeeps(t: B.Tables, it: B.Item)
    ensures OnlyHeld(t, B.HoldOne(t, it))
  {
  }

  lemma OnlyHeldTwice(t: B.Tables, mid: B.Tables, after: B.Tables)
    requires OnlyHeld(t, mid) && OnlyHeld(mid, after)
    ensures OnlyHeld(t, after)
  {
  }

  lemma {:induction false} HoldKeeps(t: B.Tables, items: seq<B.Item>)
    ensures OnlyHeld(t, B.HoldAll(t, items))
  {
    if items != [] {
      var n := |items| - 1;
      HoldKeeps(t, items[..n]);
      HoldOneKeeps(B.HoldAll(t, items[..n]), items[n]);
      OnlyHeldTwice(t, B.HoldAll(t, items[..n]), B.HoldAll(t, items));
    }
  }

  /** Held once, a device is held. */
  lemma {:induction false} HeldAlready(t: B.Tables, items: seq<B.Item>, it: B.Item, same: B.Item)
    requires same in items && same.device == it.device && same.token == it.token
    ensures B.HoldOne(B.HoldAll(t, items), it) == B.HoldAll(t, items)
  {
    var n := |items| - 1;
    HoldKeeps(t, items);
    HoldKeeps(t, items[..n]);
    if items[n] != same {
      HeldAlready(t, items[..n], it, same);
    }
  }

  /** The dead are the batch's first `i`, of which those with evidence are doomed. */
  function Doomed(g: B.Progress, i: nat): set<Target>
    requires i <= |g.dead|
  {
    set p | p in g.dead[..i] && B.Evidence(g.t, g.sentBy, p) :: TargetOf(p)
  }

  function HeldSoFar(g: B.Progress, i: nat): B.Tables
    requires i <= |g.dead|
  {
    B.HoldAll(g.t, B.Judged(g.t, g.sentBy, g.dead[..i], false))
  }

  /** The machine's side after the first `i` answers were judged. */
  function StateSoFar(g: B.Progress, i: nat): BatchState
    requires i <= |g.dead|
  {
    BatchState(g.sentBy, Targets(g.dead) - Targets(g.dead[..i]), Doomed(g, i))
  }

  ghost predicate JudgedSoFar(w: World, b: nat, g: B.Progress, i: nat)
    requires i <= |g.dead|
  {
    Mirrors(w, HeldSoFar(g, i)) && BatchAt(w, b) == StateSoFar(g, i)
  }

  lemma JudgedStep(g: B.Progress, i: nat, retire: bool)
    requires i < |g.dead|
    ensures var before := B.Judged(g.t, g.sentBy, g.dead[..i], retire);
      B.Judged(g.t, g.sentBy, g.dead[..i + 1], retire) ==
        if B.Evidence(g.t, g.sentBy, g.dead[i]) == retire then before + [g.dead[i].item] else before
  {
    assert g.dead[..i + 1][..i] == g.dead[..i];
  }

  lemma {:induction false} JudgedAre(t: B.Tables, sentBy: set<Platform>, dead: seq<B.Pending>, retire: bool)
    ensures forall it :: it in B.Judged(t, sentBy, dead, retire) <==>
              exists p :: p in dead && p.item == it && B.Evidence(t, sentBy, p) == retire
  {
    if dead != [] {
      var n := |dead| - 1;
      JudgedAre(t, sentBy, dead[..n], retire);
      assert dead == dead[..n] + [dead[n]];
    }
  }

  lemma SplitAt(g: B.Progress, i: nat)
    requires i < |g.dead|
    ensures g.dead[..i + 1] == g.dead[..i] + [g.dead[i]]
    ensures Targets(g.dead[..i + 1]) == Targets(g.dead[..i]) + {TargetOf(g.dead[i])}
    ensures Doomed(g, i + 1) ==
      Doomed(g, i) + if B.Evidence(g.t, g.sentBy, g.dead[i]) then {TargetOf(g.dead[i])} else {}
  {
    assert g.dead[..i + 1] == g.dead[..i] + [g.dead[i]];
    TargetsAppend(g.dead[..i], g.dead[i]);
  }

  /** Both sides see the same evidence. */
  lemma SameEvidence(w: World, b: nat, g: B.Progress, p: B.Pending, t: B.Tables)
    requires Mirrors(w, t) && t == g.t.(rows := t.rows) && BatchAt(w, b).sentBy == g.sentBy
    requires AsRead(g.t.rows, p) && p.item.device in t.rows && t.rows[p.item.device] == g.t.rows[p.item.device]
    ensures Evidence(w, b, TargetOf(p)) == B.Evidence(g.t, g.sentBy, p)
  {
    forall q: Platform ensures B.NameOf(p.platform) == B.NameOf(q) <==> p.platform == q {
      NamesDiffer(p.platform, q);
    }
    if p.platform !in g.sentBy && w.rows[p.item.device].deadSince.Some? {
      var since := w.rows[p.item.device].deadSince.value;
      assert forall k :: k in w.stamps && w.stamps[k].0 == p.platform && w.stamps[k].1 >= since ==>
          k in g.t.claims && g.t.claims[k].stamp == Mail.By(B.NameOf(p.platform)) && g.t.claims[k].at >= since;
      assert forall k :: k in g.t.claims && g.t.claims[k].stamp == Mail.By(B.NameOf(p.platform)) ==>
          g.t.claims[k].at >= since ==> k in w.stamps && w.stamps[k].0 == p.platform && w.stamps[k].1 >= since;
    }
  }

  /** Nobody judged before shares the device of a target not judged yet. */
  lemma NotTouchedYet(g: B.Progress, i: nat)
    requires i < |g.dead| && AllAsRead(g.t.rows, g.dead) && TargetOf(g.dead[i]) !in Targets(g.dead[..i])
    requires AsRead(g.t.rows, g.dead[i])
    ensures var d := g.dead[i].item.device;
      d in HeldSoFar(g, i).rows && HeldSoFar(g, i).rows[d] == g.t.rows[d]
  {
    var p, before := g.dead[i], B.Judged(g.t, g.sentBy, g.dead[..i], false);
    JudgedAre(g.t, g.sentBy, g.dead[..i], false);
    forall it | it in before ensures it.device != p.item.device {
      var q :| q in g.dead[..i] && q.item == it;
      assert q in g.dead && p in g.dead && TargetOf(q) in Targets(g.dead[..i]);
    }
    HoldElsewhere(g.t, before, p.item.device);
  }

  /** A judgement dooms the target or holds its device. */
  lemma JudgeOnce(w: World, b: nat, t: B.Tables, p: B.Pending)
    requires Mirrors(w, t) && AsRead(t.rows, p) && TargetOf(p) in BatchAt(w, b).dead
    ensures var s, after := BatchAt(w, b), Step(w, Judge(b, TargetOf(p)));
      if Evidence(w, b, TargetOf(p)) then
        && Mirrors(after, t)
        && BatchAt(after, b) == s.(dead := s.dead - {TargetOf(p)}, doomed := s.doomed + {TargetOf(p)})
      else
        Mirrors(after, B.HoldOne(t, p.item)) && BatchAt(after, b) == s.(dead := s.dead - {TargetOf(p)})
  {
  }

  lemma HeldNext(g: B.Progress, i: nat)
    requires i < |g.dead|
    ensures HeldSoFar(g, i + 1) ==
      if B.Evidence(g.t, g.sentBy, g.dead[i]) then HeldSoFar(g, i) else B.HoldOne(HeldSoFar(g, i), g.dead[i].item)
  {
    JudgedStep(g, i, false);
    var before := B.Judged(g.t, g.sentBy, g.dead[..i], false);
    assert (before + [g.dead[i].item])[..|before|] == before;
  }

  lemma StateNext(g: B.Progress, i: nat)
    requires i < |g.dead|
    ensures var s, t := StateSoFar(g, i), TargetOf(g.dead[i]);
      StateSoFar(g, i + 1) ==
        if B.Evidence(g.t, g.sentBy, g.dead[i]) then s.(dead := s.dead - {t}, doomed := s.doomed + {t})
        else s.(dead := s.dead - {t})
  {
    SplitAt(g, i);
  }

  lemma FirstJudgement(w: World, b: nat, g: B.Progress, i: nat)
    requires i < |g.dead| && AllAsRead(g.t.rows, g.dead) && JudgedSoFar(w, b, g, i)
    requires TargetOf(g.dead[i]) !in Targets(g.dead[..i])
    ensures JudgedSoFar(Step(w, Judge(b, TargetOf(g.dead[i]))), b, g, i + 1)
  {
    var p := g.dead[i];
    assert p in g.dead && TargetOf(p) in Targets(g.dead);
    StateNext(g, i);
    HeldNext(g, i);
    HoldKeeps(g.t, B.Judged(g.t, g.sentBy, g.dead[..i], false));
    assert AsRead(g.t.rows, p);
    NotTouchedYet(g, i);
    SameEvidence(w, b, g, p, HeldSoFar(g, i));
    JudgeOnce(w, b, HeldSoFar(g, i), p);
  }

  /** A target that was judged before is held already, if it has to be. */
  lemma JudgedTwice(g: B.Progress, i: nat)
    requires i < |g.dead| && AllAsRead(g.t.rows, g.dead) && TargetOf(g.dead[i]) in Targets(g.dead[..i])
    ensures HeldSoFar(g, i + 1) == HeldSoFar(g, i) && Doomed(g, i + 1) == Doomed(g, i)
  {
    var p := g.dead[i];
    var q :| q in g.dead[..i] && TargetOf(q) == TargetOf(p);
    assert q in g.dead && p in g.dead;
    assert B.Evidence(g.t, g.sentBy, q) == B.Evidence(g.t, g.sentBy, p);
    SplitAt(g, i);
    HeldNext(g, i);
    if !B.Evidence(g.t, g.sentBy, p) {
      JudgedAre(g.t, g.sentBy, g.dead[..i], false);
      HeldAlready(g.t, B.Judged(g.t, g.sentBy, g.dead[..i], false), p.item, q.item);
    }
  }

  lemma SecondJudgement(w: World, b: nat, g: B.Progress, i: nat)
    requires i < |g.dead| && AllAsRead(g.t.rows, g.dead) && JudgedSoFar(w, b, g, i)
    requires TargetOf(g.dead[i]) in Targets(g.dead[..i])
    ensures JudgedSoFar(w, b, g, i + 1) && Step(w, Judge(b, TargetOf(g.dead[i]))) == w
  {
    SplitAt(g, i);
    JudgedTwice(g, i);
  }

  /** The batch's own steps, of which the platforms hear nothing. */
  predicate SilentlyOwn(w: World, events: seq<Event>, b: nat) {
    AllOwn(b, {}, events) && Run(w, events).log == w.log
  }

  lemma OneMoreSilent(w: World, e: Event, more: seq<Event>, b: nat)
    requires Own(b, {}, e) && Step(w, e).log == w.log && SilentlyOwn(Step(w, e), more, b)
    ensures SilentlyOwn(w, [e] + more, b) && Run(w, [e] + more) == Run(Step(w, e), more)
  {
    assert ([e] + more)[1..] == more;
  }

  lemma {:induction false} JudgingIsARun(w: World, b: nat, g: B.Progress, i: nat) returns (events: seq<Event>)
    requires i <= |g.dead| && AllAsRead(g.t.rows, g.dead) && JudgedSoFar(w, b, g, i)
    ensures JudgedSoFar(Run(w, events), b, g, |g.dead|) && SilentlyOwn(w, events, b)
    decreases |g.dead| - i
  {
    if i == |g.dead| {
      events := [];
    } else {
      var e := Judge(b, TargetOf(g.dead[i]));
      if TargetOf(g.dead[i]) in Targets(g.dead[..i]) {
        SecondJudgement(w, b, g, i);
      } else {
        FirstJudgement(w, b, g, i);
      }
      var more := JudgingIsARun(Step(w, e), b, g, i + 1);
      events := [e] + more;
      OneMoreSilent(w, e, more, b);
    }
  }

  // ---------------------------------------------------------------------
  // Retiring

  /** Every device is judged, and the doomed among the first `i` answers are retired. */
  function RetiredSoFar(g: B.Progress, t: B.Tables, i: nat): B.Tables
    requires i <= |g.dead|
  {
    B.RetireAll(t, B.Judged(g.t, g.sentBy, g.dead[..i], true))
  }

  ghost predicate RetiringSoFar(w: World, b: nat, g: B.Progress, i: nat)
    requires i <= |g.dead|
  {
    && Mirrors(w, RetiredSoFar(g, HeldSoFar(g, |g.dead|), i))
    && BatchAt(w, b).doomed == Doomed(g, |g.dead|)
  }

  lemma RetiredNext(g: B.Progress, t: B.Tables, i: nat)
    requires i < |g.dead|
    ensures RetiredSoFar(g, t, i + 1) ==
      if B.Evidence(g.t, g.sentBy, g.dead[i]) then B.RetireOne(RetiredSoFar(g, t, i), g.dead[i].item)
      else RetiredSoFar(g, t, i)
  {
    JudgedStep(g, i, true);
    var before := B.Judged(g.t, g.sentBy, g.dead[..i], true);
    assert (before + [g.dead[i].item])[..|before|] == before;
  }

  lemma RetireIsAStep(w: World, b: nat, t: B.Tables, p: B.Pending)
    requires Mirrors(w, t) && p.item.token == Some(p.token) && TargetOf(p) in BatchAt(w, b).doomed
    ensures var after := Step(w, RetireNow(b, TargetOf(p)));
      Mirrors(after, B.RetireOne(t, p.item)) && after.batches == w.batches
  {
  }

  lemma {:induction false} RetiringIsARun(w: World, b: nat, g: B.Progress, i: nat) returns (events: seq<Event>)
    requires i <= |g.dead| && AllAsRead(g.t.rows, g.dead) && RetiringSoFar(w, b, g, i)
    ensures RetiringSoFar(Run(w, events), b, g, |g.dead|) && SilentlyOwn(w, events, b)
    decreases |g.dead| - i
  {
    if i == |g.dead| {
      events := [];
    } else {
      var p, t := g.dead[i], HeldSoFar(g, |g.dead|);
      RetiredNext(g, t, i);
      if B.Evidence(g.t, g.sentBy, p) {
        assert p in g.dead && g.dead[..|g.dead|] == g.dead && TargetOf(p) in Doomed(g, |g.dead|);
        RetireIsAStep(w, b, RetiredSoFar(g, t, i), p);
        var e := RetireNow(b, TargetOf(p));
        var more := RetiringIsARun(Step(w, e), b, g, i + 1);
        events := [e] + more;
        OneMoreSilent(w, e, more, b);
      } else {
        events := RetiringIsARun(w, b, g, i + 1);
      }
    }
  }

  // ---------------------------------------------------------------------
  // Retiring first and holding first come to the same

  lemma RowsApart(rows: Rows, d: Id, r: Row, e: Id, q: Row)
    requires d != e
    ensures rows[d := r][e := q] == rows[e := q][d := r]
  {
  }

  lemma OneAndOne(t: B.Tables, retire: B.Item, hold: B.Item)
    ensures B.RetireOne(B.HoldOne(t, hold), retire) == B.HoldOne(B.RetireOne(t, retire), hold)
  {
    var d, e := retire.device, hold.device;
    if d in t.rows && e in t.rows {
      var retired, held := t.rows[d].(retired := true), t.rows[e].(deadSince := Some(t.now));
      if d != e {
        RowsApart(t.rows, d, retired, e, held);
      } else {
        assert t.rows[d := retired][d := held.(retired := true)] == t.rows[d := held.(retired := true)]
            == t.rows[d := held][d := held.(retired := true)];
      }
    }
  }

  lemma {:induction false} OneAndAll(t: B.Tables, retire: B.Item, hold: seq<B.Item>)
    ensures B.RetireOne(B.HoldAll(t, hold), retire) == B.HoldAll(B.RetireOne(t, retire), hold)
  {
    if hold != [] {
      var n := |hold| - 1;
      OneAndAll(t, retire, hold[..n]);
      OneAndOne(B.HoldAll(t, hold[..n]), retire, hold[n]);
    }
  }

  lemma {:induction false} AllAndAll(t: B.Tables, retire: seq<B.Item>, hold: seq<B.Item>)
    ensures B.RetireAll(B.HoldAll(t, hold), retire) == B.HoldAll(B.RetireAll(t, retire), hold)
  {
    if retire != [] {
      var n := |retire| - 1;
      AllAndAll(t, retire[..n], hold);
      OneAndAll(B.RetireAll(t, retire[..n]), retire[n], hold);
    }
  }

  // ---------------------------------------------------------------------
  // The whole batch

  lemma ClaimsAreForgotten(t: B.Tables, cfg: B.Config, items: seq<B.Item>, w: World)
    requires Mirrors(w, t)
    ensures var c := B.ClaimItems(t, cfg, items);
      Mirrors(Step(w, Forget(B.KeysOf(B.ItemsOf(c.pending)))), t.(claims := c.claims))
  {
    var c := B.ClaimItems(t, cfg, items);
    PushLaws.ClaimingIsSound(t, cfg, items);
    KeysForgotten(w, t, B.KeysOf(B.ItemsOf(c.pending)), c.claims);
  }

  lemma ClaimedAsRead(t: B.Tables, cfg: B.Config, items: seq<B.Item>)
    ensures AllAsRead(t.rows, B.ClaimItems(t, cfg, items).pending)
  {
    PushLaws.ClaimingIsSound(t, cfg, items);
  }

  lemma StartIsReached(t: B.Tables, cfg: B.Config, items: seq<B.Item>, w: World, b: nat)
    requires Mirrors(w, t) && Unused(w, b)
    ensures var c := B.ClaimItems(t, cfg, items);
      && Reached(w, b, B.KeysOf(items), B.Start(t, c))
      && forall p :: p in c.pending ==> p.item.key in B.KeysOf(items)
  {
    var c := B.ClaimItems(t, cfg, items);
    var claim := Forget(B.KeysOf(B.ItemsOf(c.pending)));
    ClaimsAreForgotten(t, cfg, items, w);
    ClaimedItems(t, cfg, items);
    OneStep(w, [], claim);
    assert [] + [claim] == [claim];
    assert Leads(w, [claim], b, B.KeysOf(items), B.Start(t, c));
  }

  lemma ClaimedItems(t: B.Tables, cfg: B.Config, items: seq<B.Item>)
    ensures var c := B.ClaimItems(t, cfg, items);
      && B.KeysOf(B.ItemsOf(c.pending)) <= B.KeysOf(items)
      && forall p :: p in c.pending ==> p.item.key in B.KeysOf(items)
  {
    var c := B.ClaimItems(t, cfg, items);
    PushLaws.ClaimingIsSound(t, cfg, items);
    forall it | it in B.ItemsOf(c.pending) ensures it in items {
      assert it in multiset(items);
    }
    forall p | p in c.pending ensures p.item in B.ItemsOf(c.pending) {
      var i :| 0 <= i < |c.pending| && c.pending[i] == p;
      assert B.ItemsOf(c.pending)[i] == p.item;
    }
  }

  lemma JudgedAndRetired(w: World, b: nat, g: B.Progress) returns (events: seq<Event>)
    requires Follows(w, b, g) && AllAsRead(g.t.rows, g.dead)
    ensures var retire, hold := B.Judged(g.t, g.sentBy, g.dead, true), B.Judged(g.t, g.sentBy, g.dead, false);
      Mirrors(Run(w, events), B.HoldAll(B.RetireAll(g.t, retire), hold)) && SilentlyOwn(w, events, b)
  {
    assert g.dead[..|g.dead|] == g.dead && g.dead[..0] == [];
    assert JudgedSoFar(w, b, g, 0);
    var judge := JudgingIsARun(w, b, g, 0);
    assert RetiringSoFar(Run(w, judge), b, g, 0);
    var retire := RetiringIsARun(Run(w, judge), b, g, 0);
    events := judge + retire;
    RunAppend(w, judge, retire);
    AllAndAll(g.t, B.Judged(g.t, g.sentBy, g.dead, true), B.Judged(g.t, g.sentBy, g.dead, false));
  }

  lemma ReleasedAtLast(w: World, t: B.Tables, keys: set<Key>)
    requires Mirrors(w, t)
    ensures Mirrors(Step(w, Forget(keys)), t.(claims := t.claims - keys))
  {
    KeysForgotten(w, t, keys, t.claims - keys);
  }

  lemma EndingChangesNoTable(w: World, t: B.Tables, b: nat)
    requires Mirrors(w, t)
    ensures Mirrors(Step(w, EndBatch(b)), t) && b !in Step(w, EndBatch(b)).batches
  {
  }

  /** Releasing and ending come last. */
  lemma EndingSteps(w: World, first: seq<Event>, b: nat, freed: set<Key>, t: B.Tables)
    requires SilentlyOwn(w, first, b) && Mirrors(Run(w, first), t)
    ensures var events := first + [Forget(freed)] + [EndBatch(b)];
      && AllOwn(b, freed, events) && Run(w, events).log == w.log && b in Run(w, events).ended
      && Mirrors(Run(w, events), t.(claims := t.claims - freed))
  {
    var mid := Run(w, first);
    ReleasedAtLast(mid, t, freed);
    EndingChangesNoTable(Step(mid, Forget(freed)), t.(claims := t.claims - freed), b);
    OneStep(w, first, Forget(freed));
    OneStep(w, first + [Forget(freed)], EndBatch(b));
  }

  lemma MoreKeys(b: nat, freed: set<Key>, keys: set<Key>, events: seq<Event>)
    requires AllOwn(b, freed, events) && freed <= keys
    ensures AllOwn(b, keys, events)
  {
  }

  /** What is left once the loop is done, as steps. */
  lemma FinishIsARun(w: World, b: nat, keys: set<Key>, c: B.Claimed, g: B.Progress) returns (events: seq<Event>)
    requires Follows(w, b, g) && AllAsRead(g.t.rows, g.dead)
    requires B.KeysOf(B.Finish(c, g).retired) + B.KeysOf(B.Finish(c, g).released) <= keys
    ensures Mirrors(Run(w, events), B.Finish(c, g).t) && b in Run(w, events).ended
    ensures AllOwn(b, keys, events) && Run(w, events).log == w.log
  {
    var retire, hold := B.Judged(g.t, g.sentBy, g.dead, true), B.Judged(g.t, g.sentBy, g.dead, false);
    var t := B.HoldAll(B.RetireAll(g.t, retire), hold);
    var freed := B.KeysOf(retire) + B.KeysOf(g.released + hold);
    var first := JudgedAndRetired(w, b, g);
    EndingSteps(w, first, b, freed, t);
    assert t.claims - B.KeysOf(retire) - B.KeysOf(g.released + hold) == t.claims - freed;
    events := first + [Forget(freed)] + [EndBatch(b)];
    MoreKeys(b, freed, keys, events);
  }

  lemma FreedKeys(relay: B.Relay, cfg: B.Config, t: B.Tables, items: seq<B.Item>)
    ensures var o := B.Batch(relay, cfg, t, items);
      B.KeysOf(o.retired) + B.KeysOf(o.released) <= B.KeysOf(items)
  {
    var o := B.Batch(relay, cfg, t, items);
    PushLaws.EveryPushIsAccountedFor(relay, cfg, t, items);
    KeysOfPart(items, o.retired);
    KeysOfPart(items, o.released);
  }

  lemma KeysOfPart(items: seq<B.Item>, part: seq<B.Item>)
    requires multiset(part) <= multiset(items)
    ensures B.KeysOf(part) <= B.KeysOf(items)
  {
    forall it | it in part ensures it in items {
      assert it in multiset(part) && it in multiset(items);
    }
  }

  /** A whole push batch is a run of its own steps: from every state of the machine that
      shows the tables the batch starts with, under a number nobody used, they lead to
      one that shows those it leaves, and what the machine heard on the way is what the
      platforms told the batch, in order, and nothing else. */
  lemma ABatchIsARun(relay: B.Relay, cfg: B.Config, t: B.Tables, items: seq<B.Item>, w: World, b: nat)
      returns (events: seq<Event>)
    requires Mirrors(w, t) && Unused(w, b)
    ensures var o := B.Batch(relay, cfg, t, items);
      && AllOwn(b, B.KeysOf(items), events) && b in Run(w, events).ended
      && Mirrors(Run(w, events), o.t) && Tells(w.log, Run(w, events).log, b, o.log)
  {
    var c, keys := B.ClaimItems(t, cfg, items), B.KeysOf(items);
    StartIsReached(t, cfg, items, w, b);
    ClaimedAsRead(t, cfg, items);
    LoopIsARun(relay, cfg, w, b, keys, B.Start(t, c), c.pending);
    var g := B.Loop(relay, cfg, t.now, B.Start(t, c), c.pending);
    var loop :| Leads(w, loop, b, keys, g);
    FreedKeys(relay, cfg, t, items);
    var rest := FinishIsARun(Run(w, loop), b, keys, c, g);
    events := loop + rest;
    RunAppend(w, loop, rest);
  }

  // ---------------------------------------------------------------------
  // What the machine's theorems say of a batch

  ghost predicate ToldOf(answers: seq<Answer>, p: Platform) {
    exists a :: a in answers && a.accepted && a.platform == p
  }

  lemma DeliveredNext(log: seq<B.Try>, last: B.Try, p: Platform)
    ensures PushLaws.Delivered(log + [last], p) <==>
              PushLaws.Delivered(log, p) || (last.verdict.Accepted? && last.platform == p)
  {
    assert (log + [last])[|log|] == last;
    assert forall j :: 0 <= j < |log| ==> (log + [last])[j] == log[j];
  }

  lemma ToldNext(answers: seq<Answer>, last: Answer, p: Platform)
    ensures ToldOf(answers + [last], p) <==> ToldOf(answers, p) || (last.accepted && last.platform == p)
  {
    assert last in answers + [last];
  }

  lemma {:induction false} DeliveredIsTold(log: seq<B.Try>, p: Platform)
    ensures ToldOf(Told(log), p) <==> PushLaws.Delivered(log, p)
  {
    if log != [] {
      var n := |log| - 1;
      DeliveredIsTold(log[..n], p);
      assert log == log[..n] + [log[n]];
      DeliveredNext(log[..n], log[n], p);
      ToldNext(Told(log[..n]), AnswerOf(log[n]), p);
    }
  }

  /** A platform has accepted a push when it had before the batch, or did in it; and
      under the batch's number, only in it. */
  lemma AcceptedInTheBatch(before: seq<Entry>, after: seq<Entry>, b: nat, tries: seq<B.Try>, p: Platform)
    requires Tells(before, after, b, tries) && forall i :: 0 <= i < |before| ==> before[i].batch != b
    ensures AcceptedBy(after, p) <==> AcceptedBy(before, p) || PushLaws.Delivered(tries, p)
    ensures AcceptedIn(after, p, b) <==> PushLaws.Delivered(tries, p)
  {
    var n := |before|;
    DeliveredIsTold(tries, p);
    var heard := Heard(after[n..]);
    forall i | n <= i < |after| && after[i].accepted && after[i].target.platform == p ensures ToldOf(heard, p) {
      assert heard[i - n].accepted && heard[i - n].platform == p;
    }
    forall i | 0 <= i < n ensures after[i] == before[i] {
    }
    if ToldOf(heard, p) {
      var a :| a in heard && a.accepted && a.platform == p;
      var i :| 0 <= i < |heard| && heard[i] == a;
      assert after[n + i].accepted && after[n + i].target.platform == p && after[n + i].batch == b;
    }
  }

  lemma {:induction false} Beyond(s: set<nat>) returns (n: nat)
    ensures forall x :: x in s ==> x < n
    decreases |s|
  {
    if s == {} {
      n := 0;
    } else {
      var x :| x in s;
      var m := Beyond(s - {x});
      n := Max(m, x + 1);
      assert forall y :: y in s ==> y == x || y in s - {x};
    }
  }

  /** A run of the batch's own steps under a new number, as `ABatchIsARun` gives it. */
  ghost predicate Runs(w: World, events: seq<Event>, b: nat, items: seq<B.Item>, o: B.Outcome) {
    && Unused(w, b) && AllOwn(b, B.KeysOf(items), events) && b in Run(w, events).ended
    && Mirrors(Run(w, events), o.t) && Tells(w.log, Run(w, events).log, b, o.log)
  }

  lemma SomeRun(relay: B.Relay, cfg: B.Config, t: B.Tables, items: seq<B.Item>, w: World)
      returns (b: nat, events: seq<Event>)
    requires Mirrors(w, t) && AllNumbered(w)
    ensures Runs(w, events, b, items, B.Batch(relay, cfg, t, items))
    ensures forall i :: 0 <= i < |w.log| ==> w.log[i].batch != b
  {
    b := Beyond(w.batches.Keys + w.ended);
    assert b !in w.batches.Keys + w.ended;
    events := ABatchIsARun(relay, cfg, t, items, w, b);
    assert forall i :: 0 <= i < |w.log| ==> !Unused(w, w.log[i].batch);
  }

  lemma {:induction false} OwnersStayAway(w: World, events: seq<Event>, b: nat, keys: set<Key>, sub: nat)
    requires AllOwn(b, keys, events)
    ensures NoOwnersStep(w, events, sub)
    decreases |events|
  {
    if events != [] {
      assert Own(b, keys, events[0]);
      OwnersStayAway(Step(w, events[0]), events[1..], b, keys, sub);
    }
  }

  lemma ReachedStates(before: seq<Event>)
    ensures Inv(Run(EMPTY, before)) && AllNumbered(Run(EMPTY, before))
  {
    EmptyInv();
    RunKeepsInv(EMPTY, before);
    RunKeepsNumbers(EMPTY, before);
  }

  /** A platform that has accepted nothing so far, nor in the batch, ends no subscription
      by it, whatever else it answers. */
  lemma ASilentBatchEndsNoSubscription(relay: B.Relay, cfg: B.Config, t: B.Tables, items: seq<B.Item>,
                                       before: seq<Event>, sub: nat, p: Platform)
    requires var w := Run(EMPTY, before); Mirrors(w, t) && Watching(w, sub, p) && !AcceptedBy(w.log, p)
    requires !PushLaws.Delivered(B.Batch(relay, cfg, t, items).log, p)
    ensures sub in B.Batch(relay, cfg, t, items).t.subs
  {
    var w := Run(EMPTY, before);
    ReachedStates(before);
    var b, events := SomeRun(relay, cfg, t, items, w);
    AcceptedInTheBatch(w.log, Run(w, events).log, b, B.Batch(relay, cfg, t, items).log, p);
    OwnersStayAway(w, events, b, B.KeysOf(items), sub);
    SilentRunKeepsSubscriptions(w, events, sub, p);
  }

  lemma JustifiedLater(log: seq<Entry>, later: seq<Entry>, b: nat, t: Target)
    requires log <= later && Justified(log, b, t)
    ensures Justified(later, b, t)
  {
    assert forall i :: 0 <= i < |log| ==> later[i] == log[i];
  }

  lemma OwnStepsKeepTokens(w: World, e: Event, b: nat, keys: set<Key>, d: Id)
    requires Own(b, keys, e) && d in w.rows
    ensures var after := Step(w, e);
      d in after.rows && after.rows[d].token == w.rows[d].token && after.rows[d].platform == w.rows[d].platform
  {
  }

  lemma OwnStepRetires(w: World, e: Event, b: nat, keys: set<Key>, d: Id)
    requires Inv(w) && Own(b, keys, e) && d in w.rows && !w.rows[d].retired
    requires d in Step(w, e).rows && Step(w, e).rows[d].retired
    ensures Justified(w.log, b, Target(d, w.rows[d].token, w.rows[d].platform))
  {
    assert BatchSound(w, b);
  }

  lemma {:induction false} RetiredOnTheWay(w: World, events: seq<Event>, b: nat, keys: set<Key>, d: Id)
    requires Inv(w) && AllOwn(b, keys, events) && d in w.rows && !w.rows[d].retired
    requires d in Run(w, events).rows && Run(w, events).rows[d].retired
    ensures Justified(Run(w, events).log, b, Target(d, w.rows[d].token, w.rows[d].platform))
    decreases |events|
  {
    var e := events[0];
    assert Own(b, keys, e);
    LogNeverShrinks(w, events);
    OwnStepsKeepTokens(w, e, b, keys, d);
    if Step(w, e).rows[d].retired {
      OwnStepRetires(w, e, b, keys, d);
      JustifiedLater(w.log, Run(w, events).log, b, Target(d, w.rows[d].token, w.rows[d].platform));
    } else {
      StepKeepsInv(w, e);
      RetiredOnTheWay(Step(w, e), events[1..], b, keys, d);
    }
  }

  /** In any history a batch retires a device only if its platform accepted a push in the
      batch, or, somewhere in what is then on record, since the device's token first
      answered dead. */
  lemma ABatchRetiresOnEvidence(relay: B.Relay, cfg: B.Config, t: B.Tables, items: seq<B.Item>, before: seq<Event>,
                                d: Id) returns (b: nat, events: seq<Event>)
    requires Mirrors(Run(EMPTY, before), t) && d in t.rows && !t.rows[d].retired
    requires var after := B.Batch(relay, cfg, t, items).t.rows; d in after && after[d].retired
    ensures var w, o := Run(EMPTY, before), B.Batch(relay, cfg, t, items);
      && Runs(w, events, b, items, o)
      && (|| PushLaws.Delivered(o.log, t.rows[d].platform)
          || AcceptedSince(Run(w, events).log, Target(d, t.rows[d].token, t.rows[d].platform)))
  {
    var w := Run(EMPTY, before);
    ReachedStates(before);
    b, events := SomeRun(relay, cfg, t, items, w);
    AcceptedInTheBatch(w.log, Run(w, events).log, b, B.Batch(relay, cfg, t, items).log, t.rows[d].platform);
    RetiredOnTheWay(w, events, b, B.KeysOf(items), d);
  }
}
