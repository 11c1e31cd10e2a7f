/** Idempotency claims between concurrent senders (`_claim`, stamp and release in app/mail.py). */
module ClaimProtocol {
  import opened Common
  import opened MailDelivery
  import opened MailBatch

  // Any interleaving of workers claiming, having a mail accepted, recording it,
  // releasing, crashing, and the clock.

  type Worker = nat

  /** A worker that claimed `key` at `since`; `accepted` once a provider took the
      mail and the row is not stamped yet. */
  datatype Job = Job(key: Key, since: int, accepted: bool)

  datatype Entry = Claimed(key: Key, at: int) | Released(key: Key)

  /** `deliveries` lists the key of every mail a provider accepted, `log` every
      successful claim and every release. */
  datatype State = State(now: int, claims: Claims, jobs: map<Worker, Job>,
                         deliveries: seq<Key>, log: seq<Entry>)

  datatype Event =
    | Tick(seconds: nat)
    | Claim(worker: Worker, key: Key)
    | Accept(worker: Worker)
    | Record(worker: Worker, provider: string)
    | Release(worker: Worker)
    | Crash(worker: Worker)

  const EMPTY := State(0, map[], map[], [], [])

  /** One event; one that is not enabled changes nothing. The record and the
      release act on the key alone, as the statements do. */
  function Step(s: State, e: Event): State {
    match e
    case Tick(seconds) => s.(now := s.now + seconds)
    case Claim(w, key) =>
      if w !in s.jobs && Claimable(s.claims, key, s.now) then
        s.(claims := s.claims[key := Row(Pending, s.now)], jobs := s.jobs[w := Job(key, s.now, false)],
           log := s.log + [Claimed(key, s.now)])
      else s
    case Accept(w) =>
      if w in s.jobs && !s.jobs[w].accepted then
        s.(jobs := s.jobs[w := s.jobs[w].(accepted := true)], deliveries := s.deliveries + [s.jobs[w].key])
      else s
    case Record(w, provider) =>
      if w in s.jobs && s.jobs[w].accepted then
        s.(claims := StampAll(s.claims, {s.jobs[w].key}, provider, s.now), jobs := s.jobs - {w})
      else s
    case Release(w) =>
      if w in s.jobs && !s.jobs[w].accepted then
        s.(claims := s.claims - {s.jobs[w].key}, jobs := s.jobs - {w}, log := s.log + [Released(s.jobs[w].key)])
      else s
    case Crash(w) => s.(jobs := s.jobs - {w})
  }

  function Run(s: State, events: seq<Event>): State
    decreases |events|
  {
    if events == [] then s else Run(Step(s, events[0]), events[1..])
  }

  // ---------------------------------------------------------------------
  // Every interleaving

  /** No release of the key at or after position i of the log. */
  ghost predicate Unreleased(log: seq<Entry>, key: Key, i: int) {
    forall j :: 0 <= i <= j < |log| ==> log[j] != Released(key)
  }

  /** A claim that was not released since still has its row, and if that row is
      pending it is no older than the claim. */
  ghost predicate ClaimsHeld(s: State) {
    forall i :: 0 <= i < |s.log| && s.log[i].Claimed? && Unreleased(s.log, s.log[i].key, i) ==>
      && s.log[i].key in s.claims
      && (s.claims[s.log[i].key].stamp.Pending? ==> s.claims[s.log[i].key].at >= s.log[i].at)
      && s.log[i].at <= s.now
  }

  /** Two claims of one key with no release in between are more than a stale
      window apart. */
  ghost predicate ClaimsApart(log: seq<Entry>) {
    forall i, j | 0 <= i < j < |log| && log[i].Claimed? && log[j].Claimed? && log[i].key == log[j].key
      && Unreleased(log[..j], log[i].key, i) :: log[j].at > log[i].at + STALE_CLAIM_SECONDS
  }

  lemma LogGrows(log: seq<Entry>, e: Entry)
    requires ClaimsApart(log)
    requires e.Claimed? ==>
               forall i | 0 <= i < |log| && log[i].Claimed? && log[i].key == e.key && Unreleased(log, e.key, i) ::
                 e.at > log[i].at + STALE_CLAIM_SECONDS
    ensures ClaimsApart(log + [e])
  {
    var more := log + [e];
    forall i, j | 0 <= i < j < |more| && more[i].Claimed? && more[j].Claimed? && more[i].key == more[j].key
      && Unreleased(more[..j], more[i].key, i)
      ensures more[j].at > more[i].at + STALE_CLAIM_SECONDS
    {
      if j < |log| {
        assert more[..j] == log[..j];
      } else {
        assert more[..j] == log;
      }
    }
  }

  lemma UnreleasedPrefix(log: seq<Entry>, e: Entry, key: Key, i: int)
    requires Unreleased(log + [e], key, i) && 0 <= i < |log|
    ensures Unreleased(log, key, i) && e != Released(key)
  {
    var more := log + [e];
    assert more[|log|] == e;
    forall j | 0 <= i <= j < |log| ensures log[j] != Released(key) {
      assert more[j] == log[j];
    }
  }

  lemma StepKeepsClaims(s: State, e: Event)
    requires ClaimsHeld(s) && ClaimsApart(s.log)
    ensures ClaimsHeld(Step(s, e)) && ClaimsApart(Step(s, e).log)
  {
    var t := Step(s, e);
    if t.log != s.log {
      var entry := t.log[|s.log|];
      assert t.log == s.log + [entry];
      LogGrows(s.log, entry);
      forall i | 0 <= i < |t.log| && t.log[i].Claimed? && Unreleased(t.log, t.log[i].key, i)
        ensures && t.log[i].key in t.claims
                && (t.claims[t.log[i].key].stamp.Pending? ==> t.claims[t.log[i].key].at >= t.log[i].at)
                && t.log[i].at <= t.now
      {
        if i < |s.log| {
          UnreleasedPrefix(s.log, entry, s.log[i].key, i);
        }
      }
    }
  }

  lemma {:induction false} RunKeepsClaims(s: State, events: seq<Event>)
    requires ClaimsHeld(s) && ClaimsApart(s.log)
    ensures ClaimsHeld(Run(s, events)) && ClaimsApart(Run(s, events).log)
    decreases |events|
  {
    if events != [] {
      StepKeepsClaims(s, events[0]);
      RunKeepsClaims(Step(s, events[0]), events[1..]);
    }
  }

  /** In every interleaving, two successful claims of one key are separated by a
      release of it or by more than 15 minutes. */
  lemma ClaimsOfOneKeyAreApart(events: seq<Event>)
    ensures ClaimsApart(Run(EMPTY, events).log)
  {
    RunKeepsClaims(EMPTY, events);
  }

  /** A key stamped with a provider is claimable by nobody, ever; a pending one,
      its worker crashed or not, becomes claimable once the window has passed, and
      a claim then succeeds. */
  lemma WhoCanClaim(s: State, w: Worker, key: Key, wait: nat)
    requires key in s.claims && w !in s.jobs
    ensures var later := Step(s, Tick(wait));
            var after := Step(later, Claim(w, key));
      w in after.jobs <==> s.claims[key].stamp.Pending? && s.now + wait > s.claims[key].at + 900
  {
  }

  /** A sender that records its mail is done with the key, and so is everybody else: the
      row is stamped, and however long they wait, nobody claims it. */
  lemma ARecordedKeyIsTaken(s: State, w: Worker, provider: string, v: Worker, wait: nat)
    requires w in s.jobs && s.jobs[w].accepted && s.jobs[w].key in s.claims
    ensures var after := Step(s, Record(w, provider));
      && w !in after.jobs && after.claims == s.claims[s.jobs[w].key := Row(By(provider), s.now)]
      && after.deliveries == s.deliveries && after.log == s.log && after.now == s.now
    ensures var later := Step(Step(s, Record(w, provider)), Tick(wait));
      Step(later, Claim(v, s.jobs[w].key)) == later
  {
    var key := s.jobs[w].key;
    assert StampAll(s.claims, {key}, provider, s.now) == s.claims[key := Row(By(provider), s.now)];
  }

  // ---------------------------------------------------------------------
  // At most one delivery

  /** The worker's claim has not gone stale. */
  predicate Timely(s: State, w: Worker) {
    w in s.jobs && s.now <= s.jobs[w].since + STALE_CLAIM_SECONDS
  }

  ghost predicate Stamped(s: State, key: Key) {
    key in s.claims && s.claims[key].stamp.By?
  }

  /** The pending row of the worker's key is the one the worker made. */
  predicate Owns(s: State, w: Worker) {
    w in s.jobs && s.jobs[w].key in s.claims && s.claims[s.jobs[w].key] == Row(Pending, s.jobs[w].since)
  }

  /** The row of w's key is no longer w's: it is stamped, or another worker made it and
      is still about its mail. */
  ghost predicate TakenOver(s: State, w: Worker)
    requires w in s.jobs
  {
    || Stamped(s, s.jobs[w].key)
    || exists v :: v != w && Owns(s, v) && s.jobs[v].key == s.jobs[w].key
  }

  /** What at-most-once rests on. A worker whose mail was accepted is not lost, nor
      does its claim go stale, before the row is stamped; no worker sends once its
      claim is stale; and none releases a row that was taken over. */
  ghost predicate Breach(s: State, e: Event) {
    match e
    case Tick(seconds) =>
      exists w :: w in s.jobs && s.jobs[w].accepted && s.now + seconds > s.jobs[w].since + STALE_CLAIM_SECONDS
    case Accept(w) => w in s.jobs && !s.jobs[w].accepted && !Timely(s, w)
    case Release(w) => w in s.jobs && !s.jobs[w].accepted && TakenOver(s, w)
    case Crash(w) => w in s.jobs && s.jobs[w].accepted
    case _ => false
  }

  ghost predicate PunctualRun(s: State, events: seq<Event>)
    decreases |events|
  {
    events != [] ==> !Breach(s, events[0]) && PunctualRun(Step(s, events[0]), events[1..])
  }

  /** A timely worker owns the row of its key, alone, and an accepted one is timely. */
  ghost predicate OwnersAlone(s: State) {
    && (forall w :: Timely(s, w) ==> Owns(s, w))
    && (forall w, v :: Timely(s, w) && Timely(s, v) && w != v ==> s.jobs[w].key != s.jobs[v].key)
    && (forall w :: w in s.jobs && s.jobs[w].accepted ==> Timely(s, w))
  }

  ghost predicate AcceptedNow(s: State, key: Key) {
    exists w :: w in s.jobs && s.jobs[w].accepted && s.jobs[w].key == key
  }

  ghost predicate Once(deliveries: seq<Key>) {
    forall i, j :: 0 <= i < j < |deliveries| ==> deliveries[i] != deliveries[j]
  }

  /** No key is delivered twice, and the delivered ones are those that are stamped, or
      whose accepted worker is about to stamp them. */
  ghost predicate DeliveredOnce(s: State) {
    && Once(s.deliveries)
    && (forall key :: key in s.deliveries <==> Stamped(s, key) || AcceptedNow(s, key))
    && (forall key :: key in s.claims ==> s.claims[key].at <= s.now)
  }

  lemma StepKeepsOwners(s: State, e: Event)
    requires OwnersAlone(s) && !Breach(s, e)
    ensures OwnersAlone(Step(s, e))
  {
    var t := Step(s, e);
    forall w | Timely(t, w) ensures Owns(t, w) {
      if w in s.jobs && Timely(s, w) {
        assert Owns(s, w);
      }
    }
  }

  /** Nobody can claim a key that was delivered, and no timely worker that is still
      sending holds one. */
  lemma DeliveredIsTaken(s: State, key: Key)
    requires OwnersAlone(s) && DeliveredOnce(s) && key in s.deliveries
    ensures !Claimable(s.claims, key, s.now)
    ensures forall w :: Timely(s, w) && s.jobs[w].key == key ==> s.jobs[w].accepted
  {
    if !Stamped(s, key) {
      var v :| v in s.jobs && s.jobs[v].accepted && s.jobs[v].key == key;
      assert Timely(s, v);
    }
  }

  lemma ReleaseKeepsDelivered(s: State, w: Worker)
    requires OwnersAlone(s) && DeliveredOnce(s) && !Breach(s, Release(w))
    requires w in s.jobs && !s.jobs[w].accepted
    ensures s.jobs[w].key !in s.deliveries
  {
    assert forall v :: v in s.jobs && s.jobs[v].accepted ==> Timely(s, v) && Owns(s, v);
  }

  /** A step that delivers nothing: who is stamped or accepted stays so. */
  lemma StillTaken(s: State, e: Event, key: Key)
    requires OwnersAlone(s) && DeliveredOnce(s) && !Breach(s, e)
    ensures key in s.deliveries ==> Stamped(Step(s, e), key) || AcceptedNow(Step(s, e), key)
  {
    var t := Step(s, e);
    if key in s.deliveries {
      DeliveredIsTaken(s, key);
      if e.Release? && e.worker in s.jobs && !s.jobs[e.worker].accepted {
        ReleaseKeepsDelivered(s, e.worker);
      }
      if !Stamped(s, key) {
        var v :| v in s.jobs && s.jobs[v].accepted && s.jobs[v].key == key;
        assert Stamped(t, key) || (v in t.jobs && t.jobs[v] == s.jobs[v]);
      }
    }
  }

  lemma NewlyTaken(s: State, e: Event, key: Key)
    requires OwnersAlone(s) && DeliveredOnce(s) && !Breach(s, e)
    requires Stamped(Step(s, e), key) || AcceptedNow(Step(s, e), key)
    ensures key in Step(s, e).deliveries
  {
    var t := Step(s, e);
    if !Stamped(t, key) {
      var v :| v in t.jobs && t.jobs[v].accepted && t.jobs[v].key == key;
      assert v in s.jobs && s.jobs[v].accepted ==> AcceptedNow(s, key);
    }
  }

  lemma StepKeepsOnce(s: State, e: Event)
    requires OwnersAlone(s) && DeliveredOnce(s) && !Breach(s, e)
    ensures DeliveredOnce(Step(s, e))
  {
    var t := Step(s, e);
    if e.Accept? && t != s {
      if s.jobs[e.worker].key in s.deliveries {
        DeliveredIsTaken(s, s.jobs[e.worker].key);
      }
      assert t.jobs[e.worker].accepted;
    }
    forall key ensures key in t.deliveries <==> Stamped(t, key) || AcceptedNow(t, key) {
      StillTaken(s, e, key);
      if Stamped(t, key) || AcceptedNow(t, key) {
        NewlyTaken(s, e, key);
      }
    }
  }

  lemma {:induction false} RunKeepsOnce(s: State, events: seq<Event>)
    requires OwnersAlone(s) && DeliveredOnce(s) && PunctualRun(s, events)
    ensures OwnersAlone(Run(s, events)) && DeliveredOnce(Run(s, events))
    decreases |events|
  {
    if events != [] {
      StepKeepsOwners(s, events[0]);
      StepKeepsOnce(s, events[0]);
      RunKeepsOnce(Step(s, events[0]), events[1..]);
    }
  }

  lemma EmptyIsSound()
    ensures OwnersAlone(EMPTY) && DeliveredOnce(EMPTY)
  {
  }

  /** In every punctual interleaving no key is delivered twice. */
  lemma DeliveredAtMostOnce(events: seq<Event>)
    requires PunctualRun(EMPTY, events)
    ensures Once(Run(EMPTY, events).deliveries)
  {
    EmptyIsSound();
    RunKeepsOnce(EMPTY, events);
  }

  // ---------------------------------------------------------------------
  // And no less will do

  lemma SomebodyElse(jobs: map<Worker, Job>) returns (w: Worker)
    ensures w !in jobs
  {
    w := Above(jobs.Keys);
  }

  lemma {:induction false} Above(busy: set<Worker>) returns (n: nat)
    ensures forall w :: w in busy ==> w < n
    decreases |busy|
  {
    if busy == {} {
      n := 0;
    } else {
      var w :| w in busy;
      var m := Above(busy - {w});
      n := Max(m, w + 1);
      assert forall x :: x in busy ==> x == w || x in busy - {w};
    }
  }

  lemma TwiceIsNotOnce(deliveries: seq<Key>, key: Key)
    requires key in deliveries
    ensures !Once(deliveries + [key])
  {
    var i :| 0 <= i < |deliveries| && deliveries[i] == key;
    var more := deliveries + [key];
    assert more[i] == more[|deliveries|];
  }

  /** A delivered key without a stamp can be claimed in time, and delivered again. */
  lemma SecondDelivery(s: State, key: Key) returns (more: seq<Event>)
    requires key in s.deliveries && (key in s.claims ==> s.claims[key].stamp.Pending? && s.claims[key].at <= s.now)
    ensures !Once(Run(s, more).deliveries)
  {
    var w := SomebodyElse(s.jobs);
    more := [Tick(STALE_CLAIM_SECONDS + 1), Claim(w, key), Accept(w)];
    var later := Step(s, Tick(STALE_CLAIM_SECONDS + 1));
    assert more[1..] == [Claim(w, key), Accept(w)];
    RunTwo(later, Claim(w, key), Accept(w));
    TwiceIsNotOnce(s.deliveries, key);
  }

  /** A delivery to come of a key that is out already. */
  lemma LateDelivery(s: State, v: Worker)
    requires v in s.jobs && !s.jobs[v].accepted && s.jobs[v].key in s.deliveries
    ensures !Once(Run(s, [Accept(v)]).deliveries)
  {
    assert [Accept(v)][1..] == [];
    TwiceIsNotOnce(s.deliveries, s.jobs[v].key);
  }

  /** A released row of a worker that is still sending: somebody else sends too. */
  lemma SecondSender(s: State, v: Worker) returns (more: seq<Event>)
    requires v in s.jobs && !s.jobs[v].accepted && s.jobs[v].key !in s.claims
    ensures !Once(Run(s, more).deliveries)
  {
    var key := s.jobs[v].key;
    var w := SomebodyElse(s.jobs);
    var first := [Claim(w, key), Accept(w)];
    RunTwo(s, Claim(w, key), Accept(w));
    LateDelivery(Run(s, first), v);
    more := first + [Accept(v)];
    RunThen(s, first, [Accept(v)]);
  }

  lemma StaleAcceptGoesWrong(s: State, w: Worker) returns (more: seq<Event>)
    requires OwnersAlone(s) && DeliveredOnce(s) && w in s.jobs && !s.jobs[w].accepted && !Timely(s, w)
    ensures !Once(Run(Step(s, Accept(w)), more).deliveries)
  {
    var t, key := Step(s, Accept(w)), s.jobs[w].key;
    assert t.deliveries[|s.deliveries|] == key;
    if Stamped(s, key) {
      more := [];
      TwiceIsNotOnce(s.deliveries, key);
    } else {
      more := SecondDelivery(t, key);
    }
  }

  lemma ReleaseGoesWrong(s: State, w: Worker) returns (more: seq<Event>)
    requires OwnersAlone(s) && DeliveredOnce(s) && w in s.jobs && !s.jobs[w].accepted && TakenOver(s, w)
    ensures !Once(Run(Step(s, Release(w)), more).deliveries)
  {
    var t, key := Step(s, Release(w)), s.jobs[w].key;
    if key in s.deliveries {
      more := SecondDelivery(t, key);
    } else {
      var v :| v != w && Owns(s, v) && s.jobs[v].key == key;
      assert s.jobs[v].accepted ==> AcceptedNow(s, key);
      more := SecondSender(t, v);
    }
  }

  /** The condition is exact: from every state that a punctual run reaches, each breach
      leaves a way on in which some key is delivered twice. */
  lemma EveryBreachCanDeliverTwice(events: seq<Event>, e: Event) returns (more: seq<Event>)
    requires PunctualRun(EMPTY, events) && Breach(Run(EMPTY, events), e)
    ensures !Once(Run(Step(Run(EMPTY, events), e), more).deliveries)
  {
    EmptyIsSound();
    RunKeepsOnce(EMPTY, events);
    var s := Run(EMPTY, events);
    match e
    case Tick(seconds) =>
      var w :| w in s.jobs && s.jobs[w].accepted && s.now + seconds > s.jobs[w].since + STALE_CLAIM_SECONDS;
      assert Owns(s, w) && AcceptedNow(s, s.jobs[w].key);
      more := SecondDelivery(Step(s, e), s.jobs[w].key);
    case Crash(w) =>
      assert Owns(s, w) && AcceptedNow(s, s.jobs[w].key);
      more := SecondDelivery(Step(s, e), s.jobs[w].key);
    case Accept(w) => more := StaleAcceptGoesWrong(s, w);
    case Release(w) => more := ReleaseGoesWrong(s, w);
  }

  /** A sender overtaken after fifteen minutes delivers a key again, */
  lemma OvertakenWorkerDeliversTwice()
    ensures Run(EMPTY, [Claim(1, 7), Tick(901), Claim(2, 7), Accept(2), Accept(1)]).deliveries == [7, 7]
  {
    Overtaken();
    var s3 := Step(State(901, map[7 := Row(Pending, 0)], map[1 := Job(7, 0, false)], [], [Claimed(7, 0)]), Claim(2, 7));
    RunTwo(s3, Accept(2), Accept(1));
    RunThen(EMPTY, [Claim(1, 7), Tick(901), Claim(2, 7)], [Accept(2), Accept(1)]);
    assert [Claim(1, 7), Tick(901), Claim(2, 7)] + [Accept(2), Accept(1)] ==
           [Claim(1, 7), Tick(901), Claim(2, 7), Accept(2), Accept(1)];
  }

  lemma Overtaken()
    ensures Run(EMPTY, [Claim(1, 7), Tick(901), Claim(2, 7)]) ==
              Step(State(901, map[7 := Row(Pending, 0)], map[1 := Job(7, 0, false)], [], [Claimed(7, 0)]), Claim(2, 7))
  {
    var s1 := Step(EMPTY, Claim(1, 7));
    assert s1 == State(0, map[7 := Row(Pending, 0)], map[1 := Job(7, 0, false)], [], [Claimed(7, 0)]);
    RunTwo(s1, Tick(901), Claim(2, 7));
    RunThen(EMPTY, [Claim(1, 7)], [Tick(901), Claim(2, 7)]);
    assert [Claim(1, 7)] + [Tick(901), Claim(2, 7)] == [Claim(1, 7), Tick(901), Claim(2, 7)];
    assert [Claim(1, 7)][1..] == [];
  }

  /** and so does its late release, which frees the row for a third, */
  lemma LateReleaseDeliversTwice()
    ensures Run(EMPTY, [Claim(1, 7), Tick(901), Claim(2, 7), Release(1), Claim(3, 7), Accept(3), Accept(2)]).deliveries
        == [7, 7]
  {
    Overtaken();
    var s3 := Step(State(901, map[7 := Row(Pending, 0)], map[1 := Job(7, 0, false)], [], [Claimed(7, 0)]), Claim(2, 7));
    RunTwo(s3, Release(1), Claim(3, 7));
    var s5 := Step(Step(s3, Release(1)), Claim(3, 7));
    RunTwo(s5, Accept(3), Accept(2));
    RunThen(s3, [Release(1), Claim(3, 7)], [Accept(3), Accept(2)]);
    RunThen(EMPTY, [Claim(1, 7), Tick(901), Claim(2, 7)], [Release(1), Claim(3, 7)] + [Accept(3), Accept(2)]);
    assert [Claim(1, 7), Tick(901), Claim(2, 7)] + ([Release(1), Claim(3, 7)] + [Accept(3), Accept(2)]) ==
           [Claim(1, 7), Tick(901), Claim(2, 7), Release(1), Claim(3, 7), Accept(3), Accept(2)];
  }

  /** and so does the loss of a sender between acceptance and stamp. */
  lemma LostWorkerDeliversTwice()
    ensures Run(EMPTY, [Claim(1, 7), Accept(1), Crash(1), Tick(901), Claim(2, 7), Accept(2)]).deliveries == [7, 7]
  {
    RunTwo(EMPTY, Claim(1, 7), Accept(1));
    var s2 := Step(Step(EMPTY, Claim(1, 7)), Accept(1));
    RunTwo(s2, Crash(1), Tick(901));
    var s4 := Step(Step(s2, Crash(1)), Tick(901));
    assert s4 == State(901, map[7 := Row(Pending, 0)], map[], [7], [Claimed(7, 0)]);
    RunTwo(s4, Claim(2, 7), Accept(2));
    RunThen(s2, [Crash(1), Tick(901)], [Claim(2, 7), Accept(2)]);
    RunThen(EMPTY, [Claim(1, 7), Accept(1)], [Crash(1), Tick(901)] + [Claim(2, 7), Accept(2)]);
    assert [Claim(1, 7), Accept(1)] + ([Crash(1), Tick(901)] + [Claim(2, 7), Accept(2)]) ==
           [Claim(1, 7), Accept(1), Crash(1), Tick(901), Claim(2, 7), Accept(2)];
  }

  lemma RunTwo(s: State, e: Event, f: Event)
    ensures Run(s, [e, f]) == Step(Step(s, e), f)
  {
    assert [e, f][1..] == [f] && [f][1..] == [];
    assert Run(Step(Step(s, e), f), []) == Step(Step(s, e), f);
    assert Run(Step(s, e), [f]) == Step(Step(s, e), f);
  }

  lemma {:induction false} RunThen(s: State, first: seq<Event>, rest: seq<Event>)
    ensures Run(s, first + rest) == Run(Run(s, first), rest)
    decreases |first|
  {
    if first == [] {
      assert first + rest == rest;
    } else {
      RunThen(Step(s, first[0]), first[1..], rest);
      assert (first + rest)[0] == first[0] && (first + rest)[1..] == first[1..] + rest;
    }
  }
}
