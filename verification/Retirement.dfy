/** When a device is retired and its subscriptions end, over whole runs (`send_push_batch`
    of app/push.py, `retire_device` and `retire_unconfirmed` of app/repo.py). */
module Retirement {
  import opened Common
  import opened Devices

  // Push batches, web requests and housekeeping interleave. Every answer of a relay is
  // kept in `log`, which only proofs read.

  type Key = nat

  /** A push item as its batch read it. */
  datatype Target = Target(device: Id, token: Token, platform: Platform)

  /** A relay's answer in some batch: accepted, or dead token. */
  datatype Entry = Entry(batch: nat, at: int, target: Target, accepted: bool)

  /** A batch under way: who it delivered to, who answered dead, and whom it has
      decided to retire. */
  datatype BatchState = BatchState(sentBy: set<Platform>, dead: set<Target>, doomed: set<Target>)

  const NEW_BATCH := BatchState({}, {}, {})

  /** `stamps` are the rows of sent_idempotency that name a platform; a batch that has
      `ended` keeps its number to itself. */
  datatype World = World(now: int, rows: Rows, nextId: Id, subs: map<nat, Id>, stamps: map<Key, (Platform, int)>,
                         batches: map<nat, BatchState>, ended: set<nat>, log: seq<Entry>)

  const EMPTY := World(0, map[], 0, map[], map[], map[], {}, [])

  const MAX_UNCONFIRMED_REFUSALS := 3

  datatype Event =
    | Tick(seconds: nat)
    // devices and subscriptions
    | NewDevice(platform: Platform, token: Token, secret: Secret)
    | Reregister(id: Id, secret: Secret)
    | ChangeToken(id: Id, token: Token)
    | Touch(id: Id, row: Row)
    | Subscribe(sub: nat, id: Id)
    | Unsubscribe(sub: nat)
    | DeleteMe(id: Id)
    // push batches
    | Deliver(b: nat, key: Key, target: Target)
    | AnswerDead(b: nat, target: Target)
    | Judge(b: nat, target: Target)
    | RetireNow(b: nat, target: Target)
    | EndBatch(b: nat)
    | RetireUnconfirmed(id: Id, token: Token)
    // housekeeping
    | PurgeDevice(id: Id)
    | Forget(keys: set<Key>)

  function BatchAt(w: World, b: nat): BatchState {
    if b in w.batches then w.batches[b] else NEW_BATCH
  }

  /** The target could have been read by a batch: the device is or was there, and a
      device never changes its platform. */
  predicate Known(w: World, t: Target) {
    t.device < w.nextId && (t.device in w.rows ==> w.rows[t.device].platform == t.platform)
  }

  /** The row still holds the target's token. */
  predicate Current(w: World, t: Target) {
    t.device in w.rows && w.rows[t.device].token == t.token
  }

  predicate Evidence(w: World, b: nat, t: Target) {
    || t.platform in BatchAt(w, b).sentBy
    || (&& Current(w, t) && w.rows[t.device].deadSince.Some?
        && exists k :: k in w.stamps && w.stamps[k].0 == t.platform
             && w.stamps[k].1 >= w.rows[t.device].deadSince.value)
  }

  function Without(subs: map<nat, Id>, id: Id): map<nat, Id> {
    map s | s in subs && subs[s] != id :: subs[s]
  }

  function SetRow(w: World, id: Id, r: Row): World {
    w.(rows := w.rows[id := r])
  }

  /** `retire_device`: the row, and every live subscription on it. */
  function Retired(w: World, id: Id): World
    requires id in w.rows
  {
    SetRow(w, id, w.rows[id].(retired := true)).(subs := Without(w.subs, id))
  }

  function SetBatch(w: World, b: nat, s: BatchState): World {
    w.(batches := w.batches[b := s])
  }

  predicate Unsubscribed(w: World, id: Id) {
    forall s :: s in w.subs ==> w.subs[s] != id
  }

  /** Everything else that happens to a row: verification, refusals, purge clocks. */
  predicate SamePush(before: Row, after: Row) {
    && after.platform == before.platform && after.token == before.token
    && after.deadSince == before.deadSince && after.retired == before.retired
  }

  function Answered(w: World, b: nat, t: Target, accepted: bool): seq<Entry> {
    w.log + [Entry(b, w.now, t, accepted)]
  }

  function BatchStep(w: World, e: Event): World
    requires e.Deliver? || e.AnswerDead? || e.Judge? || e.RetireNow? || e.EndBatch?
  {
    match e
    case Deliver(b, key, t) =>
      if !Known(w, t) || b in w.ended then w
      else
        var s := BatchAt(w, b);
        var rows := if Current(w, t) then w.rows[t.device := w.rows[t.device].(deadSince := None)] else w.rows;
        w.(rows := rows, stamps := w.stamps[key := (t.platform, w.now)],
           batches := w.batches[b := s.(sentBy := s.sentBy + {t.platform})], log := Answered(w, b, t, true))
    case AnswerDead(b, t) =>
      if !Known(w, t) || b in w.ended then w
      else SetBatch(w, b, BatchAt(w, b).(dead := BatchAt(w, b).dead + {t})).(log := Answered(w, b, t, false))
    case Judge(b, t) =>
      var s := BatchAt(w, b);
      if t !in s.dead then w
      else if Evidence(w, b, t) then SetBatch(w, b, s.(dead := s.dead - {t}, doomed := s.doomed + {t}))
      else if Current(w, t) && w.rows[t.device].deadSince.None? then
        SetBatch(SetRow(w, t.device, w.rows[t.device].(deadSince := Some(w.now))), b, s.(dead := s.dead - {t}))
      else SetBatch(w, b, s.(dead := s.dead - {t}))
    case RetireNow(b, t) =>
      if t !in BatchAt(w, b).doomed || !Current(w, t) || w.rows[t.device].retired then w
      else Retired(w, t.device)
    case EndBatch(b) => w.(batches := w.batches - {b}, ended := w.ended + {b})
  }

  function Step(w: World, e: Event): World {
    match e
    case Tick(seconds) => w.(now := w.now + seconds)
    case NewDevice(platform, token, secret) =>
      w.(rows := w.rows[w.nextId := NewRow(platform, token, secret, w.now)], nextId := w.nextId + 1)
    case Reregister(id, secret) => if id in w.rows then SetRow(w, id, Reregistered(w.rows[id], secret, w.now)) else w
    case ChangeToken(id, token) => if id in w.rows then SetRow(w, id, Retokened(w.rows[id], token, w.now)) else w
    case Touch(id, row) => if id in w.rows && SamePush(w.rows[id], row) then SetRow(w, id, row) else w
    case Subscribe(sub, id) => if id in w.rows && sub !in w.subs then w.(subs := w.subs[sub := id]) else w
    case Unsubscribe(sub) => w.(subs := w.subs - {sub})
    case DeleteMe(id) => w.(rows := w.rows - {id}, subs := Without(w.subs, id))
    case Deliver(_, _, _) => BatchStep(w, e)
    case AnswerDead(_, _) => BatchStep(w, e)
    case Judge(_, _) => BatchStep(w, e)
    case RetireNow(_, _) => BatchStep(w, e)
    case EndBatch(_) => BatchStep(w, e)
    case RetireUnconfirmed(id, token) =>
      if id in w.rows && w.rows[id].token == token && w.rows[id].verifiedAt.None?
        && w.rows[id].tries >= MAX_UNCONFIRMED_REFUSALS
         && !w.rows[id].retired && Unsubscribed(w, id) then
        Retired(w, id)
      else w
    case PurgeDevice(id) => if Unsubscribed(w, id) then w.(rows := w.rows - {id}) else w
    case Forget(keys) => w.(stamps := w.stamps - keys)
  }

  function Run(w: World, events: seq<Event>): World
    decreases |events|
  {
    if events == [] then w else Run(Step(w, events[0]), events[1..])
  }

  lemma {:induction false} RunAppend(w: World, a: seq<Event>, b: seq<Event>)
    ensures Run(w, a + b) == Run(Run(w, a), b)
    decreases |a|
  {
    if a == [] {
      assert a + b == b;
    } else {
      assert (a + b)[1..] == a[1..] + b;
      RunAppend(Step(w, a[0]), a[1..], b);
    }
  }

  // ---------------------------------------------------------------------
  // What the log proves

  ghost predicate AcceptedBy(log: seq<Entry>, p: Platform) {
    exists i :: 0 <= i < |log| && log[i].accepted && log[i].target.platform == p
  }

  ghost predicate AcceptedIn(log: seq<Entry>, p: Platform, b: nat) {
    exists i :: 0 <= i < |log| && log[i].accepted && log[i].target.platform == p && log[i].batch == b
  }

  ghost predicate AcceptedAt(log: seq<Entry>, p: Platform, at: int) {
    exists i :: 0 <= i < |log| && log[i].accepted && log[i].target.platform == p && log[i].at == at
  }

  /** The device's token answered dead by then. */
  ghost predicate DeadBy(log: seq<Entry>, device: Id, token: Token, at: int) {
    exists i :: 0 <= i < |log| && !log[i].accepted
      && log[i].target.device == device && log[i].target.token == token && log[i].at <= at
  }

  /** The platform accepted a push since the token's first dead answer. */
  ghost predicate AcceptedSince(log: seq<Entry>, t: Target) {
    exists i :: 0 <= i < |log| && log[i].accepted && log[i].target.platform == t.platform
      && DeadBy(log, t.device, t.token, log[i].at)
  }

  /** It did, or it accepted one in the same batch. */
  ghost predicate Justified(log: seq<Entry>, b: nat, t: Target) {
    AcceptedIn(log, t.platform, b) || AcceptedSince(log, t)
  }

  ghost predicate RowSound(w: World, id: Id) {
    id in w.rows && id < w.nextId
      && (w.rows[id].deadSince.Some? ==> DeadBy(w.log, id, w.rows[id].token, w.rows[id].deadSince.value))
  }

  ghost predicate BatchSound(w: World, b: nat) {
    var s := BatchAt(w, b);
    && (forall p :: p in s.sentBy ==> AcceptedIn(w.log, p, b))
    && (forall t :: t in s.dead ==> Known(w, t) && DeadBy(w.log, t.device, t.token, w.now))
    && (forall t :: t in s.doomed ==> Known(w, t) && Justified(w.log, b, t))
  }

  ghost predicate Inv(w: World) {
    && (forall id :: id in w.rows ==> RowSound(w, id))
    && (forall k :: k in w.stamps ==> AcceptedAt(w.log, w.stamps[k].0, w.stamps[k].1))
    && (forall b :: BatchSound(w, b))
    && (forall s :: s in w.subs ==> w.subs[s] in w.rows)
  }

  lemma LogGrows(log: seq<Entry>, e: Entry)
    ensures forall p, b :: AcceptedIn(log, p, b) ==> AcceptedIn(log + [e], p, b)
    ensures forall p, at :: AcceptedAt(log, p, at) ==> AcceptedAt(log + [e], p, at)
    ensures forall d, t, at :: DeadBy(log, d, t, at) ==> DeadBy(log + [e], d, t, at)
  {
    assert forall i :: 0 <= i < |log| ==> (log + [e])[i] == log[i];
  }

  lemma JustifiedGrows(log: seq<Entry>, e: Entry, b: nat, t: Target)
    requires Justified(log, b, t)
    ensures Justified(log + [e], b, t)
  {
    LogGrows(log, e);
    if !AcceptedIn(log, t.platform, b) {
      var i :| 0 <= i < |log| && log[i].accepted && log[i].target.platform == t.platform
        && DeadBy(log, t.device, t.token, log[i].at);
      assert (log + [e])[i] == log[i];
    }
  }

  /** A step that adds nothing to the log and keeps what is known. */
  lemma QuietKeepsBatches(w: World, after: World)
    requires Inv(w) && after.log == w.log && after.batches == w.batches && w.now <= after.now
        && w.nextId <= after.nextId
    requires forall id :: id in after.rows ==>
               id >= w.nextId || (id in w.rows && after.rows[id].platform == w.rows[id].platform)
    ensures forall b :: BatchSound(after, b)
  {
    forall b ensures BatchSound(after, b) {
      assert BatchSound(w, b);
      var s := BatchAt(w, b);
      forall t | t in s.dead ensures Known(after, t) && DeadBy(after.log, t.device, t.token, after.now) {
        DeadLater(w.log, t.device, t.token, w.now, after.now);
      }
    }
  }

  lemma DeadLater(log: seq<Entry>, d: Id, t: Token, at: int, later: int)
    requires DeadBy(log, d, t, at) && at <= later
    ensures DeadBy(log, d, t, later)
  {
  }

  lemma QuietKeepsInv(w: World, after: World)
    requires Inv(w) && after.log == w.log && after.batches == w.batches && after.stamps == w.stamps
    requires w.now <= after.now && w.nextId <= after.nextId
    requires forall id :: id in after.rows ==>
               RowSound(after, id)
               && (id >= w.nextId || (id in w.rows && after.rows[id].platform == w.rows[id].platform))
    requires forall s :: s in after.subs ==> after.subs[s] in after.rows
    ensures Inv(after)
  {
    QuietKeepsBatches(w, after);
  }

  lemma SetRowKeepsInv(w: World, id: Id, r: Row)
    requires Inv(w) && id in w.rows && r.platform == w.rows[id].platform
    requires r.deadSince.Some? ==> DeadBy(w.log, id, r.token, r.deadSince.value)
    ensures Inv(SetRow(w, id, r))
  {
    var after := SetRow(w, id, r);
    forall i | i in after.rows ensures RowSound(after, i) {
      assert RowSound(w, i);
    }
    QuietKeepsInv(w, after);
  }

  lemma DeviceStepKeepsInv(w: World, e: Event)
    requires Inv(w) && (e.Tick? || e.NewDevice? || e.Reregister? || e.ChangeToken? || e.Touch?)
    ensures Inv(Step(w, e))
  {
    var after := Step(w, e);
    match e
    case Tick(_) =>
      forall i | i in after.rows ensures RowSound(after, i) { assert RowSound(w, i); }
      QuietKeepsInv(w, after);
    case NewDevice(_, _, _) =>
      forall i | i in after.rows ensures RowSound(after, i) { assert i != w.nextId ==> RowSound(w, i); }
      QuietKeepsInv(w, after);
    case Reregister(id, secret) =>
      if id in w.rows { SetRowKeepsInv(w, id, Reregistered(w.rows[id], secret, w.now)); }
    case ChangeToken(id, token) =>
      if id in w.rows {
        assert RowSound(w, id);
        SetRowKeepsInv(w, id, Retokened(w.rows[id], token, w.now));
      }
    case Touch(id, row) =>
      if id in w.rows && SamePush(w.rows[id], row) {
        assert RowSound(w, id);
        SetRowKeepsInv(w, id, row);
      }
  }

  lemma LeavingKeepsInv(w: World, after: World)
    requires Inv(w) && after.log == w.log && after.batches == w.batches && after.now == w.now
        && after.nextId == w.nextId
    requires forall id :: id in after.rows ==>
               id in w.rows && after.rows[id] == w.rows[id].(retired := after.rows[id].retired)
    requires forall k :: k in after.stamps ==> k in w.stamps && after.stamps[k] == w.stamps[k]
    requires forall s :: s in after.subs ==> after.subs[s] in after.rows
    ensures Inv(after)
  {
    forall i | i in after.rows ensures RowSound(after, i) {
      assert RowSound(w, i);
    }
    QuietKeepsBatches(w, after);
  }

  lemma DeliverKeepsInv(w: World, e: Event)
    requires Inv(w) && e.Deliver? && Known(w, e.target) && e.b !in w.ended
    ensures Inv(Step(w, e))
  {
    var after := Step(w, e);
    var entry := Entry(e.b, w.now, e.target, true);
    LogGrows(w.log, entry);
    assert after.log[|w.log|] == entry;
    forall i | i in after.rows ensures RowSound(after, i) {
      assert RowSound(w, i);
    }
    forall b ensures BatchSound(after, b) {
      assert BatchSound(w, b);
      forall t | t in BatchAt(after, b).doomed ensures Known(after, t) && Justified(after.log, b, t) {
        JustifiedGrows(w.log, entry, b, t);
      }
    }
  }

  lemma AnswerDeadKeepsInv(w: World, e: Event)
    requires Inv(w) && e.AnswerDead? && Known(w, e.target) && e.b !in w.ended
    ensures Inv(Step(w, e))
  {
    var after := Step(w, e);
    var entry := Entry(e.b, w.now, e.target, false);
    LogGrows(w.log, entry);
    assert after.log[|w.log|] == entry;
    forall i | i in after.rows ensures RowSound(after, i) {
      assert RowSound(w, i);
    }
    forall b ensures BatchSound(after, b) {
      assert BatchSound(w, b);
      forall t | t in BatchAt(after, b).doomed ensures Known(after, t) && Justified(after.log, b, t) {
        JustifiedGrows(w.log, entry, b, t);
      }
    }
  }

  /** What the code asks for is what the log shows. */
  lemma EvidenceJustifies(w: World, b: nat, t: Target)
    requires Inv(w) && Evidence(w, b, t)
    ensures Justified(w.log, b, t)
  {
    assert BatchSound(w, b);
    if t.platform !in BatchAt(w, b).sentBy {
      assert RowSound(w, t.device);
      var k :| k in w.stamps && w.stamps[k].0 == t.platform && w.stamps[k].1 >= w.rows[t.device].deadSince.value;
      var i :| 0 <= i < |w.log| && w.log[i].accepted && w.log[i].target.platform == t.platform
        && w.log[i].at == w.stamps[k].1;
      DeadLater(w.log, t.device, t.token, w.rows[t.device].deadSince.value, w.log[i].at);
    }
  }

  lemma SetBatchKeepsInv(w: World, b: nat, s: BatchState)
    requires Inv(w)
    requires s.sentBy == BatchAt(w, b).sentBy && s.dead <= BatchAt(w, b).dead
    requires forall t :: t in s.doomed ==> Known(w, t) && Justified(w.log, b, t)
    ensures Inv(SetBatch(w, b, s))
  {
    var after := SetBatch(w, b, s);
    forall i | i in after.rows ensures RowSound(after, i) {
      assert RowSound(w, i);
    }
    forall c ensures BatchSound(after, c) {
      assert BatchSound(w, c);
    }
  }

  lemma JudgeKeepsInv(w: World, e: Event)
    requires Inv(w) && e.Judge?
    ensures Inv(Step(w, e))
  {
    var s, t := BatchAt(w, e.b), e.target;
    assert BatchSound(w, e.b);
    if t in s.dead {
      if Evidence(w, e.b, t) {
        EvidenceJustifies(w, e.b, t);
        SetBatchKeepsInv(w, e.b, s.(dead := s.dead - {t}, doomed := s.doomed + {t}));
      } else if Current(w, t) && w.rows[t.device].deadSince.None? {
        var held := SetRow(w, t.device, w.rows[t.device].(deadSince := Some(w.now)));
        SetRowKeepsInv(w, t.device, w.rows[t.device].(deadSince := Some(w.now)));
        assert BatchSound(held, e.b);
        SetBatchKeepsInv(held, e.b, s.(dead := s.dead - {t}));
      } else {
        SetBatchKeepsInv(w, e.b, s.(dead := s.dead - {t}));
      }
    }
  }

  lemma EndBatchKeepsInv(w: World, b: nat)
    requires Inv(w)
    ensures Inv(Step(w, EndBatch(b)))
  {
    var after := Step(w, EndBatch(b));
    forall i | i in after.rows ensures RowSound(after, i) {
      assert RowSound(w, i);
    }
    forall c ensures BatchSound(after, c) {
      assert BatchSound(w, c);
    }
  }

  lemma SubscriptionStepKeepsInv(w: World, e: Event)
    requires Inv(w) && (e.Subscribe? || e.Unsubscribe? || e.DeleteMe?)
    ensures Inv(Step(w, e))
  {
    LeavingKeepsInv(w, Step(w, e));
  }

  lemma RetiredKeepsInv(w: World, id: Id)
    requires Inv(w) && id in w.rows
    ensures Inv(Retired(w, id))
  {
    LeavingKeepsInv(w, Retired(w, id));
  }

  lemma RetiringKeepsInv(w: World, e: Event)
    requires Inv(w) && (e.RetireNow? || e.RetireUnconfirmed?)
    ensures Inv(Step(w, e))
  {
    var id := if e.RetireNow? then e.target.device else e.id;
    if Step(w, e) != w {
      RetiredKeepsInv(w, id);
    }
  }

  lemma HousekeepingKeepsInv(w: World, e: Event)
    requires Inv(w) && (e.PurgeDevice? || e.Forget?)
    ensures Inv(Step(w, e))
  {
    LeavingKeepsInv(w, Step(w, e));
  }

  lemma StepKeepsInv(w: World, e: Event)
    requires Inv(w)
    ensures Inv(Step(w, e))
  {
    if e.Tick? || e.NewDevice? || e.Reregister? || e.ChangeToken? || e.Touch? {
      DeviceStepKeepsInv(w, e);
    } else if e.Deliver? {
      if Known(w, e.target) && e.b !in w.ended { DeliverKeepsInv(w, e); }
    } else if e.AnswerDead? {
      if Known(w, e.target) && e.b !in w.ended { AnswerDeadKeepsInv(w, e); }
    } else if e.Judge? {
      JudgeKeepsInv(w, e);
    } else if e.EndBatch? {
      EndBatchKeepsInv(w, e.b);
    } else if e.Subscribe? || e.Unsubscribe? || e.DeleteMe? {
      SubscriptionStepKeepsInv(w, e);
    } else if e.RetireNow? || e.RetireUnconfirmed? {
      RetiringKeepsInv(w, e);
    } else {
      HousekeepingKeepsInv(w, e);
    }
  }

  lemma {:induction false} RunKeepsInv(w: World, events: seq<Event>)
    requires Inv(w)
    ensures Inv(Run(w, events))
    decreases |events|
  {
    if events != [] {
      StepKeepsInv(w, events[0]);
      RunKeepsInv(Step(w, events[0]), events[1..]);
    }
  }

  lemma EmptyInv()
    ensures Inv(EMPTY)
  {
    assert forall b :: BatchSound(EMPTY, b);
  }

  // ---------------------------------------------------------------------
  // A number is one batch's

  /** Nobody has used the number yet. */
  predicate Unused(w: World, b: nat) {
    b !in w.batches && b !in w.ended
  }

  ghost predicate AllNumbered(w: World) {
    forall i :: 0 <= i < |w.log| ==> !Unused(w, w.log[i].batch)
  }

  lemma StepKeepsNumbers(w: World, e: Event)
    requires AllNumbered(w)
    ensures AllNumbered(Step(w, e))
  {
    var after := Step(w, e);
    assert forall b :: !Unused(w, b) ==> !Unused(after, b);
    forall i | 0 <= i < |after.log| ensures !Unused(after, after.log[i].batch) {
      assert i < |w.log| ==> after.log[i] == w.log[i];
    }
  }

  lemma {:induction false} RunKeepsNumbers(w: World, events: seq<Event>)
    requires AllNumbered(w)
    ensures AllNumbered(Run(w, events))
    decreases |events|
  {
    if events != [] {
      StepKeepsNumbers(w, events[0]);
      RunKeepsNumbers(Step(w, events[0]), events[1..]);
    }
  }

  /** Only entries of other batches were added. */
  ghost predicate OthersOnly(before: seq<Entry>, after: seq<Entry>, b: nat) {
    before <= after && forall i :: |before| <= i < |after| ==> after[i].batch != b
  }

  lemma EndedStepHearsNothing(w: World, e: Event, b: nat)
    requires b in w.ended
    ensures b in Step(w, e).ended && OthersOnly(w.log, Step(w, e).log, b)
  {
  }

  lemma OthersOnlyTwice(before: seq<Entry>, mid: seq<Entry>, after: seq<Entry>, b: nat)
    requires OthersOnly(before, mid, b) && OthersOnly(mid, after, b)
    ensures OthersOnly(before, after, b)
  {
    assert forall i :: 0 <= i < |mid| ==> after[i] == mid[i];
  }

  /** What the platforms answered to a batch is settled when it ends: no later answer
      bears its number. */
  lemma {:induction false} AnEndedBatchHearsNoMore(w: World, events: seq<Event>, b: nat)
    requires b in w.ended
    ensures b in Run(w, events).ended && OthersOnly(w.log, Run(w, events).log, b)
    decreases |events|
  {
    if events != [] {
      var next := Step(w, events[0]);
      EndedStepHearsNothing(w, events[0], b);
      AnEndedBatchHearsNoMore(next, events[1..], b);
      OthersOnlyTwice(w.log, next.log, Run(w, events).log, b);
    }
  }

  // ---------------------------------------------------------------------
  // Main results

  /** In any run a device is retired only with evidence: its platform accepted some
      push in the same batch, or since the first dead answer for the token the device
      holds; or else nobody ever vouched for it and it holds no subscription. */
  lemma RetirementNeedsEvidence(events: seq<Event>, e: Event, id: Id)
    requires var w := Run(EMPTY, events);
      id in w.rows && !w.rows[id].retired && id in Step(w, e).rows && Step(w, e).rows[id].retired
    ensures var w := Run(EMPTY, events);
      || (e.RetireNow? && e.target == Target(id, w.rows[id].token, w.rows[id].platform)
          && Justified(w.log, e.b, e.target))
      || (e.RetireUnconfirmed? && w.rows[id].verifiedAt.None? && Unsubscribed(w, id))
  {
    EmptyInv();
    RunKeepsInv(EMPTY, events);
    var w := Run(EMPTY, events);
    assert RowSound(w, id);
    if e.RetireNow? {
      assert BatchSound(w, e.b);
    }
  }

  /** Only its owner ends it, or a batch. */
  predicate OwnersStep(w: World, e: Event, sub: nat) {
    sub in w.subs && (e == Unsubscribe(sub) || e == DeleteMe(w.subs[sub]))
  }

  lemma JustifiedMeansAccepted(log: seq<Entry>, b: nat, t: Target)
    requires Justified(log, b, t)
    ensures AcceptedBy(log, t.platform)
  {
  }

  lemma NoReasonToRetire(w: World, e: Event, id: Id)
    requires Inv(w) && e.RetireNow? && id in w.rows && e.target.device == id && !AcceptedBy(w.log, w.rows[id].platform)
    ensures Step(w, e) == w
  {
    assert BatchSound(w, e.b);
    if Justified(w.log, e.b, e.target) {
      JustifiedMeansAccepted(w.log, e.b, e.target);
    }
  }

  /** The subscription is there, on a device of the platform. */
  predicate Watching(w: World, sub: nat, p: Platform) {
    sub in w.subs && w.subs[sub] in w.rows && w.rows[w.subs[sub]].platform == p
  }

  lemma BatchesKeepSubscriptions(w: World, e: Event, sub: nat, p: Platform)
    requires Inv(w) && Watching(w, sub, p) && !AcceptedBy(w.log, p)
    requires e.Deliver? || e.AnswerDead? || e.Judge? || e.RetireNow? || e.EndBatch?
    ensures Watching(Step(w, e), sub, p)
  {
    if e.RetireNow? && e.target.device == w.subs[sub] {
      NoReasonToRetire(w, e, w.subs[sub]);
    }
  }

  lemma DevicesKeepSubscriptions(w: World, e: Event, sub: nat, p: Platform)
    requires Inv(w) && Watching(w, sub, p)
    requires e.Tick? || e.NewDevice? || e.Reregister? || e.ChangeToken? || e.Touch? || e.Forget?
    ensures Watching(Step(w, e), sub, p)
  {
    assert RowSound(w, w.subs[sub]);
  }

  lemma OthersKeepSubscriptions(w: World, e: Event, sub: nat, p: Platform)
    requires Watching(w, sub, p) && !OwnersStep(w, e, sub)
    requires e.Subscribe? || e.Unsubscribe? || e.DeleteMe? || e.RetireUnconfirmed? || e.PurgeDevice?
    ensures Watching(Step(w, e), sub, p)
  {
  }

  lemma SilenceKeepsSubscriptions(w: World, e: Event, sub: nat, p: Platform)
    requires Inv(w) && Watching(w, sub, p) && !OwnersStep(w, e, sub) && !AcceptedBy(w.log, p)
    ensures Watching(Step(w, e), sub, p)
  {
    if e.Deliver? || e.AnswerDead? || e.Judge? || e.RetireNow? || e.EndBatch? {
      BatchesKeepSubscriptions(w, e, sub, p);
    } else if e.Subscribe? || e.Unsubscribe? || e.DeleteMe? || e.RetireUnconfirmed? || e.PurgeDevice? {
      OthersKeepSubscriptions(w, e, sub, p);
    } else {
      DevicesKeepSubscriptions(w, e, sub, p);
    }
  }

  ghost predicate NoOwnersStep(w: World, events: seq<Event>, sub: nat)
    decreases |events|
  {
    events != [] ==> !OwnersStep(w, events[0], sub) && NoOwnersStep(Step(w, events[0]), events[1..], sub)
  }

  lemma StepAddsToTheLog(w: World, e: Event)
    ensures w.log <= Step(w, e).log
  {
  }

  lemma {:induction false} LogNeverShrinks(w: World, events: seq<Event>)
    ensures w.log <= Run(w, events).log
    decreases |events|
  {
    if events != [] {
      StepAddsToTheLog(w, events[0]);
      LogNeverShrinks(Step(w, events[0]), events[1..]);
    }
  }

  lemma {:induction false} SilentRunKeepsSubscriptions(w: World, events: seq<Event>, sub: nat, p: Platform)
    requires Inv(w) && Watching(w, sub, p)
    requires NoOwnersStep(w, events, sub) && !AcceptedBy(Run(w, events).log, p)
    ensures sub in Run(w, events).subs
    decreases |events|
  {
    if events != [] {
      var next := Step(w, events[0]);
      LogNeverShrinks(w, events);
      assert !AcceptedBy(w.log, p) by {
        assert forall i :: 0 <= i < |w.log| ==> Run(w, events).log[i] == w.log[i];
      }
      SilenceKeepsSubscriptions(w, events[0], sub, p);
      StepKeepsInv(w, events[0]);
      SilentRunKeepsSubscriptions(next, events[1..], sub, p);
    }
  }

  /** A platform that never accepts anything, as a wrong topic or project makes it,
      never ends a subscription: whatever it answers, whoever registers, and however
      often a device is refused, only its owner does. */
  lemma ASilentPlatformEndsNoSubscription(before: seq<Event>, events: seq<Event>, sub: nat, p: Platform)
    requires var w := Run(EMPTY, before);
      && Watching(w, sub, p)
      && NoOwnersStep(w, events, sub) && !AcceptedBy(Run(w, events).log, p)
    ensures sub in Run(Run(EMPTY, before), events).subs
  {
    EmptyInv();
    RunKeepsInv(EMPTY, before);
    SilentRunKeepsSubscriptions(Run(EMPTY, before), events, sub, p);
  }

  /** Who ends a subscription: its owner, or the device's, or a batch that decided to retire
      the device, as long as that still holds the token and is not retired. All the others
      stay where they are. */
  lemma WhoEndsASubscription(w: World, e: Event, sub: nat)
    requires sub in w.subs
    ensures var id, after := w.subs[sub], Step(w, e);
      sub !in after.subs <==>
        || e == Unsubscribe(sub)
        || e == DeleteMe(id)
        || (e.RetireNow? && e.b in w.batches && e.target in w.batches[e.b].doomed && e.target.device == id
            && id in w.rows && w.rows[id].token == e.target.token && !w.rows[id].retired)
    ensures sub in Step(w, e).subs ==> Step(w, e).subs[sub] == w.subs[sub]
  {
  }

  /** A subscription newly made on a device holds from then on, in the same silence. */
  lemma AFreshSubscriptionHolds(before: seq<Event>, sub: nat, id: Id, events: seq<Event>)
    requires var w := Run(EMPTY, before); id in w.rows && sub !in w.subs
    requires var w := Step(Run(EMPTY, before), Subscribe(sub, id));
      NoOwnersStep(w, events, sub) && !AcceptedBy(Run(w, events).log, Run(EMPTY, before).rows[id].platform)
    ensures var w := Step(Run(EMPTY, before), Subscribe(sub, id));
      w.subs == Run(EMPTY, before).subs[sub := id] && sub in Run(w, events).subs
  {
    EmptyInv();
    RunKeepsInv(EMPTY, before);
    var w := Run(EMPTY, before);
    StepKeepsInv(w, Subscribe(sub, id));
    SilentRunKeepsSubscriptions(Step(w, Subscribe(sub, id)), events, sub, w.rows[id].platform);
  }

  // ---------------------------------------------------------------------
  // And with evidence it does go

  /** The device is there, not retired, with the target's token. */
  predicate Alive(w: World, t: Target) {
    && t.device in w.rows && t.device < w.nextId && !w.rows[t.device].retired
    && w.rows[t.device].token == t.token && w.rows[t.device].platform == t.platform
  }

  /** Another phone of the same platform. */
  predicate Sibling(w: World, t: Target, other: Target) {
    other.device < w.nextId && other.device != t.device && other.platform == t.platform
      && (other.device in w.rows ==> w.rows[other.device].platform == other.platform)
  }

  predicate Gone(w: World, id: Id) {
    id in w.rows && w.rows[id].retired && forall s :: s in w.subs ==> w.subs[s] != id
  }

  /** A batch decides on a dead answer that it has evidence for, and carries it out. */
  lemma EvidenceRetires(w: World, b: nat, t: Target)
    requires Alive(w, t) && b in w.batches && t in w.batches[b].dead && Evidence(w, b, t)
    ensures Gone(Step(Step(w, Judge(b, t)), RetireNow(b, t)), t.device)
  {
    var judged := Step(w, Judge(b, t));
    assert judged.batches == w.batches[b := w.batches[b].(dead := w.batches[b].dead - {t},
                                                          doomed := w.batches[b].doomed + {t})];
    assert Alive(judged, t);
  }

  lemma DeadHeard(w: World, b: nat, t: Target)
    requires Alive(w, t) && b !in w.ended
    ensures var after := Step(w, AnswerDead(b, t));
      && Alive(after, t) && after == w.(batches := after.batches, log := after.log)
      && after.batches == w.batches[b := BatchAt(w, b).(dead := BatchAt(w, b).dead + {t})]
  {
  }

  lemma DeliveryHeard(w: World, b: nat, key: Key, t: Target, other: Target)
    requires Alive(w, t) && Sibling(w, t, other) && b !in w.ended
    ensures var after := Step(w, Deliver(b, key, other));
      && Alive(after, t) && after.rows[t.device] == w.rows[t.device] && after.now == w.now
      && after.batches == w.batches[b := BatchAt(w, b).(sentBy := BatchAt(w, b).sentBy + {t.platform})]
      && after.stamps == w.stamps[key := (t.platform, w.now)] && after.ended == w.ended && after.nextId == w.nextId
  {
  }

  /** A phone that answered dead is retired, with its subscriptions, in the very batch in
      which its platform accepts a push to any other phone, before or after. */
  lemma ADeliveryRetiresTheDead(w: World, b: nat, t: Target, other: Target, key: Key)
    requires Alive(w, t) && Sibling(w, t, other) && b !in w.ended
    ensures var after := Step(Step(w, AnswerDead(b, t)), Deliver(b, key, other));
      Gone(Step(Step(after, Judge(b, t)), RetireNow(b, t)), t.device)
    ensures var after := Step(Step(w, Deliver(b, key, other)), AnswerDead(b, t));
      Gone(Step(Step(after, Judge(b, t)), RetireNow(b, t)), t.device)
  {
    DeadHeard(w, b, t);
    DeliveryHeard(Step(w, AnswerDead(b, t)), b, key, t, other);
    EvidenceRetires(Step(Step(w, AnswerDead(b, t)), Deliver(b, key, other)), b, t);
    DeliveryHeard(w, b, key, t, other);
    DeadHeard(Step(w, Deliver(b, key, other)), b, t);
    EvidenceRetires(Step(Step(w, Deliver(b, key, other)), AnswerDead(b, t)), b, t);
  }

  /** The first batch to find the token dead without evidence remembers when. */
  lemma TheFirstDeadAnswerIsRemembered(w: World, b: nat, t: Target)
    requires Alive(w, t) && Unused(w, b) && w.rows[t.device].deadSince.None?
    ensures var after := Step(Step(w, AnswerDead(b, t)), Judge(b, t));
      && Alive(after, t)
      && after == w.(rows := w.rows[t.device := w.rows[t.device].(deadSince := Some(w.now))], log := after.log,
                     batches := w.batches[b := NEW_BATCH])
  {
    DeadHeard(w, b, t);
    var dead := Step(w, AnswerDead(b, t));
    assert dead.batches[b].dead - {t} == {};
    assert !Evidence(dead, b, t);
  }

  /** Once its platform has accepted a push since then, in whatever batch, the next dead
      answer retires it. */
  lemma ALaterDeliveryRetiresTheDead(w: World, first: nat, later: nat, last: nat, t: Target, other: Target, key: Key,
                                     wait: nat)
    requires Alive(w, t) && Sibling(w, t, other) && w.rows[t.device].deadSince.None?
    requires Unused(w, first) && Unused(w, later) && Unused(w, last) && first != later && first != last && later != last
    ensures var held := Step(Step(w, AnswerDead(first, t)), Judge(first, t));
      var delivered := Step(Step(held, Tick(wait)), Deliver(later, key, other));
      var end := Step(Step(Step(delivered, AnswerDead(last, t)), Judge(last, t)), RetireNow(last, t));
      && Alive(held, t) && Alive(delivered, t) && Gone(end, t.device)
  {
    TheFirstDeadAnswerIsRemembered(w, first, t);
    var waited := Step(Step(Step(w, AnswerDead(first, t)), Judge(first, t)), Tick(wait));
    DeliveryHeard(waited, later, key, t, other);
    var delivered := Step(waited, Deliver(later, key, other));
    DeadHeard(delivered, last, t);
    var dead := Step(delivered, AnswerDead(last, t));
    assert key in dead.stamps && dead.stamps[key] == (t.platform, w.now + wait);
    EvidenceRetires(dead, last, t);
  }

  /** A device nobody ever vouched for goes without evidence, but only with the token that
      was refused, after three refusals, and while it holds no subscription. */
  lemma WhoGoesUnconfirmed(w: World, id: Id, token: Token)
    requires id in w.rows && !w.rows[id].retired
    ensures var after := Step(w, RetireUnconfirmed(id, token));
      if && w.rows[id].token == token && w.rows[id].verifiedAt.None? && w.rows[id].tries >= 3
         && forall s :: s in w.subs ==> w.subs[s] != id
      then after == w.(rows := w.rows[id := w.rows[id].(retired := true)])
      else after == w
  {
    if forall s :: s in w.subs ==> w.subs[s] != id {
      assert Without(w.subs, id) == w.subs;
    }
  }
}
