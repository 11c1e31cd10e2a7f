/** What the apps, the senders and housekeeping do to the rows of push_devices
    (`DeviceProtocol`) is among what `Retirement` reckons with. */
module DeviceRuns {
  import opened Common
  import opened Devices
  import P = DeviceProtocol
  import R = Retirement

  /** The same devices at the same time; nobody subscribed to anything. */
  ghost predicate Same(w: P.World, r: R.World) {
    w.now == r.now && w.rows == r.rows && w.nextId == r.nextId && r.subs == map[]
  }

  function Holding(id: Id, rows: Rows): seq<R.Event> {
    if id in rows then [R.Touch(id, rows[id])] else []
  }

  /** The step of the retirements' machine that does the same to the rows, if any does. */
  ghost function Matching(w: P.World, e: P.Event): seq<R.Event> {
    var after := P.Step(w, e);
    match e
    case Tick(seconds) => [R.Tick(seconds)]
    case Register(platform, token, secret) =>
      var holder := P.Holder(w, platform, token);
      [if holder.None? then R.NewDevice(platform, token, secret) else R.Reregister(holder.value, secret)]
    case ChangeToken(req, token) => if after == w then [] else [R.ChangeToken(w.requests[req].id, token)]
    case PostCode(req, _) => if req in w.requests then Holding(w.requests[req].id, after.rows) else []
    case AskAgain(req) => if req in w.requests then Holding(w.requests[req].id, after.rows) else []
    case DeleteMe(req) => if after == w then [] else [R.DeleteMe(w.requests[req].id)]
    case Store(s, _) => if s in w.senders then Holding(w.senders[s].id, after.rows) else []
    case Mark(s) => if s in w.senders then Holding(w.senders[s].id, after.rows) else []
    case Refuse(id, _) => Holding(id, after.rows)
    case Purge(id) => [R.PurgeDevice(id)]
    case _ => []
  }

  lemma OwnersMatch(w: P.World, e: P.Event, r: R.World)
    requires Same(w, r) && (e.Register? || e.ChangeToken? || e.DeleteMe?)
    ensures Same(P.Step(w, e), R.Run(r, Matching(w, e)))
  {
    var events := Matching(w, e);
    if events != [] {
      assert events[1..] == [];
      assert R.Run(r, events) == R.Step(r, events[0]);
    }
  }

  /** Whatever else happens to a row leaves its phone and its platform alone, and whether
      it is retired or answered dead. */
  lemma TouchMatches(w: P.World, e: P.Event, r: R.World)
    requires Same(w, r)
    requires e.PostCode? || e.AskAgain? || e.Store? || e.Mark? || e.Refuse?
    ensures Same(P.Step(w, e), R.Run(r, Matching(w, e)))
  {
    var events := Matching(w, e);
    if events == [] {
      RowsAlone(w, e);
    } else {
      RowTouched(w, e, events[0].id);
      assert events[1..] == [];
      assert R.Run(r, events) == R.Step(r, events[0]);
    }
  }

  lemma RowsAlone(w: P.World, e: P.Event)
    requires (e.PostCode? || e.AskAgain? || e.Store? || e.Mark? || e.Refuse?) && Matching(w, e) == []
    ensures var after := P.Step(w, e); after.rows == w.rows && after.now == w.now && after.nextId == w.nextId
  {
  }

  lemma RowTouched(w: P.World, e: P.Event, id: Id)
    requires e.PostCode? || e.AskAgain? || e.Store? || e.Mark? || e.Refuse?
    requires Matching(w, e) != [] && Matching(w, e)[0].id == id
    ensures var after := P.Step(w, e);
      && id in w.rows && id in after.rows && R.SamePush(w.rows[id], after.rows[id])
      && after.rows == w.rows[id := after.rows[id]] && after.now == w.now && after.nextId == w.nextId
      && Matching(w, e) == [R.Touch(id, after.rows[id])]
  {
  }

  lemma StepMatches(w: P.World, e: P.Event, r: R.World)
    requires Same(w, r) && !e.Retire?
    ensures Same(P.Step(w, e), R.Run(r, Matching(w, e)))
  {
    if e.Register? || e.ChangeToken? || e.DeleteMe? {
      OwnersMatch(w, e, r);
    } else if e.PostCode? || e.AskAgain? || e.Store? || e.Mark? || e.Refuse? {
      TouchMatches(w, e, r);
    } else if e.Tick? || e.Purge? {
      assert Matching(w, e)[1..] == [];
      assert R.Run(r, Matching(w, e)) == R.Step(r, Matching(w, e)[0]);
    }
  }

  ghost predicate NoneRetired(events: seq<P.Event>) {
    forall i :: 0 <= i < |events| ==> !events[i].Retire?
  }

  lemma {:induction false} RunMatches(w: P.World, events: seq<P.Event>, r: R.World) returns (matching: seq<R.Event>)
    requires Same(w, r) && NoneRetired(events)
    ensures Same(P.Run(w, events), R.Run(r, matching))
    decreases |events|
  {
    if events == [] {
      matching := [];
    } else {
      var first := Matching(w, events[0]);
      StepMatches(w, events[0], r);
      var rest := RunMatches(P.Step(w, events[0]), events[1..], R.Run(r, first));
      R.RunAppend(r, first, rest);
      matching := first + rest;
    }
  }

  /** Whatever apps and senders do, in any interleaving, is a run of the machine the laws of
      retirement are proved of: the same devices with the same rows at the same time. What
      they leave to it is retiring a device. */
  lemma EveryRunIsReckonedWith(events: seq<P.Event>) returns (matching: seq<R.Event>)
    requires NoneRetired(events)
    ensures var w, r := P.Run(P.EMPTY, events), R.Run(R.EMPTY, matching);
      w.now == r.now && w.rows == r.rows && w.nextId == r.nextId
  {
    matching := RunMatches(P.EMPTY, events, R.EMPTY);
  }
}
