/** What a subscription goes through, said of its row. */
module SubscriptionLife {
  import opened Common
  import opened Planning
  import opened PlanCap
  import opened Admission

  // What the routes of app/web.py and app/api.py achieve: whose services are polled, which
  // requests are granted, and the way from sign-up to deletion.

  // ---------------------------------------------------------------------
  // Who is polled for

  /** The row is there, its subscription confirmed (an app one needs no confirming), not
      deleted, and its term still running. */
  predicate Watches(st: State, id: Id, city: string, service: Service, push: bool) {
    && id in st.rows && st.rows[id].city == city && st.rows[id].service == service && st.rows[id].push == push
    && !st.rows[id].deleted && st.rows[id].expires > st.now && (push || st.rows[id].confirmed)
  }

  /** Some subscription other than `skip` watches the service. */
  ghost predicate Watched(st: State, city: string, service: Service, push: bool, skip: Option<Id>) {
    exists id: Id :: skip != Some(id) && Watches(st, id, city, service, push)
  }

  lemma WatchedIs(st: State, city: string, service: Service, skip: Option<Id>)
    ensures service in MailServices(st, city, skip) <==> Watched(st, city, service, false, skip)
    ensures service in AppServices(st, city, skip) <==> Watched(st, city, service, true, skip)
  {
    if service in MailServices(st, city, skip) {
      var id :| id in st.rows && Counts(st, id, city, skip) && !st.rows[id].push && st.rows[id].service == service;
      assert Watches(st, id, city, service, false);
    }
    if service in AppServices(st, city, skip) {
      var id :| id in st.rows && Counts(st, id, city, skip) && st.rows[id].push && st.rows[id].service == service;
      assert Watches(st, id, city, service, true);
    }
    if Watched(st, city, service, false, skip) {
      var id: Id :| skip != Some(id) && Watches(st, id, city, service, false);
      assert Counts(st, id, city, skip);
    }
    if Watched(st, city, service, true, skip) {
      var id: Id :| skip != Some(id) && Watches(st, id, city, service, true);
      assert Counts(st, id, city, skip);
    }
  }

  /** A city is polled for exactly the services somebody watches there. */
  lemma WhatIsPolled(st: State, city: string, service: Service)
    ensures service in Polled(st, city) <==> exists id, push :: Watches(st, id, city, service, push)
    ensures service in AppHeld(st, city) <==>
              && (exists id :: Watches(st, id, city, service, true))
              && forall id :: !Watches(st, id, city, service, false)
  {
    WatchedIs(st, city, service, None);
    assert Watched(st, city, service, true, None) || Watched(st, city, service, false, None) <==>
        exists id, push :: Watches(st, id, city, service, push);
  }

  // ---------------------------------------------------------------------
  // Who is let in

  /** The tenant's own cap, unless its config names none or zero. */
  function Places(cfg: Config, city: string): int {
    if city in cfg.maxPlans && cfg.maxPlans[city] != 0 then cfg.maxPlans[city] else cfg.default
  }

  lemma MailSignUpStep(st: State, cfg: Config, id: Id, city: string, service: Service, locations: Locations,
                       expires: int)
    requires id !in st.rows
    ensures Step(st, cfg, MailSignUp(id, city, service, locations, expires)) ==
      if PlaceRefused(MailServices(st, city, None), AppServices(st, city, None), service, Places(cfg, city), false, {})
      then st
      else st.(rows := st.rows[id := Sub(city, false, service, locations, false, false, expires)])
  {
  }

  /** A sign-up on the website is taken exactly if the service is polled already, or mail
      would with it hold no more than the cap and everything polled be no more than the
      cap and a half; it waits, unpolled, to be confirmed. */
  lemma WhoMaySignUpByMail(st: State, cfg: Config, id: Id, city: string, service: Service, locations: Locations,
                           expires: int)
    requires id !in st.rows
    ensures var after, cap := Step(st, cfg, MailSignUp(id, city, service, locations, expires)), Places(cfg, city);
      if || service in Polled(st, city)
         || (|MailServices(st, city, None)| + 1 <= cap && |Polled(st, city)| + 1 <= cap + cap / 2)
      then after == st.(rows := st.rows[id := Sub(city, false, service, locations, false, false, expires)])
      else after == st
  {
    MailSignUpStep(st, cfg, id, city, service, locations, expires);
    WhoIsGrantedOne(MailServices(st, city, None), AppServices(st, city, None), service, Places(cfg, city), {});
  }

  lemma AppSignUpStep(st: State, cfg: Config, id: Id, city: string, service: Service, locations: Locations,
                      expires: int)
    requires id !in st.rows
    ensures Step(st, cfg, AppSignUp(id, city, service, locations, expires)) ==
      if PlaceRefused(MailServices(st, city, None), AppServices(st, city, None), service, Places(cfg, city), true, {})
      then st
      else st.(rows := st.rows[id := Sub(city, true, service, locations, true, false, expires)])
  {
  }

  /** A sign-up in the app is taken exactly if mail holds the service, or the app would
      with it hold at most half the cap on its own, and everything polled would stay
      within the cap; it is live at once. */
  lemma WhoMaySignUpByApp(st: State, cfg: Config, id: Id, city: string, service: Service, locations: Locations,
                          expires: int)
    requires id !in st.rows
    ensures var after, cap := Step(st, cfg, AppSignUp(id, city, service, locations, expires)), Places(cfg, city);
      if || service in MailServices(st, city, None)
         || (&& 2 * |AppHeld(st, city) + {service}| <= cap
             && (service in Polled(st, city) || |Polled(st, city)| + 1 <= cap))
      then after == st.(rows := st.rows[id := Sub(city, true, service, locations, true, false, expires)])
      else after == st
  {
    AppSignUpStep(st, cfg, id, city, service, locations, expires);
    WhoIsGrantedOne(MailServices(st, city, None), AppServices(st, city, None), service, Places(cfg, city), {});
  }

  /** What the subscription itself has polled now. */
  function Own(st: State, id: Id): set<Service>
    requires id in st.rows
  {
    var s := st.rows[id];
    if !s.deleted && s.expires > st.now && (s.push || s.confirmed) then {s.service} else {}
  }

  /** The same rule for a subscription that is there: the others' services are counted,
      and what it has polled itself is not new. */
  predicate MayWatch(st: State, cfg: Config, id: Id, service: Service)
    requires id in st.rows
  {
    var s, cap := st.rows[id], Places(cfg, st.rows[id].city);
    var mail, app := MailServices(st, s.city, Some(id)), AppServices(st, s.city, Some(id));
    var polled := service in mail + app + Own(st, id);
    if s.push then
      service in mail || (2 * |(app - mail) + {service}| <= cap && (polled || |mail + app| + 1 <= cap))
    else
      polled || (|mail| + 1 <= cap && |mail + app| + 1 <= cap + cap / 2)
  }

  lemma MayWatchIs(st: State, cfg: Config, id: Id, service: Service)
    requires id in st.rows
    ensures MayWatch(st, cfg, id, service) <==>
              !Refused(st, cfg, Question(st.rows[id].city, service, st.rows[id].push, Some(id)))
  {
    var s := st.rows[id];
    WhoIsGrantedOne(MailServices(st, s.city, Some(id)), AppServices(st, s.city, Some(id)), service,
                    Places(cfg, s.city), Own(st, id));
  }

  lemma EditStep(st: State, cfg: Config, id: Id, service: Service, locations: Locations, expires: int)
    requires id in st.rows
    ensures var s := st.rows[id];
      Step(st, cfg, Edit(id, service, locations, expires)) ==
      if Refused(st, cfg, Question(s.city, service, s.push, Some(id))) then st
      else st.(rows := st.rows[id := Sub(s.city, s.push, service, locations, s.confirmed, s.deleted,
                                         if expires < s.expires then expires else s.expires)])
  {
  }

  lemma RenewStep(st: State, cfg: Config, id: Id, service: Service, expires: int)
    requires id in st.rows
    ensures var s := st.rows[id];
      Step(st, cfg, Renew(id, service, expires)) ==
      if Refused(st, cfg, Question(s.city, service, s.push, Some(id))) || s.deleted then st
      else st.(rows := st.rows[id := Sub(s.city, s.push, s.service, s.locations, s.confirmed, s.deleted, expires)])
  {
  }

  lemma ConfirmStep(st: State, cfg: Config, id: Id, service: Service)
    requires id in st.rows && !st.rows[id].push
    ensures var s := st.rows[id];
      Step(st, cfg, Confirm(id, service)) ==
      if Refused(st, cfg, Question(s.city, service, s.push, Some(id))) then st
      else st.(rows := st.rows[id := Sub(s.city, s.push, s.service, s.locations, true, s.deleted, s.expires)])
  {
  }

  /** An edit that is granted sets the filter, and can only bring the end of the term
      forward. */
  lemma WhatAnEditDoes(st: State, cfg: Config, id: Id, service: Service, locations: Locations, expires: int)
    requires id in st.rows
    ensures var s := st.rows[id];
      Step(st, cfg, Edit(id, service, locations, expires)) ==
      if MayWatch(st, cfg, id, service) then
        st.(rows := st.rows[id := Sub(s.city, s.push, service, locations, s.confirmed, s.deleted,
                                      if expires < s.expires then expires else s.expires)])
      else st
  {
    EditStep(st, cfg, id, service, locations, expires);
    MayWatchIs(st, cfg, id, service);
  }

  /** A renewal, judged on the service its route read, sets the end of a term that is not
      deleted. */
  lemma WhatARenewalDoes(st: State, cfg: Config, id: Id, service: Service, expires: int)
    requires id in st.rows
    ensures var s := st.rows[id];
      Step(st, cfg, Renew(id, service, expires)) ==
      if MayWatch(st, cfg, id, service) && !s.deleted then
        st.(rows := st.rows[id := Sub(s.city, s.push, s.service, s.locations, s.confirmed, s.deleted, expires)])
      else st
  {
    RenewStep(st, cfg, id, service, expires);
    MayWatchIs(st, cfg, id, service);
  }

  lemma DeleteStep(st: State, cfg: Config, id: Id)
    ensures Step(st, cfg, Delete(id)) ==
      if id in st.rows then st.(rows := st.rows[id := st.rows[id].(deleted := true)]) else st
  {
  }

  lemma PullInStep(st: State, cfg: Config, id: Id, expires: int)
    ensures Step(st, cfg, PullIn(id, expires)) ==
      if id in st.rows then
        st.(rows := st.rows[id := st.rows[id].(expires := if expires < st.rows[id].expires then expires
                                                          else st.rows[id].expires)])
      else st
  {
  }

  lemma PurgeStep(st: State, cfg: Config, id: Id, seconds: nat)
    ensures Step(st, cfg, Purge(id)) == st.(rows := st.rows - {id})
    ensures Step(st, cfg, Tick(seconds)) == st.(now := st.now + seconds)
  {
  }

  /** What ends a subscription early: deleting it, bringing the end of its term forward,
      and purging its row; time alone changes no row. */
  lemma WhatEndsASubscription(st: State, cfg: Config, id: Id, expires: int, seconds: nat)
    ensures Step(st, cfg, Purge(id)) == st.(rows := st.rows - {id})
    ensures Step(st, cfg, Tick(seconds)) == st.(now := st.now + seconds)
    ensures Step(st, cfg, Delete(id)) ==
      if id in st.rows then st.(rows := st.rows[id := st.rows[id].(deleted := true)]) else st
    ensures Step(st, cfg, PullIn(id, expires)) ==
      if id in st.rows then
        st.(rows := st.rows[id := st.rows[id].(expires := if expires < st.rows[id].expires then expires
                                                          else st.rows[id].expires)])
      else st
  {
    PurgeStep(st, cfg, id, seconds);
    DeleteStep(st, cfg, id);
    PullInStep(st, cfg, id, expires);
  }

  /** Confirming does that and nothing else. */
  lemma WhatConfirmingDoes(st: State, cfg: Config, id: Id, service: Service)
    requires id in st.rows && !st.rows[id].push
    ensures var s := st.rows[id];
      Step(st, cfg, Confirm(id, service)) ==
      if MayWatch(st, cfg, id, service) then
        st.(rows := st.rows[id := Sub(s.city, s.push, s.service, s.locations, true, s.deleted, s.expires)])
      else st
  {
    ConfirmStep(st, cfg, id, service);
    MayWatchIs(st, cfg, id, service);
  }

  // ---------------------------------------------------------------------
  // A subscription's life

  /** Nobody is polled for a subscription that was deleted, or is gone. */
  predicate Over(st: State, id: Id) {
    id in st.rows && st.rows[id].deleted
  }

  lemma StepKeepsOver(st: State, cfg: Config, e: Event, id: Id)
    requires Over(st, id) && !(e == Purge(id))
    ensures Over(Step(st, cfg, e), id)
  {
  }

  /** Deleting is final: whatever is asked of it later, confirming, editing or renewing,
      nothing is polled for a deleted subscription until its row is purged. */
  lemma {:induction false} ADeletionIsFinal(st: State, cfg: Config, events: seq<Event>, id: Id, city: string,
                                            service: Service, push: bool)
    requires id in st.rows && (st.rows[id].deleted || (events != [] && events[0] == Delete(id)))
    requires Purge(id) !in events
    ensures !Watches(Run(st, cfg, events), id, city, service, push)
    decreases |events|
  {
    if events != [] {
      var after := Step(st, cfg, events[0]);
      if st.rows[id].deleted {
        StepKeepsOver(st, cfg, events[0], id);
      }
      ADeletionIsFinal(after, cfg, events[1..], id, city, service, push);
    }
  }

  lemma StepNeverProlongs(st: State, cfg: Config, e: Event, id: Id)
    requires id in st.rows && e != Purge(id) && !(e.Renew? && e.id == id)
    ensures id in Step(st, cfg, e).rows && Step(st, cfg, e).rows[id].expires <= st.rows[id].expires
  {
  }

  /** Only a renewal gives a subscription more time. */
  lemma {:induction false} OnlyARenewalProlongs(st: State, cfg: Config, events: seq<Event>, id: Id)
    requires id in st.rows && Purge(id) !in events
    requires forall i :: 0 <= i < |events| ==> !(events[i].Renew? && events[i].id == id)
    ensures var after := Run(st, cfg, events); id in after.rows && after.rows[id].expires <= st.rows[id].expires
    decreases |events|
  {
    if events != [] {
      var after := Step(st, cfg, events[0]);
      StepNeverProlongs(st, cfg, events[0], id);
      assert forall i :: 0 <= i < |events[1..]| ==> events[1..][i] == events[i + 1];
      OnlyARenewalProlongs(after, cfg, events[1..], id);
    }
  }

  /** A sign-up on the website that finds room is polled for from its confirmation to the
      end of its term, and while nobody else watches its service no longer. */
  lemma AConfirmedSignUpIsPolledForItsTerm(st: State, cfg: Config, id: Id, city: string, service: Service,
                                           locations: Locations, expires: int, seconds: nat)
    requires id !in st.rows && expires > st.now
    requires |MailServices(st, city, None)| + 1 <= Places(cfg, city)
    requires |Polled(st, city)| + 1 <= Places(cfg, city) + Places(cfg, city) / 2
    ensures var signed := Step(st, cfg, MailSignUp(id, city, service, locations, expires));
      var after := Step(Step(signed, cfg, Confirm(id, service)), cfg, Tick(seconds));
      && (forall push :: !Watches(signed, id, city, service, push))
      && (Watches(after, id, city, service, false) <==> st.now + seconds < expires)
      && (service in Polled(after, city) <==>
            st.now + seconds < expires || exists i: Id, push :: i != id && Watches(after, i, city, service, push))
  {
    WhoMaySignUpByMail(st, cfg, id, city, service, locations, expires);
    var signed := Step(st, cfg, MailSignUp(id, city, service, locations, expires));
    assert Own(signed, id) == {};
    OthersAsBefore(st, id, signed.rows[id], city);
    WhatConfirmingDoes(signed, cfg, id, service);
    var after := Step(Step(signed, cfg, Confirm(id, service)), cfg, Tick(seconds));
    WhatIsPolled(after, city, service);
    if service in Polled(after, city) && st.now + seconds >= expires {
      var i: Id, push :| Watches(after, i, city, service, push);
      assert i != id;
    }
  }

  lemma OthersAsBefore(st: State, id: Id, s: Sub, city: string)
    requires id !in st.rows
    ensures MailServices(Put(st, id, s), city, Some(id)) == MailServices(st, city, None)
    ensures AppServices(Put(st, id, s), city, Some(id)) == AppServices(st, city, None)
  {
    OthersUnchanged(st, id, s, city);
    assert forall i :: Counts(st, i, city, None) <==> Counts(st, i, city, Some(id));
  }
}
