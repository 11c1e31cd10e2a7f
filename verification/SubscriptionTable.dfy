/** The subscriptions table itself, updated in place: each method is one transaction
    of app/web.py or app/api.py over the queries of app/repo.py, and takes exactly the
    step `Admission.Step` gives it. */
module SubscriptionTable {
  import opened Common
  import opened Planning
  import opened PlanCap
  import opened Admission
  import SubscriptionLife

  /** What the rows `ids` of one kind add to the city's services. */
  ghost function Watched(st: State, city: string, skip: Option<Id>, push: bool, ids: set<Id>): set<Service> {
    set id | id in ids && Counts(st, id, city, skip) && st.rows[id].push == push :: st.rows[id].service
  }

  lemma WatchedStep(st: State, city: string, skip: Option<Id>, push: bool, ids: set<Id>, id: Id)
    ensures Watched(st, city, skip, push, ids + {id}) ==
              Watched(st, city, skip, push, ids)
                + (if Counts(st, id, city, skip) && st.rows[id].push == push then {st.rows[id].service} else {})
  {
  }

  lemma WatchedAll(st: State, city: string, skip: Option<Id>)
    ensures Watched(st, city, skip, false, st.rows.Keys) == MailServices(st, city, skip)
    ensures Watched(st, city, skip, true, st.rows.Keys) == AppServices(st, city, skip)
  {
  }

  class Table {
    var now: int
    var rows: map<Id, Sub>

    function Current(): State
      reads this
    {
      State(now, rows)
    }

    constructor ()
      ensures Current() == EMPTY
    {
      now := 0;
      rows := map[];
    }

    /** The services live subscriptions of one kind watch in the city. */
    method WatchedServices(city: string, skip: Option<Id>, push: bool) returns (services: set<Service>)
      ensures services == Watched(Current(), city, skip, push, rows.Keys)
    {
      services := {};
      var left := rows.Keys;
      while left != {}
        invariant left <= rows.Keys
        invariant services == Watched(Current(), city, skip, push, rows.Keys - left)
        decreases |left|
      {
        var id :| id in left;
        WatchedStep(Current(), city, skip, push, rows.Keys - left, id);
        assert rows.Keys - (left - {id}) == rows.Keys - left + {id};
        left := left - {id};
        var s := rows[id];
        if s.city == city && skip != Some(id) && s.push == push && Live(s, now) {
          services := services + {s.service};
        }
      }
      assert rows.Keys - left == rows.Keys;
    }

    /** `city_services`: what live mail and live app subscriptions watch. */
    method CityServices(city: string, skip: Option<Id>) returns (mail: set<Service>, app: set<Service>)
      ensures mail == MailServices(Current(), city, skip)
      ensures app == AppServices(Current(), city, skip)
    {
      mail := WatchedServices(city, skip, false);
      app := WatchedServices(city, skip, true);
      WatchedAll(Current(), city, skip);
    }

    /** `refused_by_plan_cap`: the cap's rule against the table. */
    method RefusedByPlanCap(cfg: Config, city: string, service: Service, push: bool, skip: Option<Id>)
      returns (refused: bool)
      ensures refused == Refused(Current(), cfg, Question(city, service, push, skip))
    {
      var mail, app := CityServices(city, skip);
      var own := {};
      if skip.Some? && skip.value in rows && Live(rows[skip.value], now) {
        own := {rows[skip.value].service};
      }
      refused := CapRefuses(mail, app, {service}, CapForCity(cfg.maxPlans, city, cfg.default), push, own);
      OneServiceRule(mail, app, service, CapForCity(cfg.maxPlans, city, cfg.default), push, own);
    }

    /** A sign-up on the website: counted once confirmed. */
    method Subscribe(cfg: Config, id: Id, city: string, service: Service, locations: Locations, expires: int)
      returns (ok: bool)
      requires id !in rows
      modifies this
      ensures Current() == Step(old(Current()), cfg, MailSignUp(id, city, service, locations, expires))
      ensures ok == (id in rows)
    {
      var refused := RefusedByPlanCap(cfg, city, service, false, None);
      if !refused {
        rows := rows[id := Sub(city, false, service, locations, false, false, expires)];
      }
      ok := !refused;
    }

    /** A sign-up in the app: live at once. */
    method CreateAppSubscription(cfg: Config, id: Id, city: string, service: Service, locations: Locations,
                                 expires: int)
      returns (ok: bool)
      requires id !in rows
      modifies this
      ensures Current() == Step(old(Current()), cfg, AppSignUp(id, city, service, locations, expires))
      ensures ok == (id in rows)
    {
      var refused := RefusedByPlanCap(cfg, city, service, true, None);
      if !refused {
        rows := rows[id := Sub(city, true, service, locations, true, false, expires)];
      }
      ok := !refused;
    }

    /** `judged` was read from the row before this transaction began. */
    method ConfirmSubscription(cfg: Config, id: Id, judged: Service) returns (ok: bool)
      requires id in rows ==> !rows[id].push
      modifies this
      ensures Current() == Step(old(Current()), cfg, Confirm(id, judged))
      ensures ok ==> id in rows && rows[id].confirmed
    {
      ok := false;
      if id in rows {
        var refused := RefusedByPlanCap(cfg, rows[id].city, judged, false, Some(id));
        if !refused {
          if !rows[id].confirmed {
            rows := rows[id := rows[id].(confirmed := true)];
          }
          ok := true;
        }
      }
    }

    /** The manage form and the app's update: a new filter in place of the old one. */
    method UpdateFilter(cfg: Config, id: Id, service: Service, locations: Locations, expires: int) returns (ok: bool)
      modifies this
      ensures Current() == Step(old(Current()), cfg, Edit(id, service, locations, expires))
      ensures ok ==> id in rows && rows[id].service == service && rows[id].locations == locations
    {
      ok := false;
      if id in rows {
        SubscriptionLife.EditStep(Current(), cfg, id, service, locations, expires);
        var refused := RefusedByPlanCap(cfg, rows[id].city, service, rows[id].push, Some(id));
        if !refused {
          rows := rows[id := rows[id].(service := service, locations := locations,
            expires := Min(rows[id].expires, expires))];
          ok := true;
        }
      }
    }

    method RenewSubscription(cfg: Config, id: Id, judged: Service, expires: int) returns (ok: bool)
      modifies this
      ensures Current() == Step(old(Current()), cfg, Renew(id, judged, expires))
      ensures ok ==> id in rows && rows[id].expires == expires
    {
      ok := false;
      if id in rows {
        SubscriptionLife.RenewStep(Current(), cfg, id, judged, expires);
        var refused := RefusedByPlanCap(cfg, rows[id].city, judged, rows[id].push, Some(id));
        if !refused && !rows[id].deleted {
          rows := rows[id := rows[id].(expires := expires)];
          ok := true;
        }
      }
    }

    method SoftDelete(cfg: Config, id: Id)
      modifies this
      ensures Current() == Step(old(Current()), cfg, Delete(id))
    {
      if id in rows {
        rows := rows[id := rows[id].(deleted := true)];
      }
    }
  }
}
