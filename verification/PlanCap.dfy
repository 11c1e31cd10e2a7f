/** The plan cap's rule (`cap_refuses` and `app_share` of app/planning.py): who may
    add a service to what a city is polled for. */
module PlanCap {
  import opened Common

  type Service = string

  /** Services app subscriptions may hold on their own: half the cap, rounded down. */
  function AppShare(cap: int): int {
    cap / 2
  }

  /** Would a subscription to `wanted` be turned away? `mail` and `app` are the
      services live subscriptions of each kind watch, `own` those the subscription
      being edited or renewed has polled now. */
  predicate CapRefuses(mail: set<Service>, app: set<Service>, wanted: set<Service>, cap: int, push: bool,
                       own: set<Service>) {
    var polled := mail + app;
    var added := wanted - polled - own;
    if !push then
      var excess := Max(0, |app - mail| - AppShare(cap));
      added != {} && |mail| + excess + |added| > cap
    else
      var notMailHeld := wanted - mail;
      || (notMailHeld != {} && |(app - mail) + notMailHeld| > AppShare(cap))
      || (added != {} && |polled| + |added| > cap)
  }

  /** What the rule bounds a city to. */
  function PollBound(cap: int): int {
    Max(0, cap + cap / 2)
  }

  lemma PolledSize(mail: set<Service>, app: set<Service>)
    ensures |mail + app| == |mail| + |app - mail|
  {
    assert mail + app == mail + (app - mail);
  }

  /** The rule in plain numbers. Mail is granted what needs nothing new, and new services
      while mail's own with them stay within the cap and everything polled with them
      within one and a half. The app is granted what mail holds, joins or keeps what is
      polled, and adds to it, while it holds at most half the cap on its own and
      everything polled stays within the cap. */
  lemma WhoIsGranted(mail: set<Service>, app: set<Service>, wanted: set<Service>, cap: int, own: set<Service>)
    ensures var added := wanted - mail - app - own;
      !CapRefuses(mail, app, wanted, cap, false, own) <==>
        added == {} || (|mail| + |added| <= cap && |mail + app| + |added| <= cap + cap / 2)
    ensures var added := wanted - mail - app - own;
      !CapRefuses(mail, app, wanted, cap, true, own) <==>
        && (wanted <= mail || 2 * |(app + wanted) - mail| <= cap)
        && (added == {} || |mail + app| + |added| <= cap)
  {
    PolledSize(mail, app);
    assert wanted - (mail + app) - own == wanted - mail - app - own;
    assert (app - mail) + (wanted - mail) == (app + wanted) - mail;
    forall s | s in wanted && wanted - mail == {} ensures s in mail {
      assert s !in wanted - mail;
    }
  }

  /** The rule for one service, which is all a subscription ever asks about, in
      two counts: what mail holds and what only the app holds. */
  predicate PlaceRefused(mail: set<Service>, app: set<Service>, service: Service, cap: int, push: bool,
                         own: set<Service>) {
    var mailHeld, appHeld := |mail|, |app - mail|;
    var unpolled := service !in mail && service !in app && service !in own;
    if !push then
      unpolled && mailHeld + Max(0, appHeld - AppShare(cap)) + 1 > cap
    else
      || (service !in mail && appHeld + (if service in app then 0 else 1) > AppShare(cap))
      || (unpolled && mailHeld + appHeld + 1 > cap)
  }

  lemma HeldWith(mail: set<Service>, app: set<Service>, service: Service)
    requires service !in mail
    ensures |(app - mail) + {service}| == |app - mail| + (if service in app then 0 else 1)
  {
    if service in app {
      assert (app - mail) + {service} == app - mail;
    }
  }

  lemma AddedService(mail: set<Service>, app: set<Service>, service: Service, own: set<Service>)
    ensures {service} - (mail + app) - own ==
      if service !in mail && service !in app && service !in own then {service} else {}
    ensures {service} - mail == if service !in mail then {service} else {}
  {
  }

  /** The counting form is the rule. */
  lemma OneServiceRule(mail: set<Service>, app: set<Service>, service: Service, cap: int, push: bool, own: set<Service>)
    ensures PlaceRefused(mail, app, service, cap, push, own) == CapRefuses(mail, app, {service}, cap, push, own)
  {
    AddedService(mail, app, service, own);
    PolledSize(mail, app);
    if service !in mail {
      HeldWith(mail, app, service);
    }
  }

  /** For one service, as the sign-ups, edits and renewals meet it. */
  lemma WhoIsGrantedOne(mail: set<Service>, app: set<Service>, service: Service, cap: int, own: set<Service>)
    ensures !PlaceRefused(mail, app, service, cap, false, own) <==>
              || service in mail + app + own
              || (|mail| + 1 <= cap && |mail + app| + 1 <= cap + cap / 2)
    ensures !PlaceRefused(mail, app, service, cap, true, own) <==>
              || service in mail
              || (&& 2 * |(app - mail) + {service}| <= cap
                  && (service in mail + app + own || |mail + app| + 1 <= cap))
  {
    PolledSize(mail, app);
    if service !in mail {
      HeldWith(mail, app, service);
    }
  }

  /** A request is mixed when it keeps a service that only its own subscription holds
      and asks for a new one as well. */
  predicate Mixed(polled: set<Service>, wanted: set<Service>, own: set<Service>) {
    !(wanted * own <= polled) && !(wanted <= polled + own)
  }

  /** The heart of the bound: admitting a request that is not mixed never takes a city
      past it, whoever is admitted and whatever the subscription gives up for it.
      `mail` and `app` leave the subscription itself out; before, the city was polled
      for them and `own`. */
  lemma AdmittedWithinBound(mail: set<Service>, app: set<Service>, wanted: set<Service>, own: set<Service>, cap: int,
                            push: bool)
    requires !CapRefuses(mail, app, wanted, cap, push, own) && !Mixed(mail + app, wanted, own)
    requires |mail + app + own| <= PollBound(cap)
    ensures |mail + app + wanted| <= PollBound(cap)
  {
    var polled := mail + app;
    var added := wanted - polled - own;
    if added == {} {
      SubsetCardinality(polled + wanted, polled + own);
    } else {
      assert polled + wanted == polled + added;
      PolledSize(mail, app);
    }
  }

  /** A subscription has one service, and one service is never mixed. */
  lemma OneServiceIsNotMixed(polled: set<Service>, service: Service, own: set<Service>)
    ensures !Mixed(polled, {service}, own)
  {
  }

  /** With more services it rests on that: whatever a mixed request keeps and adds, no
      more than the cap of either, there are cities within the bound in which it is
      granted and leaves the bound. */
  lemma MixedRequestsCanLeaveTheBound(mail: set<Service>, app: set<Service>, kept: set<Service>, added: set<Service>,
                                      cap: int)
    requires kept != {} && added != {} && kept !! added && (mail + app) !! (kept + added)
    requires |mail| == cap - Max(|kept|, |added|) && |app - mail| == cap / 2
    ensures Mixed(mail + app, kept + added, kept)
    ensures |mail + app + kept| <= Max(0, cap + cap / 2)
    ensures !CapRefuses(mail, app, kept + added, cap, false, kept)
    ensures |mail + app + (kept + added)| > Max(0, cap + cap / 2)
  {
    var polled := mail + app;
    PolledSize(mail, app);
    assert |kept| > 0 && |added| > 0;
    assert |polled + kept| == |polled| + |kept|;
    assert (kept + added) - polled - kept == added;
    assert polled + (kept + added) == polled + kept + added && |polled + kept + added| == |polled| + |kept| + |added|;
  }

  /** Whatever the app is granted, the website would be granted in the same state. */
  lemma AppGrantIsWebGrant(mail: set<Service>, app: set<Service>, wanted: set<Service>, own: set<Service>, cap: int)
    requires !CapRefuses(mail, app, wanted, cap, true, own)
    ensures !CapRefuses(mail, app, wanted, cap, false, own)
  {
    var added := wanted - (mail + app) - own;
    PolledSize(mail, app);
    if added != {} {
      var s :| s in added;
      assert s in wanted - mail;
      SubsetCardinality(app - mail, (app - mail) + (wanted - mail));
    }
  }

  /** App-held services within the share never turn a mail answer into a refusal:
      mail is refused with them only where it would be refused without any app. */
  lemma ShareNeverTurnsMailAway(mail: set<Service>, app: set<Service>, wanted: set<Service>, own: set<Service>,
                                cap: int)
    requires |app - mail| <= cap / 2 && CapRefuses(mail, app, wanted, cap, false, own)
    ensures CapRefuses(mail, {}, wanted, cap, false, own)
  {
    SubsetCardinality(wanted - (mail + app) - own, wanted - (mail + {}) - own);
    var s :| s in wanted - (mail + app) - own;
    assert s in wanted - (mail + {}) - own;
    assert |{} - mail| == 0 by { assert {} - mail == {}; }
    assert cap / 2 >= 0;
  }

  /** An app grant never takes the services the app holds on its own past the share,
      or past where they were: mail keeps all it had, the app gains the one service
      granted. */
  lemma GrantKeepsTheShare(mail: set<Service>, mailAfter: set<Service>, app: set<Service>, others: set<Service>,
                           appAfter: set<Service>, service: Service, own: set<Service>, cap: int)
    requires mail <= mailAfter && others <= app && appAfter <= others + {service}
    requires !PlaceRefused(mail, others, service, cap, true, own)
    ensures |appAfter - mailAfter| <= Max(|app - mail|, cap / 2)
  {
    if service in mail {
      SubsetCardinality(appAfter - mailAfter, app - mail);
    } else {
      HeldWith(mail, others, service);
      SubsetCardinality(appAfter - mailAfter, (others - mail) + {service});
    }
  }

  /** While app-held services are past the share, nobody is let onto one through the
      app, neither to join nor to renew: `others` is the app without the one asking. */
  lemma NoAppPlaceOverTheShare(mail: set<Service>, app: set<Service>, others: set<Service>, service: Service,
                               own: set<Service>, cap: int)
    requires |app - mail| > cap / 2 && app <= others + {service} && service !in mail
    ensures PlaceRefused(mail, others, service, cap, true, own)
  {
    HeldWith(mail, others, service);
    SubsetCardinality(app - mail, (others - mail) + {service});
  }
}
