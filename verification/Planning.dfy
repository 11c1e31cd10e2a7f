/** Polling plans (app/planning.py, `PollPlan.key` in app/models.py): subscriptions
    are merged into as few plans as possible, and a city over its cap is polled
    once per service, for every office. */
module Planning {
  import opened Common
  import opened Text

  datatype Locations = Everywhere | Offices(ids: seq<string>)
  datatype Filter = Filter(services: seq<string>, locations: Locations)
  datatype Wish = Wish(city: string, filter: Filter)
  datatype PollPlan = PollPlan(city: string, service: string, locations: Locations)

  // ---------------------------------------------------------------------
  // Plan keys

  function InsertSorted(x: string, s: seq<string>): seq<string> {
    if s == [] || !LexLess(s[0], x) then [x] + s else [s[0]] + InsertSorted(x, s[1..])
  }

  function Sorted(s: seq<string>): seq<string> {
    if s == [] then [] else InsertSorted(s[0], Sorted(s[1..]))
  }

  function Join(parts: seq<string>): string {
    if parts == [] then ""
    else if |parts| == 1 then parts[0]
    else parts[0] + "," + Join(parts[1..])
  }

  function LocationsKey(l: Locations): string {
    if l.Everywhere? then "all" else Join(Sorted(l.ids))
  }

  function Key(p: PollPlan): string {
    p.city + "|" + (p.service + "|" + LocationsKey(p.locations))
  }

  lemma {:induction false} InsertKeeps(x: string, s: seq<string>)
    ensures multiset(InsertSorted(x, s)) == multiset([x] + s)
  {
    if s != [] && LexLess(s[0], x) {
      InsertKeeps(x, s[1..]);
      assert s == [s[0]] + s[1..];
    }
  }

  lemma {:induction false} SortKeeps(s: seq<string>)
    ensures multiset(Sorted(s)) == multiset(s)
  {
    if s != [] {
      SortKeeps(s[1..]);
      InsertKeeps(s[0], Sorted(s[1..]));
      assert s == [s[0]] + s[1..];
    }
  }

  /** The identifiers the catalogs use: no separator inside, and offices named
      explicitly are not the one word "all". */
  predicate CleanLocations(l: Locations) {
    l.Offices? ==> l.ids != [] && l.ids != ["all"] && forall id :: id in l.ids ==> ',' !in id
  }

  predicate Clean(p: PollPlan) {
    '|' !in p.city && '|' !in p.service && CleanLocations(p.locations)
  }

  /** Both name the same offices. */
  predicate SameOffices(a: Locations, b: Locations) {
    if a.Everywhere? || b.Everywhere? then a == b else multiset(a.ids) == multiset(b.ids)
  }

  lemma JoinHasComma(a: seq<string>)
    requires |a| > 1
    ensures ',' in Join(a)
  {
    assert Join(a)[|a[0]|] == ',';
  }

  lemma {:induction false} JoinInjective(a: seq<string>, b: seq<string>)
    requires a != [] && b != [] && Join(a) == Join(b)
    requires forall id :: id in a || id in b ==> ',' !in id
    ensures a == b
  {
    if |a| > 1 && |b| > 1 {
      assert Join(a) == a[0] + [','] + Join(a[1..]) && Join(b) == b[0] + [','] + Join(b[1..]);
      OneSplit(a[0], Join(a[1..]), b[0], Join(b[1..]), ',');
      JoinInjective(a[1..], b[1..]);
      assert a == [a[0]] + a[1..] && b == [b[0]] + b[1..];
    } else if |a| > 1 {
      JoinHasComma(a);
    } else if |b| > 1 {
      JoinHasComma(b);
    }
  }

  lemma OfficesKeyInjective(a: Locations, b: Locations)
    requires CleanLocations(a) && CleanLocations(b) && LocationsKey(a) == LocationsKey(b)
    ensures SameOffices(a, b)
  {
    if a.Offices? {
      SortKeeps(a.ids);
      SortedClean(a.ids);
    }
    if b.Offices? {
      SortKeeps(b.ids);
      SortedClean(b.ids);
    }
    if a.Offices? && b.Offices? {
      JoinInjective(Sorted(a.ids), Sorted(b.ids));
    } else if a.Offices? {
      JoinInjective(Sorted(a.ids), ["all"]);
      OneId(a.ids, "all");
    } else if b.Offices? {
      JoinInjective(Sorted(b.ids), ["all"]);
      OneId(b.ids, "all");
    }
  }

  lemma SortedClean(ids: seq<string>)
    requires ids != [] && forall id :: id in ids ==> ',' !in id
    ensures Sorted(ids) != [] && forall id :: id in Sorted(ids) ==> ',' !in id
  {
    SortKeeps(ids);
    assert |multiset(Sorted(ids))| == |ids|;
    forall id | id in Sorted(ids) ensures ',' !in id {
      assert id in multiset(Sorted(ids));
    }
  }

  lemma OneId(ids: seq<string>, id: string)
    requires Sorted(ids) == [id]
    ensures ids == [id]
  {
    SortKeeps(ids);
    assert |multiset(ids)| == |multiset([id])| == 1;
    assert ids[0] in multiset(ids);
  }

  // Sorting forgets the order the offices were named in.

  lemma BelowBefore(x: string, mid: string, y: string)
    ensures AtMost(x, mid) && LexLess(mid, y) ==> LexLess(x, y)
  {
    if AtMost(x, mid) && LexLess(mid, y) {
      LexAsymmetric(x, mid);
      if x != mid {
        LexTransitive(x, mid, y);
      }
    }
  }

  lemma {:induction false} InsertCommutes(x: string, y: string, s: seq<string>)
    ensures InsertSorted(x, InsertSorted(y, s)) == InsertSorted(y, InsertSorted(x, s))
    decreases |s|
  {
    LexAsymmetric(x, y);
    if s == [] {
      assert [x][1..] == [] && [y][1..] == [];
      assert InsertSorted(x, [y]) == InsertSorted(y, [x]);
    } else {
      BelowBefore(x, s[0], y);
      BelowBefore(y, s[0], x);
      InsertCommutes(x, y, s[1..]);
      InsertBoth(x, y, s);
      InsertBoth(y, x, s);
    }
  }

  /** Two insertions at the head of a list, worked out. */
  lemma InsertBoth(x: string, y: string, s: seq<string>)
    requires s != []
    ensures InsertSorted(x, InsertSorted(y, s)) ==
              if LexLess(s[0], y) then
                (if LexLess(s[0], x) then [s[0]] + InsertSorted(x, InsertSorted(y, s[1..]))
                 else [x, s[0]] + InsertSorted(y, s[1..]))
              else if LexLess(y, x) then [y] + InsertSorted(x, s)
              else [x, y] + s
  {
    if LexLess(s[0], y) {
      assert ([s[0]] + InsertSorted(y, s[1..]))[1..] == InsertSorted(y, s[1..]);
      assert [x] + ([s[0]] + InsertSorted(y, s[1..])) == [x, s[0]] + InsertSorted(y, s[1..]);
    } else {
      assert ([y] + s)[1..] == s;
      assert [x] + ([y] + s) == [x, y] + s;
    }
  }

  lemma {:induction false} SortFromAnywhere(s: seq<string>, i: nat)
    requires i < |s|
    ensures Sorted(s) == InsertSorted(s[i], Sorted(s[..i] + s[i + 1..]))
  {
    if i == 0 {
      assert s[..0] + s[1..] == s[1..];
    } else {
      var rest := s[1..];
      SortFromAnywhere(rest, i - 1);
      assert rest[..i - 1] + rest[i..] == (s[..i] + s[i + 1..])[1..];
      InsertCommutes(s[0], s[i], Sorted(rest[..i - 1] + rest[i..]));
    }
  }

  lemma {:induction false} SortForgetsOrder(a: seq<string>, b: seq<string>)
    requires multiset(a) == multiset(b)
    ensures Sorted(a) == Sorted(b)
    decreases |a|
  {
    if a == [] {
      assert |multiset(b)| == 0;
    } else {
      assert a[0] in multiset(b);
      var i :| 0 <= i < |b| && b[i] == a[0];
      var rest := b[..i] + b[i + 1..];
      assert b == b[..i] + [b[i]] + b[i + 1..];
      assert multiset(b) == multiset(rest) + multiset{a[0]};
      assert a == [a[0]] + a[1..];
      assert multiset(a[1..]) == multiset(a) - multiset{a[0]};
      SortForgetsOrder(a[1..], rest);
      SortFromAnywhere(b, i);
    }
  }

  lemma KeyForgetsOrder(p: PollPlan, q: PollPlan)
    requires p.city == q.city && p.service == q.service && SameOffices(p.locations, q.locations)
    ensures Key(p) == Key(q)
  {
    if p.locations.Offices? && q.locations.Offices? {
      SortForgetsOrder(p.locations.ids, q.locations.ids);
    }
  }

  /** Plans share a key exactly when they are the same poll: same city, same service,
      same offices, in whatever order they are named. */
  lemma KeyInjective(p: PollPlan, q: PollPlan)
    requires Clean(p) && Clean(q)
    ensures Key(p) == Key(q) <==> p.city == q.city && p.service == q.service && SameOffices(p.locations, q.locations)
  {
    if Key(p) == Key(q) {
      var tailP := p.service + "|" + LocationsKey(p.locations);
      var tailQ := q.service + "|" + LocationsKey(q.locations);
      OneSplit(p.city, tailP, q.city, tailQ, '|');
      OneSplit(p.service, LocationsKey(p.locations), q.service, LocationsKey(q.locations), '|');
      OfficesKeyInjective(p.locations, q.locations);
    } else if p.city == q.city && p.service == q.service && SameOffices(p.locations, q.locations) {
      KeyForgetsOrder(p, q);
    }
  }

  /** Without the rule on identifiers different polls share a key: one office whose id
      joins two others' with a comma, one office named "all", and a bar that ends the
      city here and there. */
  lemma SeparatorsCollide(city: string, service: string, a: string, b: string, l: Locations)
    requires AtMost(a, b)
    ensures Key(PollPlan(city, service, Offices([a + "," + b]))) == Key(PollPlan(city, service, Offices([a, b])))
    ensures Key(PollPlan(city, service, Offices(["all"]))) == Key(PollPlan(city, service, Everywhere))
    ensures Key(PollPlan(city + "|" + a, service, l)) == Key(PollPlan(city, a + "|" + service, l))
  {
    assert (city + "|" + a) + "|" + (service + "|" + LocationsKey(l))
        == city + "|" + ((a + "|" + service) + "|" + LocationsKey(l));
    assert [a, b][1..] == [b] && [b][1..] == [] && [a + "," + b][1..] == [] && ["all"][1..] == [];
    assert Sorted([a, b]) == InsertSorted(a, Sorted([b])) == [a, b];
    assert Join([a, b]) == a + "," + Join([b]);
    assert Sorted([a + "," + b]) == [a + "," + b] && Sorted(["all"]) == ["all"];
  }

  // ---------------------------------------------------------------------
  // build_plans

  /** The distinct elements in order of first appearance (a dict's keys). */
  function FirstSeen<T(==)>(s: seq<T>): seq<T> {
    if s == [] then []
    else
      var (before, last) := (FirstSeen(s[..|s| - 1]), s[|s| - 1]);
      if last in before then before else before + [last]
  }

  function PlansFor(w: Wish): seq<PollPlan> {
    seq(|w.filter.services|, i requires 0 <= i < |w.filter.services| =>
      PollPlan(w.city, w.filter.services[i], w.filter.locations))
  }

  function Wanted(wishes: seq<Wish>): seq<PollPlan> {
    if wishes == [] then [] else Wanted(wishes[..|wishes| - 1]) + PlansFor(wishes[|wishes| - 1])
  }

  function Keys(plans: seq<PollPlan>): set<string> {
    set p | p in plans :: Key(p)
  }

  /** The first plan of every key. */
  function Gathered(plans: seq<PollPlan>): seq<PollPlan> {
    if plans == [] then []
    else
      var (before, last) := (Gathered(plans[..|plans| - 1]), plans[|plans| - 1]);
      if Key(last) in Keys(before) then before else before + [last]
  }

  function Cities(plans: seq<PollPlan>): seq<string> {
    seq(|plans|, i requires 0 <= i < |plans| => plans[i].city)
  }

  function InCity(plans: seq<PollPlan>, city: string): seq<PollPlan> {
    if plans == [] then []
    else
      var (before, last) := (InCity(plans[..|plans| - 1], city), plans[|plans| - 1]);
      if last.city == city then before + [last] else before
  }

  function Services(plans: seq<PollPlan>): seq<string> {
    seq(|plans|, i requires 0 <= i < |plans| => plans[i].service)
  }

  /** One plan per service, for every office. */
  function Collapsed(city: string, plans: seq<PollPlan>): seq<PollPlan> {
    var services := FirstSeen(Services(plans));
    seq(|services|, i requires 0 <= i < |services| => PollPlan(city, services[i], Everywhere))
  }

  /** A tenant's own cap if its config names one that is not zero, else the default. */
  function CapForCity(maxPlans: map<string, int>, city: string, default: int): int {
    if city in maxPlans && maxPlans[city] != 0 then maxPlans[city] else default
  }

  function ForCity(plans: seq<PollPlan>, city: string, cap: int): seq<PollPlan> {
    var own := InCity(plans, city);
    if |own| <= cap then own else Collapsed(city, own)
  }

  function ForCities(plans: seq<PollPlan>, cities: seq<string>, maxPlans: map<string, int>,
                     default: int): seq<PollPlan> {
    if cities == [] then []
    else
      var last := cities[|cities| - 1];
      ForCities(plans, cities[..|cities| - 1], maxPlans, default)
      + ForCity(plans, last, CapForCity(maxPlans, last, default))
  }

  function Planned(wishes: seq<Wish>, maxPlans: map<string, int>, default: int): seq<PollPlan> {
    var plans := Gathered(Wanted(wishes));
    ForCities(plans, FirstSeen(Cities(plans)), maxPlans, default)
  }

  // ---------------------------------------------------------------------
  // Where the plans of a result come from

  predicate Unique<T(==)>(s: seq<T>) {
    forall i, j :: 0 <= i < j < |s| ==> s[i] != s[j]
  }

  predicate DistinctPlanKeys(plans: seq<PollPlan>) {
    forall i, j :: 0 <= i < j < |plans| ==> Key(plans[i]) != Key(plans[j])
  }

  lemma {:induction false} FirstSeenKeeps<T>(s: seq<T>)
    ensures Unique(FirstSeen(s)) && |FirstSeen(s)| <= |s|
    ensures forall x :: x in FirstSeen(s) <==> x in s
  {
    if s != [] {
      FirstSeenKeeps(s[..|s| - 1]);
      assert s == s[..|s| - 1] + [s[|s| - 1]];
    }
  }

  lemma AppendDistinct(plans: seq<PollPlan>, p: PollPlan)
    requires DistinctPlanKeys(plans) && Key(p) !in Keys(plans)
    ensures DistinctPlanKeys(plans + [p])
  {
    var all := plans + [p];
    forall i, j | 0 <= i < j < |all| ensures Key(all[i]) != Key(all[j]) {
      assert all[i] in plans;
    }
  }

  lemma {:induction false} GatheredKeeps(plans: seq<PollPlan>)
    ensures forall p :: p in Gathered(plans) ==> p in plans
    ensures Keys(Gathered(plans)) == Keys(plans)
    ensures DistinctPlanKeys(Gathered(plans))
  {
    if plans != [] {
      var before, last := plans[..|plans| - 1], plans[|plans| - 1];
      GatheredKeeps(before);
      assert plans == before + [last];
      assert Keys(plans) == Keys(before) + {Key(last)};
      assert Keys(Gathered(before) + [last]) == Keys(Gathered(before)) + {Key(last)};
      if Key(last) !in Keys(Gathered(before)) {
        AppendDistinct(Gathered(before), last);
      }
    }
  }

  lemma {:induction false} InCityKeeps(plans: seq<PollPlan>, city: string)
    ensures forall p :: p in InCity(plans, city) <==> p in plans && p.city == city
  {
    if plans != [] {
      InCityKeeps(plans[..|plans| - 1], city);
      assert plans == plans[..|plans| - 1] + [plans[|plans| - 1]];
    }
  }

  lemma {:induction false} InCityDistinct(plans: seq<PollPlan>, city: string)
    requires DistinctPlanKeys(plans)
    ensures DistinctPlanKeys(InCity(plans, city))
  {
    if plans != [] {
      var before, last := plans[..|plans| - 1], plans[|plans| - 1];
      InCityDistinct(before, city);
      InCityKeeps(before, city);
      if last.city == city {
        forall p | p in InCity(before, city) ensures Key(p) != Key(last) {
          var k :| 0 <= k < |before| && before[k] == p;
          assert plans[k] == p;
        }
        AppendDistinct(InCity(before, city), last);
      }
    }
  }

  /** A subscription wants the plan's city and service. */
  predicate Wants(wishes: seq<Wish>, city: string, service: string) {
    exists w :: w in wishes && w.city == city && service in w.filter.services
  }

  function WantedServices(wishes: seq<Wish>, city: string): set<string> {
    set w, s | w in wishes && w.city == city && s in w.filter.services :: s
  }

  lemma {:induction false} WantedIs(wishes: seq<Wish>, p: PollPlan)
    ensures p in Wanted(wishes) <==>
              exists w :: w in wishes && w.city == p.city && p.service in w.filter.services
                && w.filter.locations == p.locations
  {
    if wishes != [] {
      var before, last := wishes[..|wishes| - 1], wishes[|wishes| - 1];
      WantedIs(before, p);
      assert wishes == before + [last];
      if last.city == p.city && p.service in last.filter.services && last.filter.locations == p.locations {
        var i :| 0 <= i < |last.filter.services| && last.filter.services[i] == p.service;
        assert PlansFor(last)[i] == p;
      }
    }
  }

  lemma CollapsedIs(city: string, plans: seq<PollPlan>, p: PollPlan)
    ensures p in Collapsed(city, plans) <==>
              p.city == city && p.locations.Everywhere? && exists q :: q in plans && q.service == p.service
  {
    var services := FirstSeen(Services(plans));
    FirstSeenKeeps(Services(plans));
    assert p in Collapsed(city, plans) ==> p.service in services;
    if p.service in Services(plans) {
      var i :| 0 <= i < |plans| && Services(plans)[i] == p.service;
      assert plans[i] in plans;
      var k :| 0 <= k < |services| && services[k] == p.service;
      assert Collapsed(city, plans)[k] == PollPlan(city, p.service, Everywhere);
    }
    if q :| q in plans && q.service == p.service {
      var i :| 0 <= i < |plans| && plans[i] == q;
      assert Services(plans)[i] == p.service;
    }
  }

  lemma {:induction false} ForCitiesIs(plans: seq<PollPlan>, cities: seq<string>, maxPlans: map<string, int>,
                                       default: int, p: PollPlan)
    ensures p in ForCities(plans, cities, maxPlans, default) <==>
              p.city in cities && p in ForCity(plans, p.city, CapForCity(maxPlans, p.city, default))
  {
    if cities != [] {
      var before, last := cities[..|cities| - 1], cities[|cities| - 1];
      ForCitiesIs(plans, before, maxPlans, default, p);
      assert cities == before + [last];
      ForCityIs(plans, last, CapForCity(maxPlans, last, default), p);
    }
  }

  lemma ForCityIs(plans: seq<PollPlan>, city: string, cap: int, p: PollPlan)
    ensures p in ForCity(plans, city, cap) ==>
              p.city == city && exists q :: q in plans && q.city == city && q.service == p.service
  {
    InCityKeeps(plans, city);
    CollapsedIs(city, InCity(plans, city), p);
  }

  lemma CitiesAre(plans: seq<PollPlan>, p: PollPlan)
    requires p in plans
    ensures p.city in FirstSeen(Cities(plans))
  {
    var i :| 0 <= i < |plans| && plans[i] == p;
    assert Cities(plans)[i] == p.city;
    FirstSeenKeeps(Cities(plans));
  }

  lemma InResult(wishes: seq<Wish>, maxPlans: map<string, int>, default: int, p: PollPlan)
    ensures p in Planned(wishes, maxPlans, default) <==>
              p in ForCity(Gathered(Wanted(wishes)), p.city, CapForCity(maxPlans, p.city, default))
  {
    var plans := Gathered(Wanted(wishes));
    ForCitiesIs(plans, FirstSeen(Cities(plans)), maxPlans, default, p);
    ForCityIs(plans, p.city, CapForCity(maxPlans, p.city, default), p);
    if p in ForCity(plans, p.city, CapForCity(maxPlans, p.city, default)) {
      var q :| q in plans && q.city == p.city && q.service == p.service;
      CitiesAre(plans, q);
    }
  }

  // ---------------------------------------------------------------------
  // The promises

  /** The plan polls every office the subscription named. */
  predicate Covers(plan: Locations, wish: Locations) {
    plan.Everywhere? || (wish.Offices? && forall id :: id in wish.ids ==> id in plan.ids)
  }

  predicate CleanWishes(wishes: seq<Wish>) {
    forall w, s :: w in wishes && s in w.filter.services ==> Clean(PollPlan(w.city, s, w.filter.locations))
  }

  lemma SameOfficesCover(a: Locations, b: Locations)
    requires SameOffices(a, b)
    ensures Covers(a, b)
  {
    if a.Offices? {
      forall id | id in b.ids ensures id in a.ids {
        assert id in multiset(b.ids);
      }
    }
  }

  /** A subscriber whose plan comes second under a shared key is not polled for: of the
      office whose id joins two others' and those two, only the first is. */
  lemma ACollisionLosesAWish(city: string, service: string, a: string, b: string, maxPlans: map<string, int>,
                             default: int)
    requires AtMost(a, b) && CapForCity(maxPlans, city, default) >= 1
    ensures var joined, apart := Offices([a + "," + b]), Offices([a, b]);
            var wishes := [Wish(city, Filter([service], joined)), Wish(city, Filter([service], apart))];
      && Planned(wishes, maxPlans, default) == [PollPlan(city, service, joined)]
      && !Covers(joined, apart)
  {
    var joined, apart := Offices([a + "," + b]), Offices([a, b]);
    SeparatorsCollide(city, service, a, b, Everywhere);
    WantedByTwo(city, service, joined, apart);
    FirstOfAKey(PollPlan(city, service, joined), PollPlan(city, service, apart));
    OnePlan(PollPlan(city, service, joined), maxPlans, default);
    assert |a + "," + b| > |a| && a in apart.ids;
  }

  lemma WantedByTwo(city: string, service: string, l: Locations, m: Locations)
    ensures Wanted([Wish(city, Filter([service], l)), Wish(city, Filter([service], m))])
         == [PollPlan(city, service, l), PollPlan(city, service, m)]
  {
    var v, w := Wish(city, Filter([service], l)), Wish(city, Filter([service], m));
    assert [v, w][..1] == [v] && [v][..0] == [];
    assert PlansFor(v) == [PollPlan(city, service, l)] && PlansFor(w) == [PollPlan(city, service, m)];
    assert Wanted([v]) == [PollPlan(city, service, l)];
  }

  lemma FirstOfAKey(p: PollPlan, q: PollPlan)
    requires Key(p) == Key(q)
    ensures Gathered([p, q]) == [p]
  {
    assert [p, q][..1] == [p] && [p][..0] == [];
    assert Gathered([p]) == [p] && Key(q) in Keys([p]);
  }

  lemma OnePlan(p: PollPlan, maxPlans: map<string, int>, default: int)
    requires CapForCity(maxPlans, p.city, default) >= 1
    ensures ForCities([p], FirstSeen(Cities([p])), maxPlans, default) == [p]
  {
    assert Cities([p]) == [p.city] && [p.city][..0] == [] && [p][..0] == [] && FirstSeen([p.city]) == [p.city];
    assert InCity([p], p.city) == [p];
  }

  /** The plan gathered for a wish: its own, or one that shares its key. */
  lemma PlannedFor(wishes: seq<Wish>, w: Wish, service: string) returns (q: PollPlan)
    requires w in wishes && service in w.filter.services && CleanWishes(wishes)
    ensures q in Gathered(Wanted(wishes)) && Key(q) == Key(PollPlan(w.city, service, w.filter.locations))
    ensures q.city == w.city && q.service == service && SameOffices(q.locations, w.filter.locations)
  {
    var mine := PollPlan(w.city, service, w.filter.locations);
    WantedIs(wishes, mine);
    GatheredKeeps(Wanted(wishes));
    assert Key(mine) in Keys(Gathered(Wanted(wishes)));
    q :| q in Gathered(Wanted(wishes)) && Key(q) == Key(mine);
    WantedIs(wishes, q);
    KeyInjective(q, mine);
  }

  /** Collapsing loses nobody: for every subscription and service it wants there is
      a plan of that city and service that polls all its offices. */
  lemma EveryWishIsPolled(wishes: seq<Wish>, maxPlans: map<string, int>, default: int, w: Wish, service: string)
    requires w in wishes && service in w.filter.services && CleanWishes(wishes)
    ensures exists p :: p in Planned(wishes, maxPlans, default)
              && p.city == w.city && p.service == service && Covers(p.locations, w.filter.locations)
  {
    var mine := PollPlan(w.city, service, w.filter.locations);
    var plans := Gathered(Wanted(wishes));
    var cap := CapForCity(maxPlans, w.city, default);
    var q := PlannedFor(wishes, w, service);
    SameOfficesCover(q.locations, mine.locations);
    InCityKeeps(plans, w.city);
    var p := if |InCity(plans, w.city)| <= cap then q else PollPlan(w.city, service, Everywhere);
    CollapsedIs(w.city, InCity(plans, w.city), p);
    InResult(wishes, maxPlans, default, p);
  }

  /** Nothing is polled that nobody wants. */
  lemma NothingUnwantedIsPolled(wishes: seq<Wish>, maxPlans: map<string, int>, default: int, p: PollPlan)
    requires p in Planned(wishes, maxPlans, default)
    ensures Wants(wishes, p.city, p.service)
  {
    var plans := Gathered(Wanted(wishes));
    InResult(wishes, maxPlans, default, p);
    ForCityIs(plans, p.city, CapForCity(maxPlans, p.city, default), p);
    var q :| q in plans && q.city == p.city && q.service == p.service;
    GatheredKeeps(Wanted(wishes));
    WantedIs(wishes, q);
  }

  lemma CleanResult(wishes: seq<Wish>, city: string, cap: int, p: PollPlan)
    requires CleanWishes(wishes) && p in ForCity(Gathered(Wanted(wishes)), city, cap)
    ensures Clean(p) && p.city == city
  {
    var plans := Gathered(Wanted(wishes));
    InCityKeeps(plans, city);
    CollapsedIs(city, InCity(plans, city), p);
    ForCityIs(plans, city, cap, p);
    var q :| q in plans && q.city == city && q.service == p.service;
    GatheredKeeps(Wanted(wishes));
    WantedIs(wishes, q);
    WantedIs(wishes, p);
  }

  lemma OneCityDistinct(wishes: seq<Wish>, city: string, cap: int)
    requires CleanWishes(wishes)
    ensures DistinctPlanKeys(ForCity(Gathered(Wanted(wishes)), city, cap))
  {
    var plans := Gathered(Wanted(wishes));
    GatheredKeeps(Wanted(wishes));
    InCityDistinct(plans, city);
    var own := ForCity(plans, city, cap);
    if |InCity(plans, city)| > cap {
      FirstSeenKeeps(Services(InCity(plans, city)));
      forall i, j | 0 <= i < j < |own| ensures Key(own[i]) != Key(own[j]) {
        CleanResult(wishes, city, cap, own[i]);
        CleanResult(wishes, city, cap, own[j]);
        assert own[i].service != own[j].service;
        if Key(own[i]) == Key(own[j]) {
          KeyInjective(own[i], own[j]);
        }
      }
    }
  }

  lemma {:induction false} CitiesDistinct(wishes: seq<Wish>, cities: seq<string>, maxPlans: map<string, int>,
                                          default: int)
    requires CleanWishes(wishes) && Unique(cities)
    ensures DistinctPlanKeys(ForCities(Gathered(Wanted(wishes)), cities, maxPlans, default))
  {
    if cities != [] {
      var plans := Gathered(Wanted(wishes));
      var before, last := cities[..|cities| - 1], cities[|cities| - 1];
      var cap := CapForCity(maxPlans, last, default);
      CitiesDistinct(wishes, before, maxPlans, default);
      OneCityDistinct(wishes, last, cap);
      forall p, q | p in ForCities(plans, before, maxPlans, default) && q in ForCity(plans, last, cap)
        ensures Key(p) != Key(q)
      {
        ForCitiesIs(plans, before, maxPlans, default, p);
        CleanResult(wishes, p.city, CapForCity(maxPlans, p.city, default), p);
        CleanResult(wishes, last, cap, q);
        if Key(p) == Key(q) {
          KeyInjective(p, q);
        }
      }
    }
  }

  /** No poll is made twice: the plans' keys are distinct. */
  lemma PlanKeysAreDistinct(wishes: seq<Wish>, maxPlans: map<string, int>, default: int)
    requires CleanWishes(wishes)
    ensures DistinctPlanKeys(Planned(wishes, maxPlans, default))
  {
    var plans := Gathered(Wanted(wishes));
    FirstSeenKeeps(Cities(plans));
    CitiesDistinct(wishes, FirstSeen(Cities(plans)), maxPlans, default);
  }

  lemma {:induction false} InCityAppend(a: seq<PollPlan>, b: seq<PollPlan>, city: string)
    ensures InCity(a + b, city) == InCity(a, city) + InCity(b, city)
  {
    if b == [] {
      assert a + b == a;
    } else {
      InCityAppend(a, b[..|b| - 1], city);
      assert (a + b)[..|a + b| - 1] == a + b[..|b| - 1];
    }
  }

  lemma {:induction false} InCityAll(plans: seq<PollPlan>, city: string, keep: bool)
    requires forall p :: p in plans ==> (p.city == city) == keep
    ensures InCity(plans, city) == if keep then plans else []
  {
    if plans != [] {
      assert plans == plans[..|plans| - 1] + [plans[|plans| - 1]];
      InCityAll(plans[..|plans| - 1], city, keep);
    }
  }

  lemma {:induction false} InCityOfResult(plans: seq<PollPlan>, cities: seq<string>, maxPlans: map<string, int>,
                                          default: int, city: string)
    requires Unique(cities)
    ensures InCity(ForCities(plans, cities, maxPlans, default), city) ==
              if city in cities then ForCity(plans, city, CapForCity(maxPlans, city, default)) else []
  {
    if cities != [] {
      var before, last := cities[..|cities| - 1], cities[|cities| - 1];
      var own := ForCity(plans, last, CapForCity(maxPlans, last, default));
      assert cities == before + [last];
      InCityOfResult(plans, before, maxPlans, default, city);
      InCityAppend(ForCities(plans, before, maxPlans, default), own, city);
      forall p | p in own ensures p.city == last {
        ForCityIs(plans, last, CapForCity(maxPlans, last, default), p);
      }
      InCityAll(own, city, last == city);
    }
  }

  lemma {:induction false} UniqueFits<T>(s: seq<T>, all: set<T>)
    requires Unique(s) && forall x :: x in s ==> x in all
    ensures |s| <= |all|
  {
    if s != [] {
      UniqueFits(s[1..], all - {s[0]});
    }
  }

  lemma PlannedServiceIsWanted(wishes: seq<Wish>, city: string, s: string)
    requires s in FirstSeen(Services(InCity(Gathered(Wanted(wishes)), city)))
    ensures s in WantedServices(wishes, city)
  {
    var own := InCity(Gathered(Wanted(wishes)), city);
    FirstSeenKeeps(Services(own));
    var i :| 0 <= i < |own| && Services(own)[i] == s;
    var p := own[i];
    assert p in own;
    InCityKeeps(Gathered(Wanted(wishes)), city);
    GatheredKeeps(Wanted(wishes));
    WantedIs(wishes, p);
  }

  /** A city gets at most its cap in plans, or one per service wanted there if that
      is more. */
  lemma PlansPerCity(wishes: seq<Wish>, maxPlans: map<string, int>, default: int, city: string)
    ensures |InCity(Planned(wishes, maxPlans, default), city)| <=
              Max(CapForCity(maxPlans, city, default), |WantedServices(wishes, city)|)
  {
    var plans := Gathered(Wanted(wishes));
    var cap := CapForCity(maxPlans, city, default);
    assert InCity(Planned(wishes, maxPlans, default), city) == ForCity(plans, city, cap)
        || InCity(Planned(wishes, maxPlans, default), city) == [] by {
      FirstSeenKeeps(Cities(plans));
      InCityOfResult(plans, FirstSeen(Cities(plans)), maxPlans, default, city);
    }
    CollapsedFits(wishes, city);
  }

  lemma CollapsedFits(wishes: seq<Wish>, city: string)
    ensures |Collapsed(city, InCity(Gathered(Wanted(wishes)), city))| <= |WantedServices(wishes, city)|
  {
    var services := FirstSeen(Services(InCity(Gathered(Wanted(wishes)), city)));
    FirstSeenKeeps(Services(InCity(Gathered(Wanted(wishes)), city)));
    forall s | s in services ensures s in WantedServices(wishes, city) {
      PlannedServiceIsWanted(wishes, city, s);
    }
    UniqueFits(services, WantedServices(wishes, city));
  }

  /** The polls the city's subscriptions ask for, by key. */
  function WantedKeys(wishes: seq<Wish>, city: string): set<string> {
    set w, s | w in wishes && w.city == city && s in w.filter.services :: Key(PollPlan(city, s, w.filter.locations))
  }

  lemma {:induction false} DistinctKeysCount(plans: seq<PollPlan>)
    requires DistinctPlanKeys(plans)
    ensures |Keys(plans)| == |plans|
  {
    if plans != [] {
      var before, last := plans[..|plans| - 1], plans[|plans| - 1];
      DistinctKeysCount(before);
      assert plans == before + [last];
      assert Keys(plans) == Keys(before) + {Key(last)};
    }
  }

  lemma KeysOfACity(wishes: seq<Wish>, city: string)
    requires CleanWishes(wishes)
    ensures |InCity(Gathered(Wanted(wishes)), city)| == |WantedKeys(wishes, city)|
  {
    var plans := Gathered(Wanted(wishes));
    var own := InCity(plans, city);
    GatheredKeeps(Wanted(wishes));
    InCityKeeps(plans, city);
    InCityDistinct(plans, city);
    DistinctKeysCount(own);
    forall k | k in Keys(own) ensures k in WantedKeys(wishes, city) {
      var p :| p in own && Key(p) == k;
      WantedIs(wishes, p);
    }
    forall k | k in WantedKeys(wishes, city) ensures k in Keys(own) {
      var w, s :| w in wishes && w.city == city && s in w.filter.services
          && Key(PollPlan(city, s, w.filter.locations)) == k;
      var q := PlannedFor(wishes, w, s);
    }
    assert Keys(own) == WantedKeys(wishes, city);
  }

  lemma PollsOfACity(wishes: seq<Wish>, maxPlans: map<string, int>, default: int, city: string)
    ensures InCity(Planned(wishes, maxPlans, default), city)
        == ForCity(Gathered(Wanted(wishes)), city, CapForCity(maxPlans, city, default))
  {
    var plans := Gathered(Wanted(wishes));
    FirstSeenKeeps(Cities(plans));
    InCityOfResult(plans, FirstSeen(Cities(plans)), maxPlans, default, city);
    InCityKeeps(plans, city);
    if city !in FirstSeen(Cities(plans)) && InCity(plans, city) != [] {
      var p := InCity(plans, city)[0];
      assert p in InCity(plans, city);
      CitiesAre(plans, p);
    }
  }

  lemma {:induction false} UniqueCount<T>(s: seq<T>)
    requires Unique(s)
    ensures |Elements(s)| == |s|
  {
    if s != [] {
      UniqueCount(s[1..]);
      assert Elements(s) == {s[0]} + Elements(s[1..]) && s[0] !in s[1..];
    }
  }

  lemma WantedServiceIsPlanned(wishes: seq<Wish>, city: string, s: string)
    requires CleanWishes(wishes) && s in WantedServices(wishes, city)
    ensures s in Services(InCity(Gathered(Wanted(wishes)), city))
  {
    var w :| w in wishes && w.city == city && s in w.filter.services;
    var q := PlannedFor(wishes, w, s);
    var own := InCity(Gathered(Wanted(wishes)), city);
    InCityKeeps(Gathered(Wanted(wishes)), city);
    var i :| 0 <= i < |own| && own[i] == q;
    assert Services(own)[i] == s;
  }

  lemma ServicesOfACity(wishes: seq<Wish>, city: string)
    requires CleanWishes(wishes)
    ensures |Collapsed(city, InCity(Gathered(Wanted(wishes)), city))| >= |WantedServices(wishes, city)|
  {
    var services := FirstSeen(Services(InCity(Gathered(Wanted(wishes)), city)));
    FirstSeenKeeps(Services(InCity(Gathered(Wanted(wishes)), city)));
    UniqueCount(services);
    forall s | s in WantedServices(wishes, city) ensures s in services {
      WantedServiceIsPlanned(wishes, city, s);
    }
    SubsetCardinality(WantedServices(wishes, city), Elements(services));
  }

  lemma WishedFor(wishes: seq<Wish>, city: string, p: PollPlan)
    requires p in InCity(Gathered(Wanted(wishes)), city)
    ensures exists w :: w in wishes && w.city == city && p.service in w.filter.services
              && p.locations == w.filter.locations
  {
    InCityKeeps(Gathered(Wanted(wishes)), city);
    GatheredKeeps(Wanted(wishes));
    WantedIs(wishes, p);
  }

  /** A city whose subscriptions ask for no more polls than its cap is polled for exactly
      those, each for the offices some subscription named; past the cap it is polled for
      every office, once per service. */
  lemma WhatACityIsPolledFor(wishes: seq<Wish>, maxPlans: map<string, int>, default: int, city: string)
    requires CleanWishes(wishes)
    ensures var cap := if city in maxPlans && maxPlans[city] != 0 then maxPlans[city] else default;
      var polls := InCity(Planned(wishes, maxPlans, default), city);
      if |WantedKeys(wishes, city)| <= cap then
        && |polls| == |WantedKeys(wishes, city)|
        && forall p :: p in polls ==>
             exists w :: w in wishes && w.city == city && p.service in w.filter.services
                         && p.locations == w.filter.locations
      else
        && (forall p :: p in polls ==> p.locations.Everywhere?)
        && |polls| == |WantedServices(wishes, city)|
  {
    PollsOfACity(wishes, maxPlans, default, city);
    KeysOfACity(wishes, city);
    CollapsedFits(wishes, city);
    ServicesOfACity(wishes, city);
    var own := InCity(Gathered(Wanted(wishes)), city);
    forall p | p in own
      ensures exists w :: w in wishes && w.city == city && p.service in w.filter.services
                && p.locations == w.filter.locations
    {
      WishedFor(wishes, city, p);
    }
  }

  // ---------------------------------------------------------------------
  // The code's loops

  lemma GatheredStep(before: seq<PollPlan>, wanted: seq<PollPlan>, j: nat)
    requires j < |wanted|
    ensures var so := Gathered(before + wanted[..j]);
      Gathered(before + wanted[..j + 1]) == if Key(wanted[j]) in Keys(so) then so else so + [wanted[j]]
  {
    var next := before + wanted[..j + 1];
    assert next[..|next| - 1] == before + wanted[..j] && next[|next| - 1] == wanted[j];
  }

  /** `plans.setdefault` for each plan of one subscription. */
  method AddPlans(plans: seq<PollPlan>, wanted: seq<PollPlan>, ghost before: seq<PollPlan>) returns (out: seq<PollPlan>)
    requires plans == Gathered(before)
    ensures out == Gathered(before + wanted)
  {
    out := plans;
    var j := 0;
    assert before + wanted[..0] == before;
    while j < |wanted|
      invariant 0 <= j <= |wanted|
      invariant out == Gathered(before + wanted[..j])
    {
      GatheredStep(before, wanted, j);
      if Key(wanted[j]) !in Keys(out) {
        out := out + [wanted[j]];
      }
      j := j + 1;
    }
    assert wanted[..j] == wanted;
  }

  method GatherPlans(wishes: seq<Wish>) returns (plans: seq<PollPlan>)
    ensures plans == Gathered(Wanted(wishes))
  {
    plans := [];
    var i := 0;
    while i < |wishes|
      invariant 0 <= i <= |wishes|
      invariant plans == Gathered(Wanted(wishes[..i]))
    {
      assert wishes[..i + 1][..i] == wishes[..i];
      plans := AddPlans(plans, PlansFor(wishes[i]), Wanted(wishes[..i]));
      i := i + 1;
    }
    assert wishes[..i] == wishes;
  }

  method GroupByCity(plans: seq<PollPlan>) returns (order: seq<string>, perCity: map<string, seq<PollPlan>>)
    ensures order == FirstSeen(Cities(plans)) && perCity.Keys == Elements(order)
    ensures forall c :: c in perCity ==> perCity[c] == InCity(plans, c)
  {
    order, perCity := [], map[];
    var i := 0;
    while i < |plans|
      invariant 0 <= i <= |plans|
      invariant order == FirstSeen(Cities(plans[..i])) && perCity.Keys == Elements(order)
      invariant forall c :: c !in perCity ==> InCity(plans[..i], c) == []
      invariant forall c :: c in perCity ==> perCity[c] == InCity(plans[..i], c)
    {
      var p := plans[i];
      assert plans[..i + 1][..i] == plans[..i];
      assert Cities(plans[..i + 1])[..i] == Cities(plans[..i]);
      if p.city in perCity {
        perCity := perCity[p.city := perCity[p.city] + [p]];
      } else {
        order, perCity := order + [p.city], perCity[p.city := [p]];
      }
      i := i + 1;
    }
    assert plans[..i] == plans;
  }

  method CollapseCity(city: string, plans: seq<PollPlan>) returns (out: seq<PollPlan>)
    ensures out == Collapsed(city, plans)
  {
    out := [];
    var seen: seq<string> := [];
    var i := 0;
    while i < |plans|
      invariant 0 <= i <= |plans|
      invariant seen == FirstSeen(Services(plans[..i])) && out == Collapsed(city, plans[..i])
    {
      assert Services(plans[..i + 1])[..i] == Services(plans[..i]);
      if plans[i].service !in seen {
        seen, out := seen + [plans[i].service], out + [PollPlan(city, plans[i].service, Everywhere)];
      }
      i := i + 1;
    }
    assert plans[..i] == plans;
  }

  method BuildPlans(wishes: seq<Wish>, maxPlans: map<string, int>, default: int) returns (out: seq<PollPlan>)
    ensures out == Planned(wishes, maxPlans, default)
  {
    var plans := GatherPlans(wishes);
    var order, perCity := GroupByCity(plans);
    out := [];
    var i := 0;
    while i < |order|
      invariant 0 <= i <= |order|
      invariant out == ForCities(plans, order[..i], maxPlans, default)
    {
      var city := order[i];
      assert order[..i + 1][..i] == order[..i] && city in Elements(order);
      if |perCity[city]| <= CapForCity(maxPlans, city, default) {
        out := out + perCity[city];
      } else {
        var collapsed := CollapseCity(city, perCity[city]);
        out := out + collapsed;
      }
      i := i + 1;
    }
    assert order[..i] == order;
  }
}
