/** What one subscriber is looked up and told about in a cycle (`run_cycle` of app/cycle.py). */
module Horizon {
  import opened Common
  import opened Text
  import opened SeenLedger

  // The polls of the plans that cover the filter are merged soonest first, matched,
  // stripped of repeats, and cut at the horizon.

  const MAX_SLOTS_PER_CYCLE := 50

  /** A slot as a poll found it: the same slot can be found at two counters. */
  datatype Found = Found(slot: Slot, counter: nat)

  predicate Sooner(a: Found, b: Found) {
    LexLess(a.slot.date, b.slot.date) || (a.slot.date == b.slot.date && LexLess(a.slot.time, b.slot.time))
  }

  predicate SameMoment(a: Found, b: Found) {
    a.slot.date == b.slot.date && a.slot.time == b.slot.time
  }

  predicate InOrder(s: seq<Found>) {
    forall i, j :: 0 <= i < j < |s| ==> !Sooner(s[j], s[i])
  }

  lemma SoonerIsAnOrder(a: Found, b: Found)
    ensures !(Sooner(a, b) && Sooner(b, a)) && (Sooner(a, b) || Sooner(b, a) || SameMoment(a, b))
    ensures SameMoment(a, b) ==> !Sooner(a, b)
  {
    LexAsymmetric(a.slot.date, b.slot.date);
    LexAsymmetric(a.slot.time, b.slot.time);
  }

  lemma NotSoonerTransitive(a: Found, b: Found, c: Found)
    requires !Sooner(b, a) && !Sooner(c, b)
    ensures !Sooner(c, a)
    ensures Sooner(a, b) || Sooner(b, c) ==> Sooner(a, c)
  {
    SoonerIsAnOrder(a, b);
    SoonerIsAnOrder(b, c);
    SoonerIsAnOrder(a, c);
    if a.slot.date != b.slot.date && b.slot.date != c.slot.date {
      LexTransitive(a.slot.date, b.slot.date, c.slot.date);
    } else if a.slot.date == b.slot.date == c.slot.date && a.slot.time != b.slot.time && b.slot.time != c.slot.time {
      LexTransitive(a.slot.time, b.slot.time, c.slot.time);
    }
  }

  // ---------------------------------------------------------------------
  // Stable sorting

  /** In front of everything that is not sooner. */
  function Insert(x: Found, s: seq<Found>): seq<Found> {
    if s == [] || !Sooner(s[0], x) then [x] + s else [s[0]] + Insert(x, s[1..])
  }

  function Soonest(s: seq<Found>): seq<Found> {
    if s == [] then [] else Insert(s[0], Soonest(s[1..]))
  }

  /** The finds of one moment, in their order. */
  function At(s: seq<Found>, m: Found): seq<Found> {
    if s == [] then []
    else if SameMoment(s[0], m) then [s[0]] + At(s[1..], m)
    else At(s[1..], m)
  }

  /** Sorted, and every moment's finds in the order they had: there is only one
      such list. */
  ghost predicate StableSortOf(r: seq<Found>, s: seq<Found>) {
    InOrder(r) && forall m :: At(r, m) == At(s, m)
  }

  lemma {:induction false} AtAppend(a: seq<Found>, b: seq<Found>, m: Found)
    ensures At(a + b, m) == At(a, m) + At(b, m)
  {
    if a == [] {
      assert a + b == b;
    } else {
      assert (a + b)[1..] == a[1..] + b;
      AtAppend(a[1..], b, m);
    }
  }

  lemma {:induction false} AtNone(s: seq<Found>, m: Found)
    requires forall x :: x in s ==> !SameMoment(x, m)
    ensures At(s, m) == []
  {
    if s != [] {
      AtNone(s[1..], m);
    }
  }

  lemma {:induction false} AtMembers(s: seq<Found>, m: Found)
    ensures forall x :: x in At(s, m) ==> x in s && SameMoment(x, m)
  {
    if s != [] {
      AtMembers(s[1..], m);
    }
  }

  lemma {:induction false} InsertIsStable(x: Found, s: seq<Found>)
    requires InOrder(s)
    ensures InOrder(Insert(x, s)) && (forall m :: At(Insert(x, s), m) == At([x] + s, m))
    ensures forall y :: y in Insert(x, s) ==> y == x || y in s
  {
    if s == [] || !Sooner(s[0], x) {
      forall j | 0 <= j < |s| ensures !Sooner(s[j], x) {
        if j > 0 {
          NotSoonerTransitive(x, s[0], s[j]);
        }
      }
    } else {
      var r := Insert(x, s[1..]);
      InsertIsStable(x, s[1..]);
      SoonerIsAnOrder(s[0], x);
      forall j | 0 <= j < |r| ensures !Sooner(r[j], s[0]) {
        assert r[j] in r;
      }
      forall m ensures At([s[0]] + r, m) == At([x] + s, m) {
        AtAppend([s[0]], r, m);
        AtAppend([x], s, m);
        AtAppend([x], s[1..], m);
        AtAppend([s[0]], s[1..], m);
        assert [s[0]] + s[1..] == s;
        OneAt(s[0], m);
        OneAt(x, m);
      }
    }
  }

  lemma OneAt(x: Found, m: Found)
    ensures At([x], m) == if SameMoment(x, m) then [x] else []
  {
    assert [x][1..] == [];
  }

  lemma {:induction false} SoonestIsStable(s: seq<Found>)
    ensures StableSortOf(Soonest(s), s)
  {
    if s != [] {
      SoonestIsStable(s[1..]);
      InsertIsStable(s[0], Soonest(s[1..]));
      forall m ensures At(Soonest(s), m) == At(s, m) {
        AtAppend([s[0]], Soonest(s[1..]), m);
        AtAppend([s[0]], s[1..], m);
        assert [s[0]] + s[1..] == s;
      }
    }
  }

  lemma FirstAt(s: seq<Found>)
    requires s != []
    ensures At(s, s[0]) == [s[0]] + At(s[1..], s[0])
  {
  }

  /** Two lists in order with the same finds at every moment are the same list. */
  lemma {:induction false} StableSortIsUnique(a: seq<Found>, b: seq<Found>)
    requires InOrder(a) && InOrder(b) && forall m :: At(a, m) == At(b, m)
    ensures a == b
    decreases |a|
  {
    if a == [] && b != [] {
      FirstAt(b);
      assert false;
    } else if a != [] && b == [] {
      FirstAt(a);
      assert false;
    } else if a != [] {
      SameHead(a, b);
      forall m ensures At(a[1..], m) == At(b[1..], m) {
        AtAppend([a[0]], a[1..], m);
        AtAppend([b[0]], b[1..], m);
        assert [a[0]] + a[1..] == a && [b[0]] + b[1..] == b;
        assert At(a[1..], m) == At(a, m)[|At([a[0]], m)|..] && At(b[1..], m) == At(b, m)[|At([b[0]], m)|..];
      }
      StableSortIsUnique(a[1..], b[1..]);
      assert a == [a[0]] + a[1..] && b == [b[0]] + b[1..];
    }
  }

  lemma SameHead(a: seq<Found>, b: seq<Found>)
    requires a != [] && b != [] && InOrder(a) && InOrder(b) && forall m :: At(a, m) == At(b, m)
    ensures a[0] == b[0]
  {
    FirstAt(a);
    FirstAt(b);
    assert At(b, a[0])[0] == a[0] && At(a, b[0])[0] == b[0];
    AtMembers(b, a[0]);
    AtMembers(a, b[0]);
    assert a[0] in At(b, a[0]) && b[0] in At(a, b[0]);
    SoonerIsAnOrder(a[0], b[0]);
    assert SameMoment(a[0], b[0]);
    SameMomentSameAt(b, a[0], b[0]);
  }

  lemma {:induction false} SameMomentSameAt(s: seq<Found>, m: Found, n: Found)
    requires SameMoment(m, n)
    ensures At(s, m) == At(s, n)
  {
    if s != [] {
      SameMomentSameAt(s[1..], m, n);
    }
  }

  // ---------------------------------------------------------------------
  // Merging the polls

  function Concat(sources: seq<seq<Found>>): seq<Found> {
    if sources == [] then [] else sources[0] + Concat(sources[1..])
  }

  /** The source from i on whose head is soonest, the first of several; |sources|
      when all are empty. */
  function Head(sources: seq<seq<Found>>, i: nat): (k: nat)
    requires i <= |sources|
    ensures i <= k <= |sources| && (k < |sources| ==> sources[k] != [])
    decreases |sources| - i
  {
    if i == |sources| then i
    else
      var rest := Head(sources, i + 1);
      if sources[i] == [] then rest
      else if rest < |sources| && Sooner(sources[rest][0], sources[i][0]) then rest
      else i
  }

  function Size(sources: seq<seq<Found>>): nat {
    if sources == [] then 0 else |sources[0]| + Size(sources[1..])
  }

  lemma {:induction false} PopShrinks(sources: seq<seq<Found>>, k: nat)
    requires k < |sources| && sources[k] != []
    ensures Size(sources[k := sources[k][1..]]) < Size(sources)
  {
    if k == 0 {
      assert sources[0 := sources[0][1..]][1..] == sources[1..];
    } else {
      assert sources[k := sources[k][1..]][1..] == sources[1..][k - 1 := sources[1..][k - 1][1..]];
      PopShrinks(sources[1..], k - 1);
    }
  }

  /** `heapq.merge`: the soonest head, from the first source that has one. */
  function Merge(sources: seq<seq<Found>>): seq<Found>
    decreases Size(sources)
  {
    var k := Head(sources, 0);
    if k == |sources| then []
    else
      PopShrinks(sources, k);
      [sources[k][0]] + Merge(sources[k := sources[k][1..]])
  }

  lemma {:induction false} HeadIsSoonest(sources: seq<seq<Found>>, i: nat)
    requires i <= |sources|
    ensures var k := Head(sources, i);
      && (k == |sources| ==> forall j :: i <= j < |sources| ==> sources[j] == [])
      && (k < |sources| ==> forall j :: i <= j < |sources| && sources[j] != [] ==>
            !Sooner(sources[j][0], sources[k][0]))
      && (k < |sources| ==> forall j :: i <= j < k && sources[j] != [] ==> Sooner(sources[k][0], sources[j][0]))
    decreases |sources| - i
  {
    if i < |sources| {
      HeadIsSoonest(sources, i + 1);
      var rest := Head(sources, i + 1);
      if sources[i] != [] && rest < |sources| {
        var x, y := sources[i][0], sources[rest][0];
        SoonerIsAnOrder(x, y);
        SoonerIsAnOrder(x, x);
        if !Sooner(y, x) {
          forall j | i + 1 <= j < |sources| && sources[j] != [] ensures !Sooner(sources[j][0], x) {
            NotSoonerTransitive(x, y, sources[j][0]);
          }
        }
      } else if sources[i] != [] {
        SoonerIsAnOrder(sources[i][0], sources[i][0]);
      }
    }
  }

  predicate AllInOrder(sources: seq<seq<Found>>) {
    forall i :: 0 <= i < |sources| ==> InOrder(sources[i])
  }

  lemma {:induction false} ConcatMembers(sources: seq<seq<Found>>)
    ensures forall x :: x in Concat(sources) ==> exists i :: 0 <= i < |sources| && x in sources[i]
  {
    if sources != [] {
      ConcatMembers(sources[1..]);
      forall x | x in Concat(sources) ensures exists i :: 0 <= i < |sources| && x in sources[i] {
        if x !in sources[0] {
          var tail := sources[1..];
          assert x in Concat(tail);
          var i :| 0 <= i < |tail| && x in tail[i];
          assert tail[i] == sources[i + 1];
        }
      }
    }
  }

  lemma PopFirst(sources: seq<seq<Found>>, m: Found)
    requires sources != [] && sources[0] != []
    ensures At(Concat(sources), m) ==
              (if SameMoment(sources[0][0], m) then [sources[0][0]] else [])
                + At(Concat(sources[0 := sources[0][1..]]), m)
  {
    var popped, x := sources[0 := sources[0][1..]], sources[0][0];
    assert Concat(sources) == [x] + Concat(popped) by {
      assert popped[1..] == sources[1..] && [x] + sources[0][1..] == sources[0];
    }
    AtAppend([x], Concat(popped), m);
    OneAt(x, m);
  }

  /** Taking the head of source k off takes it off the front of its moment: no
      source before k has anything at that moment. */
  lemma {:induction false} PopKeepsMoments(sources: seq<seq<Found>>, k: nat, m: Found)
    requires k < |sources| && sources[k] != []
    requires SameMoment(sources[k][0], m) ==> forall j :: 0 <= j < k ==> At(sources[j], m) == []
    ensures At(Concat(sources), m) ==
              (if SameMoment(sources[k][0], m) then [sources[k][0]] else [])
                + At(Concat(sources[k := sources[k][1..]]), m)
  {
    if k == 0 {
      PopFirst(sources, m);
    } else {
      var popped, tail := sources[k := sources[k][1..]], sources[1..];
      assert popped[1..] == tail[k - 1 := tail[k - 1][1..]];
      PopKeepsMoments(tail, k - 1, m);
      AtAppend(sources[0], Concat(tail), m);
      AtAppend(sources[0], Concat(popped[1..]), m);
    }
  }

  lemma NothingBefore(sources: seq<seq<Found>>, k: nat, j: nat, m: Found)
    requires j < k < |sources| && sources[k] != [] && InOrder(sources[j])
    requires SameMoment(sources[k][0], m) && (sources[j] != [] ==> Sooner(sources[k][0], sources[j][0]))
    ensures At(sources[j], m) == []
  {
    forall x | x in sources[j] ensures !SameMoment(x, m) {
      var i :| 0 <= i < |sources[j]| && sources[j][i] == x;
      if i > 0 {
        SoonerIsAnOrder(sources[k][0], sources[j][0]);
        NotSoonerTransitive(sources[k][0], sources[j][0], x);
      }
      SoonerIsAnOrder(sources[k][0], x);
    }
    AtNone(sources[j], m);
  }

  lemma SoonestOfAll(sources: seq<seq<Found>>, x: Found)
    requires AllInOrder(sources) && Head(sources, 0) < |sources| && x in Concat(sources)
    ensures !Sooner(x, sources[Head(sources, 0)][0])
  {
    HeadIsSoonest(sources, 0);
    ConcatMembers(sources);
    var j :| 0 <= j < |sources| && x in sources[j];
    var i :| 0 <= i < |sources[j]| && sources[j][i] == x;
    if i > 0 {
      NotSoonerTransitive(sources[Head(sources, 0)][0], sources[j][0], x);
    }
  }

  lemma {:induction false} AllEmpty(sources: seq<seq<Found>>)
    requires forall j :: 0 <= j < |sources| ==> sources[j] == []
    ensures Concat(sources) == []
  {
    if sources != [] {
      AllEmpty(sources[1..]);
    }
  }

  lemma {:induction false} AtShows(s: seq<Found>, x: Found)
    ensures x in s <==> x in At(s, x)
  {
    if s != [] {
      AtShows(s[1..], x);
    }
  }

  lemma {:induction false} MergeIsStable(sources: seq<seq<Found>>)
    requires AllInOrder(sources)
    ensures StableSortOf(Merge(sources), Concat(sources))
    decreases Size(sources)
  {
    HeadIsSoonest(sources, 0);
    var k := Head(sources, 0);
    if k == |sources| {
      AllEmpty(sources);
    } else {
      var popped, x := sources[k := sources[k][1..]], sources[k][0];
      PopShrinks(sources, k);
      MergeIsStable(popped);
      var rest := Merge(popped);
      forall m ensures At([x] + rest, m) == At(Concat(sources), m) {
        if SameMoment(x, m) {
          forall j | 0 <= j < k ensures At(sources[j], m) == [] {
            NothingBefore(sources, k, j, m);
          }
        }
        PopKeepsMoments(sources, k, m);
        AtAppend([x], rest, m);
        OneAt(x, m);
      }
      MergeHeadFirst(sources, rest);
    }
  }

  lemma MergeHeadFirst(sources: seq<seq<Found>>, rest: seq<Found>)
    requires AllInOrder(sources) && Head(sources, 0) < |sources| && InOrder(rest)
    requires var x := sources[Head(sources, 0)][0]; forall m :: At([x] + rest, m) == At(Concat(sources), m)
    ensures InOrder([sources[Head(sources, 0)][0]] + rest)
  {
    var x := sources[Head(sources, 0)][0];
    forall j | 0 <= j < |rest| ensures !Sooner(rest[j], x) {
      AtShows([x] + rest, rest[j]);
      AtShows(Concat(sources), rest[j]);
      assert rest[j] in [x] + rest;
      SoonestOfAll(sources, rest[j]);
    }
  }

  function SortEach(polls: seq<seq<Found>>): (r: seq<seq<Found>>)
    ensures |r| == |polls| && forall i :: 0 <= i < |polls| ==> r[i] == Soonest(polls[i])
  {
    seq(|polls|, i requires 0 <= i < |polls| => Soonest(polls[i]))
  }

  lemma {:induction false} SortEachKeepsMoments(polls: seq<seq<Found>>, m: Found)
    ensures At(Concat(SortEach(polls)), m) == At(Concat(polls), m)
  {
    if polls != [] {
      SortEachKeepsMoments(polls[1..], m);
      assert SortEach(polls)[1..] == SortEach(polls[1..]);
      SoonestIsStable(polls[0]);
      AtAppend(Soonest(polls[0]), Concat(SortEach(polls[1..])), m);
      AtAppend(polls[0], Concat(polls[1..]), m);
    }
  }

  /** Merging the sorted polls is sorting them all at once: the order does not depend
      on how the city was cut into plans. */
  lemma MergedPollsAreSortedAtOnce(polls: seq<seq<Found>>)
    ensures Merge(SortEach(polls)) == Soonest(Concat(polls))
  {
    forall i | 0 <= i < |polls| ensures InOrder(SortEach(polls)[i]) {
      SoonestIsStable(polls[i]);
    }
    MergeIsStable(SortEach(polls));
    SoonestIsStable(Concat(polls));
    forall m ensures At(Merge(SortEach(polls)), m) == At(Soonest(Concat(polls)), m) {
      SortEachKeepsMoments(polls, m);
    }
    StableSortIsUnique(Merge(SortEach(polls)), Soonest(Concat(polls)));
  }

  // ---------------------------------------------------------------------
  // The horizon

  function Matching(s: seq<Found>, matches: Found -> bool): seq<Found> {
    if s == [] then []
    else
      var before := Matching(s[..|s| - 1], matches);
      if matches(s[|s| - 1]) then before + [s[|s| - 1]] else before
  }

  function Slots(s: seq<Found>): set<Slot> {
    set f | f in s :: f.slot
  }

  /** The first find of each slot. */
  function Distinct(s: seq<Found>): seq<Found> {
    if s == [] then []
    else
      var before := Distinct(s[..|s| - 1]);
      if s[|s| - 1].slot in Slots(s[..|s| - 1]) then before else before + [s[|s| - 1]]
  }

  function Take(n: nat, s: seq<Found>): seq<Found> {
    s[..Min(n, |s|)]
  }

  /** The soonest distinct matching slots, as far as a cycle looks. */
  function WithinHorizon(polls: seq<seq<Found>>, matches: Found -> bool): seq<Found> {
    Take(MAX_SLOTS_PER_CYCLE, Distinct(Matching(Soonest(Concat(polls)), matches)))
  }

  /** What the subscriber has not been told of. */
  function NewsTo(led: Ledger, sub: Id, g: Granularity): Found -> bool {
    (f: Found) => !Seen(led, sub, KeyOf(g, f.slot))
  }

  lemma MatchingStep(s: seq<Found>, x: Found, matches: Found -> bool)
    ensures Matching(s + [x], matches) == if matches(x) then Matching(s, matches) + [x] else Matching(s, matches)
  {
    assert (s + [x])[..|s|] == s;
  }

  lemma DistinctStep(s: seq<Found>, x: Found)
    ensures Distinct(s + [x]) == if x.slot in Slots(s) then Distinct(s) else Distinct(s) + [x]
    ensures Slots(s + [x]) == Slots(s) + {x.slot}
  {
    assert (s + [x])[..|s|] == s;
  }

  /** What one more find does to what was kept of those before it. */
  lemma {:induction false} OneMoreFind(done: seq<Found>, x: Found, matches: Found -> bool, news: Found -> bool)
    ensures var kept, after := Distinct(Matching(done, matches)), Distinct(Matching(done + [x], matches));
      if matches(x) && x.slot !in Slots(Matching(done, matches)) then
        && after == kept + [x]
        && Slots(Matching(done + [x], matches)) == Slots(Matching(done, matches)) + {x.slot}
        && Matching(after, news) == Matching(kept, news) + (if news(x) then [x] else [])
      else
        && after == kept
        && Slots(Matching(done + [x], matches)) == Slots(Matching(done, matches))
  {
    MatchingStep(done, x, matches);
    DistinctStep(Matching(done, matches), x);
    MatchingStep(Distinct(Matching(done, matches)), x, news);
  }

  /** More polls after the horizon is full change nothing. */
  lemma {:induction false} PrefixDecides(a: seq<Found>, b: seq<Found>, matches: Found -> bool)
    ensures Distinct(Matching(a, matches)) <= Distinct(Matching(a + b, matches))
    decreases |b|
  {
    if b == [] {
      assert a + b == a;
    } else {
      var last := b[|b| - 1];
      PrefixDecides(a, b[..|b| - 1], matches);
      assert a + b == (a + b[..|b| - 1]) + [last];
      MatchingStep(a + b[..|b| - 1], last, matches);
      DistinctStep(Matching(a + b[..|b| - 1], matches), last);
    }
  }

  lemma MergeStep(sources: seq<seq<Found>>)
    requires Head(sources, 0) < |sources|
    ensures var k := Head(sources, 0);
      && Merge(sources) == [sources[k][0]] + Merge(sources[k := sources[k][1..]])
      && Size(sources[k := sources[k][1..]]) < Size(sources)
  {
    PopShrinks(sources, Head(sources, 0));
  }

  method NextSource(sources: seq<seq<Found>>) returns (k: nat)
    ensures k == Head(sources, 0)
  {
    k := |sources|;
    var i := |sources|;
    while i > 0
      invariant 0 <= i <= |sources| && k == Head(sources, i)
    {
      i := i - 1;
      if sources[i] != [] && !(k < |sources| && Sooner(sources[k][0], sources[i][0])) {
        k := i;
      }
    }
  }

  /** The merge's next find, or None when every source is exhausted. */
  method Next(sources: seq<seq<Found>>) returns (found: Option<Found>, left: seq<seq<Found>>)
    ensures Merge(sources) == if found.Some? then [found.value] + Merge(left) else []
    ensures found.Some? ==> Size(left) < Size(sources)
  {
    var k := NextSource(sources);
    if k == |sources| {
      return None, sources;
    }
    MergeStep(sources);
    return Some(sources[k][0]), sources[k := sources[k][1..]];
  }

  /** The loop over the merge, up to the horizon. */
  method Collect(sorted: seq<seq<Found>>, matches: Found -> bool, news: Found -> bool)
    returns (candidates: seq<Found>, matched: nat)
    ensures var distinct := Distinct(Matching(Merge(sorted), matches));
      && candidates == Matching(Take(MAX_SLOTS_PER_CYCLE, distinct), news)
      && matched == Min(MAX_SLOTS_PER_CYCLE, |distinct|)
  {
    ghost var all := Merge(sorted);
    ghost var done: seq<Found> := [];
    candidates, matched := [], 0;
    var seenInCycle: set<Slot> := {};
    var found, sources := Next(sorted);
    ghost var rest := Waiting(found, sources);
    while found.Some? && matched < MAX_SLOTS_PER_CYCLE
      invariant rest == Waiting(found, sources) && all == done + rest
      invariant seenInCycle == Slots(Matching(done, matches))
      invariant matched == |Distinct(Matching(done, matches))| <= MAX_SLOTS_PER_CYCLE
      invariant candidates == Matching(Distinct(Matching(done, matches)), news)
      decreases |rest|
    {
      OneMoreFind(done, found.value, matches, news);
      SplitHead(done, rest);
      done := done + [found.value];
      if matches(found.value) && found.value.slot !in seenInCycle {
        seenInCycle := seenInCycle + {found.value.slot};
        matched := matched + 1;
        if news(found.value) {
          candidates := candidates + [found.value];
        }
      }
      rest := rest[1..];
      found, sources := Next(sources);
    }
    CutAtTheHorizon(done, rest, found.None?, matches);
  }

  lemma SplitHead(done: seq<Found>, rest: seq<Found>)
    requires rest != []
    ensures done + rest == done + [rest[0]] + rest[1..]
  {
  }

  /** The cycle's work for one subscriber: `candidates` is what a digest would carry,
      `matched` what the adaptive interval reads. */
  method Candidates(polls: seq<seq<Found>>, matches: Found -> bool, news: Found -> bool)
    returns (candidates: seq<Found>, matched: nat)
    ensures candidates == Matching(WithinHorizon(polls, matches), news)
    ensures matched == Min(MAX_SLOTS_PER_CYCLE, |Distinct(Matching(Soonest(Concat(polls)), matches))|)
  {
    MergedPollsAreSortedAtOnce(polls);
    candidates, matched := Collect(SortEach(polls), matches, news);
  }

  /** What the merge has still to yield. */
  ghost function Waiting(found: Option<Found>, sources: seq<seq<Found>>): seq<Found> {
    if found.Some? then [found.value] + Merge(sources) else []
  }

  /** Where the loop stops, it has seen enough. */
  lemma CutAtTheHorizon(done: seq<Found>, rest: seq<Found>, exhausted: bool, matches: Found -> bool)
    requires exhausted ==> rest == []
    requires var n := |Distinct(Matching(done, matches))|;
        n <= MAX_SLOTS_PER_CYCLE && (exhausted || n == MAX_SLOTS_PER_CYCLE)
    ensures var all := Distinct(Matching(done + rest, matches));
      && Take(MAX_SLOTS_PER_CYCLE, all) == Distinct(Matching(done, matches))
      && Min(MAX_SLOTS_PER_CYCLE, |all|) == |Distinct(Matching(done, matches))|
  {
    PrefixDecides(done, rest, matches);
    assert rest == [] ==> done + rest == done;
  }

  // ---------------------------------------------------------------------
  // What the horizon holds

  lemma {:induction false} DistinctIs(s: seq<Found>)
    ensures Slots(Distinct(s)) == Slots(s)
    ensures forall i, j :: 0 <= i < j < |Distinct(s)| ==> Distinct(s)[i].slot != Distinct(s)[j].slot
  {
    if s != [] {
      var t, x := s[..|s| - 1], s[|s| - 1];
      assert s == t + [x];
      DistinctIs(t);
      DistinctStep(t, x);
      assert forall i :: 0 <= i < |Distinct(t)| ==> Distinct(t)[i].slot in Slots(Distinct(t));
      assert Slots(Distinct(t) + [x]) == Slots(Distinct(t)) + {x.slot};
    }
  }

  lemma {:induction false} NothingMatches(s: seq<Found>, matches: Found -> bool)
    requires forall x :: x in s ==> !matches(x)
    ensures Matching(s, matches) == []
  {
    if s != [] {
      NothingMatches(s[..|s| - 1], matches);
    }
  }

  lemma {:induction false} MatchingIs(s: seq<Found>, matches: Found -> bool)
    ensures forall x :: x in Matching(s, matches) <==> x in s && matches(x)
  {
    if s != [] {
      assert s == s[..|s| - 1] + [s[|s| - 1]];
      MatchingIs(s[..|s| - 1], matches);
    }
  }

  lemma LastInOrder(r: seq<Found>, s: seq<Found>)
    requires s != [] && InOrder(s) && InOrder(r) && forall y :: y in r ==> y in s[..|s| - 1]
    ensures InOrder(r + [s[|s| - 1]])
  {
    forall i | 0 <= i < |r| ensures !Sooner(s[|s| - 1], r[i]) {
      var y := r[i];
      assert y in r;
      var k :| 0 <= k < |s| - 1 && s[..|s| - 1][k] == y;
      assert s[k] == y;
    }
  }

  lemma {:induction false} MatchingInOrder(s: seq<Found>, matches: Found -> bool)
    requires InOrder(s)
    ensures InOrder(Matching(s, matches))
  {
    if s != [] {
      MatchingInOrder(s[..|s| - 1], matches);
      MatchingIs(s[..|s| - 1], matches);
      LastInOrder(Matching(s[..|s| - 1], matches), s);
    }
  }

  lemma {:induction false} DistinctInOrder(s: seq<Found>)
    requires InOrder(s)
    ensures InOrder(Distinct(s)) && forall x :: x in Distinct(s) ==> x in s
  {
    if s != [] {
      DistinctInOrder(s[..|s| - 1]);
      LastInOrder(Distinct(s[..|s| - 1]), s);
    }
  }

  lemma InTake(s: seq<Found>, n: nat, j: nat)
    requires j < n <= |s|
    ensures s[j].slot in Slots(s[..n])
  {
    assert s[..n][j] == s[j];
  }

  /** A digest tells only matching slots nobody was told of, each once, and a
      matching slot left out lies at or past every slot the horizon holds. */
  lemma OnlyLaterSlotsAreLeftOut(polls: seq<seq<Found>>, matches: Found -> bool, x: Found, y: Found)
    requires x in WithinHorizon(polls, matches)
    requires y in Concat(polls) && matches(y) && y.slot !in Slots(WithinHorizon(polls, matches))
    ensures !Sooner(y, x) && |WithinHorizon(polls, matches)| == MAX_SLOTS_PER_CYCLE
  {
    var all := Soonest(Concat(polls));
    var kept := Distinct(Matching(all, matches));
    SoonestIsStable(Concat(polls));
    AtShows(all, y);
    AtShows(Concat(polls), y);
    MatchingIs(all, matches);
    DistinctIs(Matching(all, matches));
    MatchingInOrder(all, matches);
    DistinctInOrder(Matching(all, matches));
    var n: nat := Min(MAX_SLOTS_PER_CYCLE, |kept|);
    assert y.slot in Slots(Matching(all, matches));
    var z :| z in kept && z.slot == y.slot;
    var j: nat :| j < |kept| && kept[j] == z;
    var i :| 0 <= i < n && kept[..n][i] == x;
    if j < n {
      InTake(kept, n, j);
    }
    SameSlotSameMoment(y, z, x);
  }

  lemma SameSlotSameMoment(y: Found, z: Found, x: Found)
    requires y.slot == z.slot
    ensures Sooner(y, x) == Sooner(z, x)
  {
  }

  lemma {:induction false} DistinctCount(s: seq<Found>)
    ensures |Distinct(s)| == |Slots(s)|
  {
    if s != [] {
      DistinctCount(s[..|s| - 1]);
      assert s == s[..|s| - 1] + [s[|s| - 1]];
      DistinctStep(s[..|s| - 1], s[|s| - 1]);
    }
  }

  function MatchingSlots(polls: seq<seq<Found>>, matches: Found -> bool): set<Slot> {
    set x | x in Concat(polls) && matches(x) :: x.slot
  }

  lemma SlotsOfMatching(polls: seq<seq<Found>>, matches: Found -> bool)
    ensures Slots(Matching(Soonest(Concat(polls)), matches)) == MatchingSlots(polls, matches)
  {
    var all := Soonest(Concat(polls));
    SoonestIsStable(Concat(polls));
    MatchingIs(all, matches);
    forall x ensures x in all <==> x in Concat(polls) {
      AtShows(all, x);
      AtShows(Concat(polls), x);
    }
  }

  /** What the horizon holds: matching slots of the polls, each once, soonest first, and as
      many of them as there are, up to fifty. */
  lemma WhatTheHorizonHolds(polls: seq<seq<Found>>, matches: Found -> bool)
    ensures var h := WithinHorizon(polls, matches);
      && InOrder(h) && (forall x :: x in h ==> x in Concat(polls) && matches(x))
      && (forall i, j :: 0 <= i < j < |h| ==> h[i].slot != h[j].slot)
      && |h| == if |MatchingSlots(polls, matches)| <= 50 then |MatchingSlots(polls, matches)| else 50
  {
    var all := Soonest(Concat(polls));
    var kept := Distinct(Matching(all, matches));
    SoonestIsStable(Concat(polls));
    MatchingIs(all, matches);
    DistinctIs(Matching(all, matches));
    MatchingInOrder(all, matches);
    DistinctInOrder(Matching(all, matches));
    DistinctCount(Matching(all, matches));
    SlotsOfMatching(polls, matches);
    forall x | x in WithinHorizon(polls, matches) ensures x in Concat(polls) && matches(x) {
      assert x in kept;
      AtShows(all, x);
      AtShows(Concat(polls), x);
    }
  }

  // Of the finds of one slot the first is kept.

  /** The matching finds of one slot, in their order. */
  function FindsOf(s: seq<Found>, slot: Slot, matches: Found -> bool): seq<Found> {
    if s == [] then []
    else if s[0].slot == slot && matches(s[0]) then [s[0]] + FindsOf(s[1..], slot, matches)
    else FindsOf(s[1..], slot, matches)
  }

  lemma {:induction false} FindsOfMoment(s: seq<Found>, m: Found, matches: Found -> bool)
    ensures FindsOf(s, m.slot, matches) == FindsOf(At(s, m), m.slot, matches)
  {
    if s != [] {
      FindsOfMoment(s[1..], m, matches);
      if SameMoment(s[0], m) {
        assert ([s[0]] + At(s[1..], m))[1..] == At(s[1..], m);
      }
    }
  }

  lemma {:induction false} FindsOfMore(s: seq<Found>, x: Found, slot: Slot, matches: Found -> bool)
    ensures FindsOf(s + [x], slot, matches) ==
              FindsOf(s, slot, matches) + if x.slot == slot && matches(x) then [x] else []
  {
    if s == [] {
      assert [x][1..] == [] && [] + [x] == [x];
    } else {
      assert (s + [x])[1..] == s[1..] + [x];
      FindsOfMore(s[1..], x, slot, matches);
    }
  }

  lemma {:induction false} FirstFindIsKept(s: seq<Found>, matches: Found -> bool, x: Found)
    requires x in Distinct(Matching(s, matches))
    ensures FindsOf(s, x.slot, matches) != [] && FindsOf(s, x.slot, matches)[0] == x
  {
    if s != [] {
      var before, last := s[..|s| - 1], s[|s| - 1];
      assert s == before + [last];
      MatchingStep(before, last, matches);
      FindsOfMore(before, last, x.slot, matches);
      DistinctStep(Matching(before, matches), last);
      if x in Distinct(Matching(before, matches)) {
        FirstFindIsKept(before, matches, x);
      } else {
        NoFinds(before, x.slot, matches);
      }
    }
  }

  lemma {:induction false} NoFinds(s: seq<Found>, slot: Slot, matches: Found -> bool)
    requires slot !in Slots(Matching(s, matches))
    ensures FindsOf(s, slot, matches) == []
  {
    if s != [] {
      var before, last := s[..|s| - 1], s[|s| - 1];
      assert s == before + [last];
      MatchingStep(before, last, matches);
      DistinctStep(Matching(before, matches), last);
      FindsOfMore(before, last, slot, matches);
      NoFinds(before, slot, matches);
    }
  }

  /** Of several finds of a slot the horizon holds the first one of the polls. */
  lemma TheFirstFindIsTold(polls: seq<seq<Found>>, matches: Found -> bool, x: Found)
    requires x in WithinHorizon(polls, matches)
    ensures var finds := FindsOf(Concat(polls), x.slot, matches); finds != [] && finds[0] == x
  {
    var all := Soonest(Concat(polls));
    SoonestIsStable(Concat(polls));
    assert x in Distinct(Matching(all, matches));
    FirstFindIsKept(all, matches, x);
    FindsOfMoment(all, x, matches);
    FindsOfMoment(Concat(polls), x, matches);
  }

  /** So once delivered, nothing of it is news in the next cycle. */
  lemma WhatWasToldIsNotNews(polls: seq<seq<Found>>, matches: Found -> bool, led: Ledger, sub: Id, g: Granularity,
                             told: seq<Slot>, now: int)
    requires forall x :: x in Matching(WithinHorizon(polls, matches), NewsTo(led, sub, g)) ==> x.slot in told
    ensures Matching(WithinHorizon(polls, matches), NewsTo(Told(led, sub, g, told, now), sub, g)) == []
  {
    var s, after := WithinHorizon(polls, matches), Told(led, sub, g, told, now);
    MatchingIs(s, NewsTo(led, sub, g));
    forall x | x in s ensures !NewsTo(after, sub, g)(x) {
      if Seen(led, sub, KeyOf(g, x.slot)) {
        SeenStaysAll(led, sub, KeyOf(g, x.slot), sub, KeysOf(g, told), now);
      } else {
        assert NewsTo(led, sub, g)(x);
        ADigestIsToldOnce(led, sub, g, told, x.slot, now);
      }
    }
    NothingMatches(s, NewsTo(after, sub, g));
  }
}
