/** How soon a subscriber may hear again (`adaptive_rate_limit_minutes`, `run_cycle` in app/cycle.py). */
module Cadence {
  import opened Common

  // The more a filter matches, and the longer digests have come in an unbroken run, the
  // longer the wait.

  /** Thresholds and multipliers; past the last one the maximum holds. */
  const ABUNDANCE_LADDER := [(2, 1), (5, 2), (15, 4)]
  const STREAK_LADDER := [(1, 1), (2, 2), (3, 4)]
  const MAX_MULTIPLIER := 8
  const QUIET_FACTOR := 2
  const MINUTE := 60

  function Rung(ladder: seq<(int, int)>, value: int): int {
    if ladder == [] then MAX_MULTIPLIER
    else if value <= ladder[0].0 then ladder[0].1
    else Rung(ladder[1..], value)
  }

  /** Minutes between digests. `matched` is None until the first one was measured. */
  function Gap(base: nat, matched: Option<nat>, streak: int, maxMultiplier: int): nat {
    var abundance := if matched.None? then 1 else Rung(ABUNDANCE_LADDER, matched.value);
    var flow := Rung(STREAK_LADDER, Max(0, streak));
    LaddersClimb(if matched.Some? then matched.value else 0, Max(0, streak));
    base * Min(Max(abundance, flow), Max(1, maxMultiplier))
  }

  lemma LaddersClimb(matched: int, streak: int)
    ensures 1 <= Rung(ABUNDANCE_LADDER, matched) <= MAX_MULTIPLIER && 1 <= Rung(STREAK_LADDER, streak) <= MAX_MULTIPLIER
    ensures Rung(ABUNDANCE_LADDER, matched)
        == (if matched <= 2 then 1 else if matched <= 5 then 2 else if matched <= 15 then 4 else 8)
    ensures Rung(STREAK_LADDER, streak)
        == (if streak <= 1 then 1 else if streak <= 2 then 2 else if streak <= 3 then 4 else 8)
  {
    ThreeRungs((2, 1), (5, 2), (15, 4), matched);
    ThreeRungs((1, 1), (2, 2), (3, 4), streak);
  }

  lemma ThreeRungs(a: (int, int), b: (int, int), c: (int, int), value: int)
    ensures Rung([a, b, c], value) ==
              if value <= a.0 then a.1 else if value <= b.0 then b.1 else if value <= c.0 then c.1 else MAX_MULTIPLIER
  {
    assert [a, b, c][1..] == [b, c] && [b, c][1..] == [c] && [c][1..] == [];
    assert Rung([c], value) == if value <= c.0 then c.1 else Rung([], value);
    assert Rung([b, c], value) == if value <= b.0 then b.1 else Rung([c], value);
  }

  lemma Times(base: nat, a: nat, b: nat)
    requires a <= b
    ensures base * a <= base * b
  {
  }

  /** The base is a floor, eight times it a ceiling, more matches or a longer run never
      shorten the wait, and a maximum of one switches the ladders off. */
  lemma GapIsAFloorThatClimbs(base: nat, matched: nat, more: nat, streak: nat, longer: nat, maxMultiplier: int)
    requires matched <= more && streak <= longer
    ensures base <= Gap(base, Some(matched), streak, maxMultiplier) <= Gap(base, Some(more), longer, maxMultiplier)
    ensures Gap(base, Some(more), longer, maxMultiplier) <= base * Min(MAX_MULTIPLIER, Max(1, maxMultiplier))
    ensures Gap(base, None, streak, maxMultiplier) <= Gap(base, Some(matched), streak, maxMultiplier)
    ensures maxMultiplier <= 1 ==> Gap(base, Some(matched), streak, maxMultiplier) == base
  {
    LaddersClimb(matched, streak);
    LaddersClimb(more, longer);
    var top := Max(1, maxMultiplier);
    var low := Min(Max(Rung(ABUNDANCE_LADDER, matched), Rung(STREAK_LADDER, streak)), top);
    var high := Min(Max(Rung(ABUNDANCE_LADDER, more), Rung(STREAK_LADDER, longer)), top);
    Times(base, 1, low);
    Times(base, low, high);
    Times(base, high, Min(MAX_MULTIPLIER, top));
    Times(base, Min(Rung(STREAK_LADDER, streak), top), low);
  }

  // ---------------------------------------------------------------------
  // A subscriber's cycles

  /** What the row remembers: the last digest, what it matched, and the unbroken run. */
  datatype Subscriber = Subscriber(last: Option<int>, matched: Option<nat>, streak: nat)

  datatype Config = Config(base: nat, maxMultiplier: int)

  function GapOf(cfg: Config, s: Subscriber): nat {
    Gap(cfg.base, s.matched, s.streak, cfg.maxMultiplier)
  }

  /** A run is over once the silence is twice the gap its last digest earned. */
  function Settled(cfg: Config, s: Subscriber, now: int): Subscriber {
    if s.streak > 0 && s.last.Some? && GapOf(cfg, s) != 0 && s.last.value <= now - MINUTE * GapOf(cfg, s) * QUIET_FACTOR
    then s.(streak := 0) else s
  }

  predicate Due(cfg: Config, s: Subscriber, now: int) {
    s.last.None? || s.last.value <= now - MINUTE * GapOf(cfg, s)
  }

  /** A cycle looks at the subscriber at `at`; if a digest is due and goes out, it is
      recorded at `sent`, and the filter may have been edited `meanwhile`. Or the filter
      is edited between cycles. */
  datatype Event = Cycle(at: int, sent: Option<int>, matched: Option<nat>, meanwhile: bool) | Edit(at: int)

  function Told(s: Subscriber, sent: int, matched: Option<nat>): Subscriber {
    Subscriber(Some(sent), if matched.Some? then matched else s.matched, s.streak + 1)
  }

  /** Both signals were measured against the old filter, and go with it. */
  function Edited(s: Subscriber): Subscriber {
    s.(matched := None, streak := 0)
  }

  /** A digest, the gap its record earned, and whether the filter was edited since. */
  datatype Digest = Digest(at: int, earned: nat, edited: bool)

  /** The row, and every digest so far. */
  datatype State = State(s: Subscriber, digests: seq<Digest>)

  predicate Sends(cfg: Config, s: Subscriber, e: Event) {
    e.Cycle? && e.sent.Some? && Due(cfg, Settled(cfg, s, e.at), e.at)
  }

  function Step(cfg: Config, st: State, e: Event): State {
    match e
    case Edit(_) =>
      var n := |st.digests|;
      State(Edited(st.s), if n == 0 then [] else st.digests[n - 1 := st.digests[n - 1].(edited := true)])
    case Cycle(at, sent, matched, meanwhile) =>
      var settled := Settled(cfg, st.s, at);
      if !Sends(cfg, st.s, e) then st.(s := settled)
      else
        var told := Told(if meanwhile then Edited(settled) else settled, sent.value, matched);
        State(told, st.digests + [Digest(sent.value, GapOf(cfg, told), false)])
  }

  function Run(cfg: Config, st: State, events: seq<Event>): State
    decreases |events|
  {
    if events == [] then st else Run(cfg, Step(cfg, st, events[0]), events[1..])
  }

  function Ends(cfg: Config, s: Subscriber, e: Event): int {
    if Sends(cfg, s, e) then e.sent.value else e.at
  }

  /** Events follow one another, and nothing is recorded before its cycle began. */
  predicate InOrder(cfg: Config, st: State, events: seq<Event>, since: int)
    decreases |events|
  {
    events != [] ==>
      && since <= events[0].at <= Ends(cfg, st.s, events[0])
      && InOrder(cfg, Step(cfg, st, events[0]), events[1..], Ends(cfg, st.s, events[0]))
  }

  /** A digest waits out the base after the one before it, and what that one earned
      unless the filter was edited in between. */
  predicate WaitsOut(cfg: Config, before: Digest, next: int) {
    && next - before.at >= MINUTE * cfg.base
    && (!before.edited ==> next - before.at >= MINUTE * before.earned)
  }

  predicate AllWaitOut(cfg: Config, digests: seq<Digest>) {
    forall i :: 0 <= i < |digests| - 1 ==> WaitsOut(cfg, digests[i], digests[i + 1].at)
  }

  /** The row remembers the last digest. Until an edit it holds the gap that one earned,
      or the run was ended when the gap had passed. */
  predicate Remembers(cfg: Config, st: State, now: int) {
    st.digests != [] ==>
      var last := st.digests[|st.digests| - 1];
      && st.s.last == Some(last.at)
      && (last.edited || GapOf(cfg, st.s) == last.earned || last.at + MINUTE * last.earned <= now)
  }

  lemma StepRemembers(cfg: Config, st: State, e: Event, since: int)
    requires Remembers(cfg, st, since) && since <= e.at <= Ends(cfg, st.s, e)
    ensures Remembers(cfg, Step(cfg, st, e), Ends(cfg, st.s, e))
  {
    if e.Cycle? && Settled(cfg, st.s, e.at) != st.s {
      QuietMeansTheGapIsOver(cfg, st.s, e.at);
    }
  }

  lemma StepWaitsOut(cfg: Config, st: State, e: Event, since: int)
    requires Remembers(cfg, st, since) && AllWaitOut(cfg, st.digests) && since <= e.at <= Ends(cfg, st.s, e)
    ensures AllWaitOut(cfg, Step(cfg, st, e).digests)
  {
    if Sends(cfg, st.s, e) && st.digests != [] {
      var last := st.digests[|st.digests| - 1];
      var settled := Settled(cfg, st.s, e.at);
      BaseIsTheFloor(cfg, settled);
      if settled != st.s {
        QuietMeansTheGapIsOver(cfg, st.s, e.at);
      }
      assert WaitsOut(cfg, last, e.sent.value);
    }
  }

  lemma {:induction false} RunWaitsOut(cfg: Config, st: State, events: seq<Event>, since: int)
    requires Remembers(cfg, st, since) && AllWaitOut(cfg, st.digests) && InOrder(cfg, st, events, since)
    ensures AllWaitOut(cfg, Run(cfg, st, events).digests)
    decreases |events|
  {
    if events != [] {
      StepRemembers(cfg, st, events[0], since);
      StepWaitsOut(cfg, st, events[0], since);
      RunWaitsOut(cfg, Step(cfg, st, events[0]), events[1..], Ends(cfg, st.s, events[0]));
    }
  }

  /** Over any run of cycles and edits two digests in a row lie at least the base apart,
      and at least the gap the first of them earned if the filter was not edited in
      between, whether its run was ended or not. */
  lemma EveryDigestWaitsOutItsGap(cfg: Config, s: Subscriber, events: seq<Event>, since: int)
    requires InOrder(cfg, State(s, []), events, since)
    ensures var digests := Run(cfg, State(s, []), events).digests;
      forall i :: 0 <= i < |digests| - 1 ==>
        && digests[i + 1].at - digests[i].at >= MINUTE * cfg.base
        && (!digests[i].edited ==> digests[i + 1].at - digests[i].at >= MINUTE * digests[i].earned)
  {
    RunWaitsOut(cfg, State(s, []), events, since);
    var digests := Run(cfg, State(s, []), events).digests;
    assert forall i :: 0 <= i < |digests| - 1 ==> WaitsOut(cfg, digests[i], digests[i + 1].at);
  }

  /** After an edit it is the base exactly, whatever the last digest earned. */
  lemma AnEditedFilterWaitsOutTheBase(cfg: Config, s: Subscriber, now: int)
    ensures Due(cfg, Settled(cfg, Edited(s), now), now) <==> s.last.None? || now - s.last.value >= MINUTE * cfg.base
  {
    LaddersClimb(0, 0);
  }

  /** So an edit brings the next digest forward whenever the last one earned more than
      the base: whatever a newcomer's first digest matched, the second can go out the
      base later. Fifty matches earn eight times that. */
  lemma AnEditBringsTheNextForward(cfg: Config, t: int, matched: nat, edit: int)
    requires t <= edit <= t + MINUTE * cfg.base
    ensures var newcomer, later := State(Subscriber(None, None, 0), []), t + MINUTE * cfg.base;
            var events := [Cycle(t, Some(t), Some(matched), false), Edit(edit), Cycle(later, Some(later), None, false)];
            var digests := Run(cfg, newcomer, events).digests;
      && InOrder(cfg, newcomer, events, t)
      && |digests| == 2 && digests[1].at - digests[0].at == MINUTE * cfg.base
      && digests[0] == Digest(t, Gap(cfg.base, Some(matched), 1, cfg.maxMultiplier), true)
    ensures Gap(cfg.base, Some(50), 1, MAX_MULTIPLIER) == MAX_MULTIPLIER * cfg.base
  {
    var newcomer, later := State(Subscriber(None, None, 0), []), t + MINUTE * cfg.base;
    var first, next := Cycle(t, Some(t), Some(matched), false), Cycle(later, Some(later), None, false);
    var told := Step(cfg, newcomer, first);
    var edited := Step(cfg, told, Edit(edit));
    AnEditedFilterWaitsOutTheBase(cfg, told.s, later);
    assert [first, Edit(edit), next][1..] == [Edit(edit), next] && [Edit(edit), next][1..] == [next];
    assert Sends(cfg, edited.s, next) && InOrder(cfg, edited, [next], edit);
    assert Run(cfg, edited, [next]) == Step(cfg, edited, next);
    assert InOrder(cfg, told, [Edit(edit), next], t) && Run(cfg, told, [Edit(edit), next]) == Step(cfg, edited, next);
    LaddersClimb(50, 1);
  }

  lemma BaseIsTheFloor(cfg: Config, s: Subscriber)
    ensures GapOf(cfg, s) >= cfg.base
  {
    LaddersClimb(if s.matched.Some? then s.matched.value else 0, s.streak);
    var abundance := if s.matched.None? then 1 else Rung(ABUNDANCE_LADDER, s.matched.value);
    Times(cfg.base, 1, Min(Max(abundance, Rung(STREAK_LADDER, s.streak)), Max(1, cfg.maxMultiplier)));
  }

  lemma QuietMeansTheGapIsOver(cfg: Config, s: Subscriber, now: int)
    requires Settled(cfg, s, now) != s
    ensures s.last.Some? && s.last.value + MINUTE * GapOf(cfg, s) <= now
  {
  }

  // ---------------------------------------------------------------------
  // A cycle in plain numbers

  /** Minutes a digest earns: once to eight times the base, for what it matched or for the
      length of its run, whichever is more, up to the configured maximum. */
  function Earned(cfg: Config, matched: Option<nat>, streak: nat): nat {
    var forMatches := if matched.None? || matched.value <= 2 then 1
                      else if matched.value <= 5 then 2 else if matched.value <= 15 then 4 else 8;
    var forTheRun := if streak <= 1 then 1 else if streak == 2 then 2 else if streak == 3 then 4 else 8;
    var more := if forMatches >= forTheRun then forMatches else forTheRun;
    cfg.base * if more <= cfg.maxMultiplier then more else if cfg.maxMultiplier >= 1 then cfg.maxMultiplier else 1
  }

  lemma EarnedIsTheGap(cfg: Config, s: Subscriber)
    ensures GapOf(cfg, s) == Earned(cfg, s.matched, s.streak)
  {
    LaddersClimb(if s.matched.Some? then s.matched.value else 0, s.streak);
  }

  /** A silence of twice the gap its last digest earned ends a run. */
  predicate SilenceEnds(cfg: Config, s: Subscriber, at: int) {
    && s.streak > 0 && s.last.Some? && Earned(cfg, s.matched, s.streak) > 0
    && at - s.last.value >= 2 * 60 * Earned(cfg, s.matched, s.streak)
  }

  /** What a cycle does. A silence of twice the earned gap ends the run, and nothing
      shorter does. A digest may go out to a newcomer at once, to anyone else once the gap
      earned is over; it is remembered with the time it was sent and what it matched, as
      one more of the run, which starts over if the filter was edited meanwhile. */
  lemma WhatACycleDoes(cfg: Config, st: State, at: int, sent: Option<int>, matched: Option<nat>, meanwhile: bool)
    ensures var s, after := st.s, Step(cfg, st, Cycle(at, sent, matched, meanwhile));
      var streak := if SilenceEnds(cfg, s, at) then 0 else s.streak;
      if sent.Some? && (s.last.Some? ==> at - s.last.value >= 60 * Earned(cfg, s.matched, streak)) then
        && after.s.last == sent && after.s.streak == (if meanwhile then 1 else streak + 1)
        && after.s.matched == (if matched.Some? then matched else if meanwhile then None else s.matched)
        && after.digests ==
             st.digests + [Digest(sent.value, Earned(cfg, after.s.matched, after.s.streak), false)]
      else after == st.(s := s.(streak := streak))
  {
    EarnedIsTheGap(cfg, st.s);
    EarnedIsTheGap(cfg, Settled(cfg, st.s, at));
    EarnedIsTheGap(cfg, Step(cfg, st, Cycle(at, sent, matched, meanwhile)).s);
  }
}
