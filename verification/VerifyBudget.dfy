/** How often one push token may be sent a verification push (`token_verify_wait` and
    `record_verify_attempts` of app/repo.py). */
module VerifyBudget {
  import opened Common
  import opened Devices

  /** A row of verify_attempts, for one token: an attempt the relay answered. */
  datatype Attempt = Attempt(kind: Kind, config: string, credited: bool, at: int)

  const MAX_PER_KIND := 5
  const MAX_PER_TOKEN := 20

  /** Ages of the day's attempts that count, newest first, as the query returns them. */
  function Ages(log: seq<Attempt>, now: int, counts: Attempt -> bool): (ages: seq<int>)
    ensures forall i :: 0 <= i < |ages| ==> ages[i] < DAY
  {
    if log == [] then []
    else
      var older := Ages(log[..|log| - 1], now, counts);
      var a := log[|log| - 1];
      if a.at > now - DAY && counts(a) then [now - a.at] + older else older
  }

  /** When the window has room again: once the attempt that filled it ages out. */
  function Frees(ages: seq<int>, limit: nat): int
    requires limit > 0
  {
    if |ages| >= limit then Max(1, DAY - ages[limit - 1]) else 0
  }

  function Any(): Attempt -> bool {
    (a: Attempt) => true
  }

  function Credited(kind: Kind): Attempt -> bool {
    (a: Attempt) => a.credited && a.kind == kind
  }

  /** A refusal without evidence counts only while the platform's settings are the
      ones it was made under. */
  function Counted(config: Option<string>): Attempt -> bool {
    (a: Attempt) => a.credited || config.None? || a.config == config.value
  }

  /** `token_verify_wait`: seconds until the token may be sent another one; the log is
      in order of time. */
  function Wait(log: seq<Attempt>, now: int, kind: Kind, config: Option<string>): int {
    var ages := Ages(log, now, Any());
    var minute := if ages != [] then Max(0, MINUTE - ages[0]) else 0;
    Max(minute, Max(Frees(Ages(log, now, Credited(kind)), MAX_PER_KIND),
                    Frees(Ages(log, now, Counted(config)), MAX_PER_TOKEN)))
  }

  // ---------------------------------------------------------------------
  // Attempts inside a window

  /** Attempts that count with `since < at`. */
  function Inside(log: seq<Attempt>, since: int, counts: Attempt -> bool): nat {
    if log == [] then 0
    else
      var a := log[|log| - 1];
      Inside(log[..|log| - 1], since, counts) + (if a.at > since && counts(a) then 1 else 0)
  }

  /** Attempts that count with `since < at <= upTo`. */
  function Between(log: seq<Attempt>, since: int, upTo: int, counts: Attempt -> bool): nat {
    if log == [] then 0
    else
      var a := log[|log| - 1];
      Between(log[..|log| - 1], since, upTo, counts) + (if since < a.at <= upTo && counts(a) then 1 else 0)
  }

  predicate InTime(log: seq<Attempt>, now: int) {
    && (forall i, j :: 0 <= i < j < |log| ==> log[i].at <= log[j].at)
    && (forall i :: 0 <= i < |log| ==> log[i].at <= now)
  }

  lemma {:induction false} AgesCount(log: seq<Attempt>, now: int, counts: Attempt -> bool)
    ensures |Ages(log, now, counts)| == Inside(log, now - DAY, counts)
  {
    if log != [] {
      AgesCount(log[..|log| - 1], now, counts);
    }
  }

  /** A window has room exactly when fewer than the limit lie in the last day. */
  lemma FreesIsExact(log: seq<Attempt>, now: int, counts: Attempt -> bool, limit: nat)
    requires limit > 0
    ensures Frees(Ages(log, now, counts), limit) <= 0 <==> Inside(log, now - DAY, counts) < limit
  {
    AgesCount(log, now, counts);
  }

  /** Waiting is over exactly when the token's minute, its kind's daily budget and its
      daily ceiling all have room. */
  lemma WaitIsExact(log: seq<Attempt>, now: int, kind: Kind, config: Option<string>)
    requires InTime(log, now)
    ensures Wait(log, now, kind, config) <= 0 <==>
              && (forall i :: 0 <= i < |log| ==> log[i].at <= now - MINUTE)
              && Inside(log, now - DAY, Credited(kind)) < MAX_PER_KIND
              && Inside(log, now - DAY, Counted(config)) < MAX_PER_TOKEN
  {
    FreesIsExact(log, now, Credited(kind), MAX_PER_KIND);
    FreesIsExact(log, now, Counted(config), MAX_PER_TOKEN);
    MinuteIsExact(log, now);
  }

  lemma MinuteIsExact(log: seq<Attempt>, now: int)
    requires InTime(log, now)
    ensures var ages := Ages(log, now, Any());
      (ages == [] || ages[0] >= MINUTE) <==> forall i :: 0 <= i < |log| ==> log[i].at <= now - MINUTE
  {
    if log != [] {
      var last := log[|log| - 1];
      if last.at <= now - DAY {
        NothingRecent(log, now, Any());
      }
    }
  }

  lemma {:induction false} NothingRecent(log: seq<Attempt>, now: int, counts: Attempt -> bool)
    requires forall i :: 0 <= i < |log| ==> log[i].at <= now - DAY
    ensures Ages(log, now, counts) == []
  {
    if log != [] {
      NothingRecent(log[..|log| - 1], now, counts);
    }
  }

  // ---------------------------------------------------------------------
  // Exact: the wait runs down by itself

  /** As time passes, the oldest ages fall out and the others grow. */
  lemma {:induction false} AgesLater(log: seq<Attempt>, now: int, d: nat, counts: Attempt -> bool)
    requires InTime(log, now)
    ensures var before, after := Ages(log, now, counts), Ages(log, now + d, counts);
      && |after| <= |before|
      && (forall i :: 0 <= i < |after| ==> after[i] == before[i] + d)
      && (forall i :: |after| <= i < |before| ==> before[i] + d >= DAY)
  {
    if log != [] {
      var rest, a := log[..|log| - 1], log[|log| - 1];
      AgesLater(rest, now, d, counts);
      if a.at <= now + d - DAY {
        LaterNothing(rest, now, d, counts);
      }
    }
  }

  lemma LaterNothing(log: seq<Attempt>, now: int, d: nat, counts: Attempt -> bool)
    requires InTime(log, now)
    ensures (forall i :: 0 <= i < |log| ==> log[i].at <= now + d - DAY) ==> Ages(log, now + d, counts) == []
  {
    if forall i :: 0 <= i < |log| ==> log[i].at <= now + d - DAY {
      NothingRecent(log, now + d, counts);
    }
  }

  lemma FreesLater(log: seq<Attempt>, now: int, d: nat, counts: Attempt -> bool, limit: nat)
    requires InTime(log, now) && limit > 0
    ensures Frees(Ages(log, now + d, counts), limit) == Max(0, Frees(Ages(log, now, counts), limit) - d)
  {
    AgesLater(log, now, d, counts);
  }

  /** With no new attempt the wait told at t is, d seconds later, d seconds less:
      nobody who waits it out is told to wait again. */
  lemma TheWaitRunsDown(log: seq<Attempt>, now: int, d: nat, kind: Kind, config: Option<string>)
    requires InTime(log, now)
    ensures Wait(log, now + d, kind, config) == Max(0, Wait(log, now, kind, config) - d)
  {
    FreesLater(log, now, d, Credited(kind), MAX_PER_KIND);
    FreesLater(log, now, d, Counted(config), MAX_PER_TOKEN);
    AgesLater(log, now, d, Any());
  }

  // ---------------------------------------------------------------------
  // Sound: no window ever holds more

  /** Attempts that count in the day up to t. */
  function InDay(log: seq<Attempt>, t: int, counts: Attempt -> bool): nat {
    Between(log, t - DAY, t, counts)
  }

  ghost predicate WithinBudget(log: seq<Attempt>, counts: Attempt -> bool, limit: nat) {
    forall t: int :: InDay(log, t, counts) <= limit
  }

  lemma {:induction false} NoMoreThanInside(log: seq<Attempt>, since: int, from: int, upTo: int,
                                            counts: Attempt -> bool)
    requires since <= from
    ensures Between(log, from, upTo, counts) <= Inside(log, since, counts)
  {
    if log != [] {
      NoMoreThanInside(log[..|log| - 1], since, from, upTo, counts);
    }
  }

  lemma OneMoreAttempt(log: seq<Attempt>, a: Attempt, counts: Attempt -> bool, limit: nat)
    requires WithinBudget(log, counts, limit)
    requires counts(a) ==> Inside(log, a.at - DAY, counts) < limit
    ensures WithinBudget(log + [a], counts, limit)
  {
    assert (log + [a])[..|log|] == log;
    forall t: int ensures InDay(log + [a], t, counts) <= limit {
      assert InDay(log, t, counts) <= limit;
      if a.at <= t {
        NoMoreThanInside(log, a.at - DAY, t - DAY, t, counts);
      }
    }
  }

  /** A token's attempts when looking up the wait and recording the answer are one
      step, under settings that stay as they are. */
  predicate Attempted(log: seq<Attempt>, config: string)
    decreases |log|
  {
    log != [] ==>
      var before, a := log[..|log| - 1], log[|log| - 1];
      && Attempted(before, config)
      && a.config == config && InTime(log, a.at)
      && Wait(before, a.at, a.kind, Some(config)) <= 0
  }

  ghost predicate Budgeted(log: seq<Attempt>) {
    && WithinBudget(log, Credited(Owner), MAX_PER_KIND)
    && WithinBudget(log, Credited(Open), MAX_PER_KIND)
    && WithinBudget(log, Any(), MAX_PER_TOKEN)
    && forall i, j :: 0 <= i < j < |log| ==> log[j].at - log[i].at >= MINUTE
  }

  lemma {:induction false} AllCounted(log: seq<Attempt>, since: int, config: string)
    requires forall i :: 0 <= i < |log| ==> log[i].config == config
    ensures Inside(log, since, Counted(Some(config))) == Inside(log, since, Any())
  {
    if log != [] {
      AllCounted(log[..|log| - 1], since, config);
    }
  }

  lemma {:induction false} SameConfig(log: seq<Attempt>, config: string)
    requires Attempted(log, config)
    ensures forall i :: 0 <= i < |log| ==> log[i].config == config
  {
    if log != [] {
      SameConfig(log[..|log| - 1], config);
    }
  }

  lemma BudgetStep(before: seq<Attempt>, a: Attempt, config: string)
    requires Budgeted(before) && Attempted(before + [a], config)
    ensures Budgeted(before + [a])
  {
    assert (before + [a])[..|before|] == before;
    var log := before + [a];
    forall i | 0 <= i < |before| ensures before[i].at <= a.at {
      assert log[i] == before[i] && log[|before|] == a;
    }
    assert InTime(before, a.at) by {
      forall i, j | 0 <= i < j < |before| ensures before[i].at <= before[j].at {
        assert log[i] == before[i] && log[j] == before[j];
      }
    }
    WaitIsExact(before, a.at, a.kind, Some(config));
    SameConfig(before, config);
    AllCounted(before, a.at - DAY, config);
    OneMoreAttempt(before, a, Credited(Owner), MAX_PER_KIND);
    OneMoreAttempt(before, a, Credited(Open), MAX_PER_KIND);
    OneMoreAttempt(before, a, Any(), MAX_PER_TOKEN);
  }

  lemma {:induction false} NothingSpent(counts: Attempt -> bool, limit: nat)
    ensures WithinBudget([], counts, limit)
  {
    assert forall t :: InDay([], t, counts) == 0;
  }

  /** No day ever holds more than 5 credited attempts of a kind or 20 answered ones
      for one token, and any two lie at least a minute apart. */
  lemma {:induction false} NoDayExceedsTheBudget(log: seq<Attempt>, config: string)
    requires Attempted(log, config)
    ensures Budgeted(log)
    decreases |log|
  {
    if log == [] {
      NothingSpent(Credited(Owner), MAX_PER_KIND);
      NothingSpent(Credited(Open), MAX_PER_KIND);
      NothingSpent(Any(), MAX_PER_TOKEN);
    } else {
      var before := log[..|log| - 1];
      NoDayExceedsTheBudget(before, config);
      assert log == before + [log[|log| - 1]];
      BudgetStep(before, log[|log| - 1], config);
    }
  }

  // ---------------------------------------------------------------------
  // The same, said of the rows

  /** Rows of the day before `now`: deliveries and refusals with evidence, on requests of
      the kind. */
  function Spent(log: seq<Attempt>, now: int, kind: Kind): set<nat> {
    set i: nat | i < |log| && now - log[i].at < 86400 && log[i].credited && log[i].kind == kind
  }

  /** Rows of the day before `now`, save what was refused without evidence under other
      settings than the current ones. */
  function Answered(log: seq<Attempt>, now: int, config: Option<string>): set<nat> {
    set i: nat | i < |log| && now - log[i].at < 86400
                 && (log[i].credited || config.None? || log[i].config == config.value)
  }

  /** The token may be sent another push: a minute since the last answered attempt, fewer
      than five of the kind, fewer than twenty in all. */
  predicate MaySend(log: seq<Attempt>, now: int, kind: Kind, config: Option<string>) {
    && (forall i :: 0 <= i < |log| ==> now - log[i].at >= 60)
    && |Spent(log, now, kind)| < 5 && |Answered(log, now, config)| < 20
  }

  function Rows(log: seq<Attempt>, since: int, upTo: int, counts: Attempt -> bool): set<nat> {
    set i: nat | i < |log| && since < log[i].at <= upTo && counts(log[i])
  }

  lemma {:induction false} RowsCount(log: seq<Attempt>, since: int, upTo: int, counts: Attempt -> bool)
    ensures Between(log, since, upTo, counts) == |Rows(log, since, upTo, counts)|
  {
    if log != [] {
      var n := |log| - 1;
      var before, all := Rows(log[..n], since, upTo, counts), Rows(log, since, upTo, counts);
      RowsCount(log[..n], since, upTo, counts);
      assert n !in before && all == before + if n in all then {n} else {};
    }
  }

  lemma {:induction false} InsideIsBetween(log: seq<Attempt>, since: int, upTo: int, counts: Attempt -> bool)
    requires forall i :: 0 <= i < |log| ==> log[i].at <= upTo
    ensures Inside(log, since, counts) == Between(log, since, upTo, counts)
  {
    if log != [] {
      InsideIsBetween(log[..|log| - 1], since, upTo, counts);
    }
  }

  lemma InsideCounts(log: seq<Attempt>, now: int, kind: Kind, config: Option<string>)
    requires InTime(log, now)
    ensures Inside(log, now - 86400, Credited(kind)) == |Spent(log, now, kind)|
    ensures Inside(log, now - 86400, Counted(config)) == |Answered(log, now, config)|
  {
    InsideIsBetween(log, now - 86400, now, Credited(kind));
    InsideIsBetween(log, now - 86400, now, Counted(config));
    RowsCount(log, now - 86400, now, Credited(kind));
    RowsCount(log, now - 86400, now, Counted(config));
    assert Rows(log, now - 86400, now, Credited(kind)) == Spent(log, now, kind);
    assert Rows(log, now - 86400, now, Counted(config)) == Answered(log, now, config);
  }

  /** With no new attempt, the wait is the time to the first moment from now on at which
      the token may be sent a push: it is over within `d` seconds exactly if the push may
      be sent then. */
  lemma TheWaitIsToTheFirstMoment(log: seq<Attempt>, now: int, d: nat, kind: Kind, config: Option<string>)
    requires InTime(log, now)
    ensures Wait(log, now, kind, config) <= d <==> MaySend(log, now + d, kind, config)
  {
    TheWaitRunsDown(log, now, d, kind, config);
    WaitIsExact(log, now + d, kind, config);
    InsideCounts(log, now + d, kind, config);
  }

  lemma AgesOfOneMore(log: seq<Attempt>, a: Attempt, now: int, counts: Attempt -> bool)
    ensures Ages(log + [a], now, counts) ==
      if a.at > now - DAY && counts(a) then [now - a.at] + Ages(log, now, counts) else Ages(log, now, counts)
  {
    assert (log + [a])[..|log|] == log;
  }

  /** What a misconfiguration refused is forgiven once the settings are others: it costs
      the token its minute and nothing else. */
  lemma OtherSettingsCostAMinute(log: seq<Attempt>, a: Attempt, now: int, kind: Kind, config: string)
    requires InTime(log + [a], now) && !a.credited && a.config != config
    ensures Wait(log + [a], now, kind, Some(config)) == Max(Wait(log, now, kind, Some(config)), a.at + 60 - now)
  {
    AgesOfOneMore(log, a, now, Credited(kind));
    AgesOfOneMore(log, a, now, Counted(Some(config)));
    AgesOfOneMore(log, a, now, Any());
    if log != [] {
      assert (log + [a])[|log| - 1] == log[|log| - 1] && (log + [a])[|log|] == a;
      NewestFirst(log, now);
    }
  }

  lemma NewestFirst(log: seq<Attempt>, now: int)
    requires log != [] && forall i :: 0 <= i < |log| ==> log[i].at <= log[|log| - 1].at
    ensures var ages := Ages(log, now, Any()); ages != [] ==> ages[0] == now - log[|log| - 1].at
  {
    if log[|log| - 1].at <= now - DAY {
      NothingRecent(log, now, Any());
    }
  }

  /** The budgets over whole logs: attempts made only when the wait was over never put
      more than five credited ones of a kind, nor more than twenty in all, into any day. */
  lemma NoDayHoldsMore(log: seq<Attempt>, config: string, t: int, kind: Kind)
    requires Attempted(log, config)
    ensures |set i: nat | i < |log| && t - 86400 < log[i].at <= t && log[i].credited && log[i].kind == kind| <= 5
    ensures |set i: nat | i < |log| && t - 86400 < log[i].at <= t| <= 20
  {
    NoDayExceedsTheBudget(log, config);
    assert InDay(log, t, Credited(Owner)) <= 5 && InDay(log, t, Credited(Open)) <= 5 && InDay(log, t, Any()) <= 20;
    RowsCount(log, t - 86400, t, Credited(kind));
    RowsCount(log, t - 86400, t, Any());
    assert Rows(log, t - 86400, t, Credited(kind)) ==
        set i: nat | i < |log| && t - 86400 < log[i].at <= t && log[i].credited && log[i].kind == kind;
    assert Rows(log, t - 86400, t, Any()) == set i: nat | i < |log| && t - 86400 < log[i].at <= t;
  }
}
