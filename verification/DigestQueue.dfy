/** One queue of digests, mail and push (`flush_digests` of app/digest.py): who waits
    when mail runs out of quota, and who waits so that confirmations still fit. */
module DigestQueue {
  import opened Common
  import opened MailDelivery
  import opened MailBatch
  import opened MailLaws
  import opened MailPool

  datatype Item = Mail(mail: Outgoing) | Push(key: Key)

  function KeyOfItem(i: Item): Key {
    if i.Mail? then i.mail.key else i.key
  }

  predicate Live(i: Item, dead: set<Address>) {
    i.Mail? && i.mail.to !in dead
  }

  /** The mails of a queue that can be sent, in order. */
  function LiveMails(queue: seq<Item>, dead: set<Address>): seq<Outgoing> {
    if queue == [] then []
    else
      var before := LiveMails(queue[..|queue| - 1], dead);
      var last := queue[|queue| - 1];
      if Live(last, dead) then before + [last.mail] else before
  }

  /** How many of them stand ahead of place j. */
  function Ahead(queue: seq<Item>, dead: set<Address>, j: nat): nat
    requires j <= |queue|
  {
    |LiveMails(queue[..j], dead)|
  }

  lemma AheadStep(queue: seq<Item>, dead: set<Address>, j: nat)
    requires j < |queue|
    ensures Ahead(queue, dead, j + 1) == Ahead(queue, dead, j) + (if Live(queue[j], dead) then 1 else 0)
    ensures LiveMails(queue[..j + 1], dead) ==
              if Live(queue[j], dead)
              then LiveMails(queue[..j], dead) + [queue[j].mail] else LiveMails(queue[..j], dead)
  {
    assert queue[..j + 1][..j] == queue[..j];
  }

  // ---------------------------------------------------------------------
  // The two walls

  /** Push digests with more live mails ahead than the pool takes. */
  function PushesPast(queue: seq<Item>, dead: set<Address>, room: nat): set<Key> {
    set j: nat | j < |queue| && queue[j].Push? && Ahead(queue, dead, j) > room :: queue[j].key
  }

  /** Mails with at least `room` live mails ahead. */
  function MailsPast(queue: seq<Item>, dead: set<Address>, room: nat): set<Key> {
    set j: nat | j < |queue| && Live(queue[j], dead) && Ahead(queue, dead, j) >= room :: queue[j].mail.key
  }

  const DAY := 86400

  function Daily(limits: seq<Limit>): seq<Limit> {
    if limits == [] then []
    else if limits[0].window >= DAY then [limits[0]] + Daily(limits[1..])
    else Daily(limits[1..])
  }

  function DailyChain(chain: seq<Provider>): (r: seq<Provider>)
    ensures |r| == |chain|
    ensures forall i :: 0 <= i < |chain| ==> r[i].name == chain[i].name && r[i].limits == Daily(chain[i].limits)
  {
    seq(|chain|, i requires 0 <= i < |chain| => chain[i].(limits := Daily(chain[i].limits)))
  }

  /** Room within the daily windows alone; None when some provider has none. */
  function DailyRoom(claims: Claims, chain: seq<Provider>, now: int): Option<nat> {
    if exists i :: 0 <= i < |chain| && Daily(chain[i].limits) == [] then None
    else Some(PoolRoom(claims, DailyChain(chain), now))
  }

  /** Push waits behind the mail quota only when it is an hourly wall that binds. */
  function BehindWall(queue: seq<Item>, dead: set<Address>, pool: nat, day: Option<nat>): set<Key> {
    if day.Some? && day.value <= pool then {} else PushesPast(queue, dead, pool)
  }

  /** Mail keeps off the last `headroom` places of the daily windows. */
  function PastHeadroom(queue: seq<Item>, dead: set<Address>, day: Option<nat>, headroom: nat): set<Key> {
    if headroom == 0 || day.None? then {} else MailsPast(queue, dead, Max(0, day.value - headroom))
  }

  function MailItems(queue: seq<Item>, held: set<Key>): seq<Outgoing> {
    if queue == [] then []
    else
      var before := MailItems(queue[..|queue| - 1], held);
      var last := queue[|queue| - 1];
      if last.Mail? && last.mail.key !in held then before + [last.mail] else before
  }

  function PushKeys(queue: seq<Item>, held: set<Key>): set<Key> {
    set i | i in queue && i.Push? && i.key !in held :: i.key
  }

  /** What a flush decides before anything is sent. */
  datatype Plan = Plan(mails: seq<Outgoing>, pushes: set<Key>, walled: set<Key>, kept: set<Key>)

  function Planned(st: Post, queue: seq<Item>, chain: seq<Provider>, failureCap: int, headroom: nat): Plan {
    var dead := Dead(st, failureCap);
    var day := DailyRoom(st.claims, chain, st.now);
    var walled := BehindWall(queue, dead, PoolRoom(st.claims, chain, st.now), day);
    var kept := PastHeadroom(queue, dead, day, headroom);
    Plan(MailItems(queue, kept), PushKeys(queue, walled), walled, kept)
  }

  // ---------------------------------------------------------------------
  // What goes out when every provider accepts

  predicate DistinctItems(queue: seq<Item>) {
    forall i, j :: 0 <= i < j < |queue| ==> KeyOfItem(queue[i]) != KeyOfItem(queue[j])
  }

  /** A cycle's keys carry its id: none has been claimed before. */
  predicate FreshKeys(queue: seq<Item>, claims: Claims) {
    && DistinctItems(queue)
    && forall i :: 0 <= i < |queue| ==> KeyOfItem(queue[i]) !in claims
  }

  /** The mails ahead of the headroom. */
  function Allowed(queue: seq<Item>, dead: set<Address>, day: Option<nat>, headroom: nat): seq<Outgoing> {
    var live := LiveMails(queue, dead);
    if headroom == 0 || day.None? then live else live[..Min(|live|, Max(0, day.value - headroom))]
  }

  lemma {:induction false} HealthyEnd(items: seq<Outgoing>, x: Outgoing, bad: set<Address>)
    ensures Healthy(items + [x], bad) == if x.to in bad then Healthy(items, bad) else Healthy(items, bad) + [x]
  {
    HealthyAppend(items, [x], bad);
    assert [x][1..] == [];
  }

  lemma MailItemsStep(queue: seq<Item>, held: set<Key>, i: nat)
    requires i < |queue|
    ensures MailItems(queue[..i + 1], held) ==
              if queue[i].Mail? && queue[i].mail.key !in held then MailItems(queue[..i], held) + [queue[i].mail]
              else MailItems(queue[..i], held)
  {
    assert queue[..i + 1][..i] == queue[..i];
  }

  lemma OwnKeyDecides(queue: seq<Item>, dead: set<Address>, room: nat, i: nat)
    requires DistinctItems(queue) && i < |queue| && queue[i].Mail?
    ensures queue[i].mail.key in MailsPast(queue, dead, room) <==> Live(queue[i], dead) && Ahead(queue, dead, i) >= room
  {
    if queue[i].mail.key in MailsPast(queue, dead, room) {
      var j: nat :| j < |queue| && Live(queue[j], dead) && Ahead(queue, dead, j) >= room
        && queue[j].mail.key == queue[i].mail.key;
      assert KeyOfItem(queue[i]) == KeyOfItem(queue[j]);
      assert i == j;
    }
  }

  lemma TakeOneMore(live: seq<Outgoing>, x: Outgoing, room: nat)
    ensures (live + [x])[..Min(|live| + 1, room)] ==
      live[..Min(|live|, room)] + (if |live| < room then [x] else [])
  {
  }

  /** Dropping the mails past a place leaves the live mails up to it. */
  predicate KeepsUpTo(queue: seq<Item>, dead: set<Address>, room: nat, i: nat)
    requires i <= |queue|
  {
    var live := LiveMails(queue[..i], dead);
    Healthy(MailItems(queue[..i], MailsPast(queue, dead, room)), dead) == live[..Min(|live|, room)]
  }

  lemma KeptMail(queue: seq<Item>, dead: set<Address>, room: nat, i: nat)
    requires DistinctItems(queue) && i < |queue| && queue[i].Mail? && KeepsUpTo(queue, dead, room, i)
    ensures KeepsUpTo(queue, dead, room, i + 1)
  {
    var past, x := MailsPast(queue, dead, room), queue[i].mail;
    OwnKeyDecides(queue, dead, room, i);
    AheadStep(queue, dead, i);
    MailItemsStep(queue, past, i);
    HealthyEnd(MailItems(queue[..i], past), x, dead);
    TakeOneMore(LiveMails(queue[..i], dead), x, room);
    assert LiveMails(queue[..i], dead) + [] == LiveMails(queue[..i], dead);
  }

  lemma {:induction false} KeptMails(queue: seq<Item>, dead: set<Address>, room: nat, i: nat)
    requires DistinctItems(queue) && i <= |queue|
    ensures KeepsUpTo(queue, dead, room, i)
  {
    if i > 0 {
      KeptMails(queue, dead, room, i - 1);
      if queue[i - 1].Mail? {
        KeptMail(queue, dead, room, i - 1);
      } else {
        AheadStep(queue, dead, i - 1);
        MailItemsStep(queue, MailsPast(queue, dead, room), i - 1);
      }
    }
  }

  lemma {:induction false} AllMails(queue: seq<Item>, dead: set<Address>, i: nat)
    requires i <= |queue|
    ensures Healthy(MailItems(queue[..i], {}), dead) == LiveMails(queue[..i], dead)
  {
    if i > 0 {
      AllMails(queue, dead, i - 1);
      AheadStep(queue, dead, i - 1);
      MailItemsStep(queue, {}, i - 1);
      if queue[i - 1].Mail? {
        HealthyEnd(MailItems(queue[..i - 1], {}), queue[i - 1].mail, dead);
      }
    }
  }

  lemma SendableMails(queue: seq<Item>, dead: set<Address>, day: Option<nat>, headroom: nat)
    requires DistinctItems(queue)
    ensures Healthy(MailItems(queue, PastHeadroom(queue, dead, day, headroom)), dead)
        == Allowed(queue, dead, day, headroom)
  {
    assert queue[..|queue|] == queue;
    if headroom == 0 || day.None? {
      AllMails(queue, dead, |queue|);
    } else {
      KeptMails(queue, dead, Max(0, day.value - headroom), |queue|);
    }
  }

  lemma {:induction false} ClaimAllFresh(items: seq<Outgoing>, dead: set<Address>, claims: Claims, now: int)
    requires DistinctKeys(items) && forall x :: x in items ==> x.key !in claims
    ensures ClaimAll(items, dead, claims, now).0 == Healthy(items, dead)
  {
    if items != [] {
      var rest := items[1..];
      forall x | x in rest ensures x.key != items[0].key && x.key !in claims {
        var i :| 0 <= i < |rest| && rest[i] == x;
        assert items[i + 1] == x;
      }
      ClaimAllFresh(rest, dead,
        if items[0].to !in dead then claims[items[0].key := Row(Pending, now)] else claims, now);
    }
  }

  lemma {:induction false} MailItemsAre(queue: seq<Item>, held: set<Key>, i: nat)
    requires i <= |queue|
    ensures forall x :: x in MailItems(queue[..i], held) ==> exists j :: 0 <= j < i && queue[j] == Mail(x)
    ensures DistinctItems(queue) ==> DistinctKeys(MailItems(queue[..i], held))
  {
    if i > 0 {
      MailItemsAre(queue, held, i - 1);
      MailItemsStep(queue, held, i - 1);
      var before := MailItems(queue[..i - 1], held);
      if DistinctItems(queue) && queue[i - 1].Mail? {
        forall m | 0 <= m < |before| ensures before[m].key != queue[i - 1].mail.key {
          assert before[m] in before;
          var j :| 0 <= j < i - 1 && queue[j] == Mail(before[m]);
          assert KeyOfItem(queue[j]) != KeyOfItem(queue[i - 1]);
        }
      }
    }
  }

  /** The flush's mail batch claims exactly the live mails it does not hold back. */
  lemma ClaimedByFlush(st: Post, queue: seq<Item>, chain: seq<Provider>, failureCap: int, headroom: nat)
    requires ValidChain(chain) && FreshKeys(queue, st.claims)
    ensures var dead := Dead(st, failureCap);
      Batch(st, Planned(st, queue, chain, failureCap, headroom).mails, chain, failureCap).claimed
        == Allowed(queue, dead, DailyRoom(st.claims, chain, st.now), headroom)
  {
    var dead, day := Dead(st, failureCap), DailyRoom(st.claims, chain, st.now);
    var held := PastHeadroom(queue, dead, day, headroom);
    var items := MailItems(queue, held);
    SendableMails(queue, dead, day, headroom);
    MailItemsAre(queue, held, |queue|);
    assert queue[..|queue|] == queue;
    forall x | x in items ensures x.key !in st.claims {
      var j :| 0 <= j < |queue| && queue[j] == Mail(x);
      assert KeyOfItem(queue[j]) == x.key;
    }
    ClaimAllFresh(items, dead, st.claims, st.now);
  }

  /** How many mails a flush delivers. */
  function Delivers(st: Post, queue: seq<Item>, chain: seq<Provider>, failureCap: int, headroom: nat): nat
    requires ValidChain(chain)
  {
    |Batch(st, Planned(st, queue, chain, failureCap, headroom).mails, chain, failureCap).sent|
  }

  /** When the mail batch of a flush ends. */
  function Ends(st: Post, queue: seq<Item>, chain: seq<Provider>, failureCap: int, headroom: nat): int
    requires ValidChain(chain)
  {
    Batch(st, Planned(st, queue, chain, failureCap, headroom).mails, chain, failureCap).post.now
  }

  lemma {:induction false} LiveMailsArePrefixes(queue: seq<Item>, dead: set<Address>, i: nat, j: nat)
    requires i <= j <= |queue|
    ensures LiveMails(queue[..i], dead) <= LiveMails(queue[..j], dead)
    decreases j
  {
    if i < j {
      LiveMailsArePrefixes(queue, dead, i, j - 1);
      AheadStep(queue, dead, j - 1);
    }
  }

  /** Each live mail's place among the live mails is the number ahead of it. */
  lemma PlaceInLine(queue: seq<Item>, dead: set<Address>, j: nat)
    requires j < |queue| && Live(queue[j], dead)
    ensures Ahead(queue, dead, j) < |LiveMails(queue, dead)|
    ensures LiveMails(queue, dead)[Ahead(queue, dead, j)] == queue[j].mail
  {
    AheadStep(queue, dead, j);
    LiveMailsArePrefixes(queue, dead, j + 1, |queue|);
    assert queue[..|queue|] == queue;
  }

  lemma {:induction false} LiveMailsDistinct(queue: seq<Item>, dead: set<Address>, i: nat)
    requires DistinctItems(queue) && i <= |queue|
    ensures DistinctKeys(LiveMails(queue[..i], dead))
    ensures forall x :: x in LiveMails(queue[..i], dead) ==> exists j :: 0 <= j < i && queue[j] == Mail(x)
  {
    if i > 0 {
      LiveMailsDistinct(queue, dead, i - 1);
      AheadStep(queue, dead, i - 1);
      var before := LiveMails(queue[..i - 1], dead);
      if Live(queue[i - 1], dead) {
        forall m | 0 <= m < |before| ensures before[m].key != queue[i - 1].mail.key {
          assert before[m] in before;
          var j :| 0 <= j < i - 1 && queue[j] == Mail(before[m]);
          assert KeyOfItem(queue[j]) != KeyOfItem(queue[i - 1]);
        }
      }
    }
  }

  lemma KeyInPrefix(items: seq<Outgoing>, n: nat, i: nat)
    requires DistinctKeys(items) && n <= |items| && i < |items|
    ensures items[i].key in Keys(items[..n]) <==> i < n
  {
    if i < n {
      assert items[..n][i] == items[i];
    } else {
      forall x | x in items[..n] ensures x.key != items[i].key {
        var m :| 0 <= m < n && items[..n][m] == x;
        assert items[m] == x;
      }
    }
  }

  /** When every provider accepts, a live mail is delivered exactly when fewer live
      mails stand ahead of it than the flush delivers, and those fill the pool. */
  lemma DeliveredInOrder(st: Post, queue: seq<Item>, chain: seq<Provider>, failureCap: int, headroom: nat, j: nat)
    requires ValidChain(chain) && DistinctNames(chain) && AllAccept(chain) && FreshKeys(queue, st.claims)
    requires j < |queue| && Live(queue[j], Dead(st, failureCap))
    ensures var o := Batch(st, Planned(st, queue, chain, failureCap, headroom).mails, chain, failureCap);
      queue[j].mail.key in o.Delivered() <==>
        Ahead(queue, Dead(st, failureCap), j) < Delivers(st, queue, chain, failureCap, headroom)
  {
    var dead := Dead(st, failureCap);
    var live := LiveMails(queue, dead);
    var allowed := Allowed(queue, dead, DailyRoom(st.claims, chain, st.now), headroom);
    ClaimedByFlush(st, queue, chain, failureCap, headroom);
    AcceptedBatchFillsThePool(st, Planned(st, queue, chain, failureCap, headroom).mails, chain, failureCap);
    PlaceInLine(queue, dead, j);
    LiveMailsDistinct(queue, dead, |queue|);
    assert queue[..|queue|] == queue;
    var n := Delivers(st, queue, chain, failureCap, headroom);
    assert allowed[..n] == live[..n];
    KeyInPrefix(live, n, Ahead(queue, dead, j));
  }

  /** How far down the line mail gets: past the room there was, or to the end of what
      may be sent, and no further than the room the same sends leave in the end. */
  lemma DeliversFillsThePool(st: Post, queue: seq<Item>, chain: seq<Provider>, failureCap: int, headroom: nat)
    requires ValidChain(chain) && DistinctNames(chain) && AllAccept(chain) && FreshKeys(queue, st.claims)
    ensures Fills(st.claims, chain, st.now, Ends(st, queue, chain, failureCap, headroom),
                  Delivers(st, queue, chain, failureCap, headroom),
                  |Allowed(queue, Dead(st, failureCap), DailyRoom(st.claims, chain, st.now), headroom)|)
    ensures st.now <= Ends(st, queue, chain, failureCap, headroom)
  {
    ClaimedByFlush(st, queue, chain, failureCap, headroom);
    AcceptedBatchFillsThePool(st, Planned(st, queue, chain, failureCap, headroom).mails, chain, failureCap);
    BatchTime(st, Planned(st, queue, chain, failureCap, headroom).mails, chain, failureCap);
  }

  // ---------------------------------------------------------------------
  // The wall that was predicted is the wall that was hit

  lemma {:induction false} AheadGrows(queue: seq<Item>, dead: set<Address>, i: nat, j: nat)
    requires i <= j <= |queue|
    ensures Ahead(queue, dead, i) <= Ahead(queue, dead, j)
  {
    LiveMailsArePrefixes(queue, dead, i, j);
  }

  /** Some live mail at or past place `n` of the line stands ahead of j. */
  lemma {:induction false} OneStandsAhead(queue: seq<Item>, dead: set<Address>, j: nat, n: nat) returns (i: nat)
    requires j <= |queue| && n < Ahead(queue, dead, j)
    ensures i < j && Live(queue[i], dead) && Ahead(queue, dead, i) == n
    decreases j
  {
    AheadStep(queue, dead, j - 1);
    if n < Ahead(queue, dead, j - 1) {
      i := OneStandsAhead(queue, dead, j - 1, n);
    } else {
      i := j - 1;
    }
  }

  lemma OwnPushKey(queue: seq<Item>, dead: set<Address>, room: nat, j: nat)
    requires DistinctItems(queue) && j < |queue| && queue[j].Push?
    ensures queue[j].key in PushesPast(queue, dead, room) <==> Ahead(queue, dead, j) > room
  {
    if queue[j].key in PushesPast(queue, dead, room) {
      var i: nat :| i < |queue| && queue[i].Push? && Ahead(queue, dead, i) > room && queue[i].key == queue[j].key;
      assert KeyOfItem(queue[i]) == KeyOfItem(queue[j]);
      assert i == j;
    }
  }

  /** A live mail the flush leaves waiting. */
  predicate Waits(st: Post, queue: seq<Item>, chain: seq<Provider>, failureCap: int, headroom: nat, i: nat)
    requires ValidChain(chain) && i < |queue|
  {
    && Live(queue[i], Dead(st, failureCap))
    && var mails := Planned(st, queue, chain, failureCap, headroom).mails;
    queue[i].mail.key !in Batch(st, mails, chain, failureCap).Delivered()
  }

  /** Push digest j goes out ahead of a mail that stands before it and waits. */
  ghost predicate Overtakes(st: Post, queue: seq<Item>, chain: seq<Provider>, failureCap: int, headroom: nat, j: nat)
    requires ValidChain(chain) && j < |queue|
  {
    && queue[j].Push? && queue[j].key in Planned(st, queue, chain, failureCap, headroom).pushes
    && exists i :: 0 <= i < j && Waits(st, queue, chain, failureCap, headroom, i)
  }

  lemma PushGoesOut(st: Post, queue: seq<Item>, chain: seq<Provider>, failureCap: int, headroom: nat, j: nat)
    requires FreshKeys(queue, st.claims) && j < |queue| && queue[j].Push?
    ensures var pool, day := PoolRoom(st.claims, chain, st.now), DailyRoom(st.claims, chain, st.now);
      queue[j].key in Planned(st, queue, chain, failureCap, headroom).pushes <==>
        (day.Some? && day.value <= pool) || Ahead(queue, Dead(st, failureCap), j) <= pool
  {
    OwnPushKey(queue, Dead(st, failureCap), PoolRoom(st.claims, chain, st.now), j);
  }

  /** A mail waits ahead of j exactly when more live mails stand there than the flush
      delivers. */
  lemma SomeMailWaitsAhead(st: Post, queue: seq<Item>, chain: seq<Provider>, failureCap: int, headroom: nat, j: nat)
    requires ValidChain(chain) && DistinctNames(chain) && AllAccept(chain) && FreshKeys(queue, st.claims)
    requires j <= |queue|
    ensures (exists i :: 0 <= i < j && Waits(st, queue, chain, failureCap, headroom, i)) <==>
              Ahead(queue, Dead(st, failureCap), j) > Delivers(st, queue, chain, failureCap, headroom)
  {
    var dead, n := Dead(st, failureCap), Delivers(st, queue, chain, failureCap, headroom);
    if Ahead(queue, dead, j) > n {
      var i := OneStandsAhead(queue, dead, j, n);
      DeliveredInOrder(st, queue, chain, failureCap, headroom, i);
      assert Waits(st, queue, chain, failureCap, headroom, i);
    } else {
      forall i: nat | i < j ensures !Waits(st, queue, chain, failureCap, headroom, i) {
        AheadStep(queue, dead, i);
        AheadGrows(queue, dead, i + 1, j);
        if Live(queue[i], dead) {
          DeliveredInOrder(st, queue, chain, failureCap, headroom, i);
        }
      }
    }
  }

  /** Who overtakes, by what the flush delivers. */
  lemma OvertakesPast(st: Post, queue: seq<Item>, chain: seq<Provider>, failureCap: int, headroom: nat, j: nat)
    requires ValidChain(chain) && DistinctNames(chain) && AllAccept(chain) && FreshKeys(queue, st.claims)
    requires j < |queue| && queue[j].Push?
    ensures var pool, day := PoolRoom(st.claims, chain, st.now), DailyRoom(st.claims, chain, st.now);
            var ahead := Ahead(queue, Dead(st, failureCap), j);
      Overtakes(st, queue, chain, failureCap, headroom, j) <==>
        && Delivers(st, queue, chain, failureCap, headroom) < ahead
        && (DayBinds(pool, day) || ahead <= pool)
  {
    SomeMailWaitsAhead(st, queue, chain, failureCap, headroom, j);
    PushGoesOut(st, queue, chain, failureCap, headroom, j);
  }

  // ---------------------------------------------------------------------
  // Who overtakes, by what is known before anything is sent

  /** The daily windows are what binds, not the hourly ones. */
  predicate DayBinds(pool: nat, day: Option<nat>) {
    day.Some? && day.value <= pool
  }

  /** How many mails of a flush there are places for: the pool's room, or what the
      daily windows have outside the headroom if that is less. */
  function MailPlaces(pool: nat, day: Option<nat>, headroom: nat): nat {
    if headroom == 0 || day.None? then pool else Min(pool, Max(0, day.value - headroom))
  }

  /** With `ahead` live mails ahead, a push digest stands past the places for mail, and
      no wall holds it. */
  predicate PastPlaces(pool: nat, day: Option<nat>, headroom: nat, ahead: nat) {
    MailPlaces(pool, day, headroom) < ahead && (DayBinds(pool, day) || ahead <= pool)
  }

  /** The calls of the flush let no send that counts leave its window. */
  ghost predicate SteadyFlush(st: Post, queue: seq<Item>, chain: seq<Provider>, failureCap: int, headroom: nat, e: nat)
  {
    Steady(st, Planned(st, queue, chain, failureCap, headroom).mails, chain, e)
  }

  /** The walls then settle who overtakes: some headroom is kept, an hourly wall binds,
      or no send that counts leaves its window meanwhile. */
  ghost predicate Foreseen(st: Post, queue: seq<Item>, chain: seq<Provider>, failureCap: int, headroom: nat, e: nat) {
    || headroom > 0 || !DayBinds(PoolRoom(st.claims, chain, st.now), DailyRoom(st.claims, chain, st.now))
    || SteadyFlush(st, queue, chain, failureCap, headroom, e)
  }

  /** With every provider accepting, a push digest overtakes a waiting mail only when
      more live mails stand ahead of it than there are places for and the wall does not
      hold it. That is when exactly, unless the daily windows bind, nothing is kept for
      confirmations, and calls are so slow that sends leave their windows meanwhile. */
  lemma WhoOvertakes(st: Post, queue: seq<Item>, chain: seq<Provider>, failureCap: int, headroom: nat, j: nat, e: nat)
    requires ValidChain(chain) && DistinctNames(chain) && AllAccept(chain) && FreshKeys(queue, st.claims)
    requires j < |queue| && queue[j].Push?
    ensures var pool, day := PoolRoom(st.claims, chain, st.now), DailyRoom(st.claims, chain, st.now);
            var past := PastPlaces(pool, day, headroom, Ahead(queue, Dead(st, failureCap), j));
      && (Overtakes(st, queue, chain, failureCap, headroom, j) ==> past)
      && (Foreseen(st, queue, chain, failureCap, headroom, e) ==>
            (Overtakes(st, queue, chain, failureCap, headroom, j) <==> past))
  {
    OvertakesPast(st, queue, chain, failureCap, headroom, j);
    assert queue[..|queue|] == queue;
    AheadGrows(queue, Dead(st, failureCap), j, |queue|);
    DeliversFillsThePool(st, queue, chain, failureCap, headroom);
    if SteadyFlush(st, queue, chain, failureCap, headroom, e) {
      SteadyRoom(st, Planned(st, queue, chain, failureCap, headroom).mails, chain, failureCap, e);
    }
  }

  /** Nobody overtakes in a queue none of whose push digests stands there, and as far
      as that can be foreseen in no other. */
  lemma WhenNobodyOvertakes(st: Post, queue: seq<Item>, chain: seq<Provider>, failureCap: int, headroom: nat, e: nat)
    requires ValidChain(chain) && DistinctNames(chain) && AllAccept(chain) && FreshKeys(queue, st.claims)
    ensures var pool, day := PoolRoom(st.claims, chain, st.now), DailyRoom(st.claims, chain, st.now);
            var nobody := forall j: nat | j < |queue| :: !Overtakes(st, queue, chain, failureCap, headroom, j);
            var free := forall j: nat | j < |queue| && queue[j].Push? ::
                          !PastPlaces(pool, day, headroom, Ahead(queue, Dead(st, failureCap), j));
      && (free ==> nobody)
      && (Foreseen(st, queue, chain, failureCap, headroom, e) ==> (nobody <==> free))
  {
    var pool, day := PoolRoom(st.claims, chain, st.now), DailyRoom(st.claims, chain, st.now);
    forall j: nat | j < |queue| && queue[j].Push?
      ensures var past := PastPlaces(pool, day, headroom, Ahead(queue, Dead(st, failureCap), j));
        && (Overtakes(st, queue, chain, failureCap, headroom, j) ==> past)
        && (Foreseen(st, queue, chain, failureCap, headroom, e) ==>
              (Overtakes(st, queue, chain, failureCap, headroom, j) <==> past))
    {
      WhoOvertakes(st, queue, chain, failureCap, headroom, j, e);
    }
  }

  /** The hourly wall binds, and no mail is kept back for confirmations. */
  predicate HourlyWallOnly(st: Post, queue: seq<Item>, chain: seq<Provider>, failureCap: int, headroom: nat) {
    var day := DailyRoom(st.claims, chain, st.now);
    && !DayBinds(PoolRoom(st.claims, chain, st.now), day)
    && Allowed(queue, Dead(st, failureCap), day, headroom) == LiveMails(queue, Dead(st, failureCap))
  }

  /** Mail gets at least as far as the wall computed before sending, so a mail that
      waits stands at or past it; and in a steady flush that wall is the first mail
      deferred: it and those behind it wait. */
  lemma ThePredictedWallIsWhereMailStops(st: Post, queue: seq<Item>, chain: seq<Provider>, failureCap: int,
                                         headroom: nat, j: nat, e: nat)
    requires ValidChain(chain) && DistinctNames(chain) && AllAccept(chain) && FreshKeys(queue, st.claims)
    requires HourlyWallOnly(st, queue, chain, failureCap, headroom)
    requires j < |queue| && Live(queue[j], Dead(st, failureCap))
    ensures Waits(st, queue, chain, failureCap, headroom, j) ==>
              Ahead(queue, Dead(st, failureCap), j) >= PoolRoom(st.claims, chain, st.now)
    ensures SteadyFlush(st, queue, chain, failureCap, headroom, e) ==>
              (Waits(st, queue, chain, failureCap, headroom, j) <==>
                Ahead(queue, Dead(st, failureCap), j) >= PoolRoom(st.claims, chain, st.now))
  {
    DeliveredInOrder(st, queue, chain, failureCap, headroom, j);
    DeliversFillsThePool(st, queue, chain, failureCap, headroom);
    PlaceInLine(queue, Dead(st, failureCap), j);
    if SteadyFlush(st, queue, chain, failureCap, headroom, e) {
      SteadyRoom(st, Planned(st, queue, chain, failureCap, headroom).mails, chain, failureCap, e);
    }
  }

  /** Fairness: a push digest goes out only when no mail ahead of it waits, and in a
      steady flush whenever none does. */
  lemma NobodyOvertakesAtTheHourlyWall(st: Post, queue: seq<Item>, chain: seq<Provider>, failureCap: int,
                                       headroom: nat, j: nat, e: nat)
    requires ValidChain(chain) && DistinctNames(chain) && AllAccept(chain) && FreshKeys(queue, st.claims)
    requires HourlyWallOnly(st, queue, chain, failureCap, headroom) && j < |queue| && queue[j].Push?
    ensures queue[j].key in Planned(st, queue, chain, failureCap, headroom).pushes ==>
              forall i :: 0 <= i < j ==> !Waits(st, queue, chain, failureCap, headroom, i)
    ensures SteadyFlush(st, queue, chain, failureCap, headroom, e) ==>
              (queue[j].key in Planned(st, queue, chain, failureCap, headroom).pushes <==>
                forall i :: 0 <= i < j ==> !Waits(st, queue, chain, failureCap, headroom, i))
  {
    assert queue[..|queue|] == queue;
    AheadGrows(queue, Dead(st, failureCap), j, |queue|);
    SomeMailWaitsAhead(st, queue, chain, failureCap, headroom, j);
    DeliversFillsThePool(st, queue, chain, failureCap, headroom);
    PushGoesOut(st, queue, chain, failureCap, headroom, j);
    if SteadyFlush(st, queue, chain, failureCap, headroom, e) {
      SteadyRoom(st, Planned(st, queue, chain, failureCap, headroom).mails, chain, failureCap, e);
    }
  }

  // ---------------------------------------------------------------------
  // Confirmations keep their places

  lemma {:induction false} HealthyFits(items: seq<Outgoing>, bad: set<Address>)
    ensures |Healthy(items, bad)| <= |items|
  {
    if items != [] {
      HealthyFits(items[1..], bad);
    }
  }

  lemma {:induction false} ClaimedAreHealthy(items: seq<Outgoing>, dead: set<Address>, claims: Claims, now: int)
    ensures |ClaimAll(items, dead, claims, now).0| <= |Healthy(items, dead)|
  {
    if items != [] {
      var mid := if items[0].to !in dead && Claimable(claims, items[0].key, now)
                 then claims[items[0].key := Row(Pending, now)] else claims;
      ClaimedAreHealthy(items[1..], dead, mid, now);
    }
  }

  lemma AtMostAllowedAreSent(st: Post, queue: seq<Item>, chain: seq<Provider>, failureCap: int, headroom: nat)
    requires ValidChain(chain) && DistinctItems(queue)
    ensures var o := Batch(st, Planned(st, queue, chain, failureCap, headroom).mails, chain, failureCap);
      |o.sent| <= |Allowed(queue, Dead(st, failureCap), DailyRoom(st.claims, chain, st.now), headroom)|
  {
    var items := Planned(st, queue, chain, failureCap, headroom).mails;
    var o := Batch(st, items, chain, failureCap);
    BatchConserves(st, items, chain, failureCap);
    assert |multiset(o.sent)| <= |multiset(o.claimed)|;
    ClaimedAreHealthy(items, Dead(st, failureCap), st.claims, st.now);
    SendableMails(queue, Dead(st, failureCap), DailyRoom(st.claims, chain, st.now), headroom);
  }

  /** Whatever the providers do, the digests of a flush leave the daily pool the
      headroom, or what it had if that was less. */
  lemma DigestsLeaveTheHeadroom(st: Post, queue: seq<Item>, chain: seq<Provider>, failureCap: int, headroom: nat)
    requires ValidChain(chain) && DistinctNames(chain) && DistinctItems(queue) && headroom > 0
    ensures var day := DailyRoom(st.claims, chain, st.now);
            var o := Batch(st, Planned(st, queue, chain, failureCap, headroom).mails, chain, failureCap);
            var after := DailyRoom(o.post.claims, chain, o.post.now);
      day.Some? <==> after.Some?
    ensures var day := DailyRoom(st.claims, chain, st.now);
            var o := Batch(st, Planned(st, queue, chain, failureCap, headroom).mails, chain, failureCap);
            var after := DailyRoom(o.post.claims, chain, o.post.now);
      day.Some? ==> after.value >= Min(day.value, headroom)
  {
    var items := Planned(st, queue, chain, failureCap, headroom).mails;
    assert DistinctNames(DailyChain(chain));
    BatchPoolLoss(st, items, chain, failureCap, DailyChain(chain));
    AtMostAllowedAreSent(st, queue, chain, failureCap, headroom);
  }
}
