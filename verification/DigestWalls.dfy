/** A setting that a deployment may choose, and in which a push digest goes out ahead of
    a waiting mail. */
module DigestWalls {
  import opened Common
  import opened MailDelivery
  import opened MailBatch
  import opened MailLaws
  import opened MailPool
  import opened DigestQueue

  function Accepting(name: string, limits: seq<Limit>): Provider {
    Provider(name, (n: nat, items: seq<Outgoing>) => Answer(Some(200), None, 0), 50, limits)
  }

  const NOBODY := Post(0, map[], map[], {}, 0, [])

  lemma NobodyUsedAnything(name: string, window: nat)
    ensures Used(map[], name, window, 0) == 0
  {
    assert StampedWithin(map[], name, window, 0) == {};
  }

  lemma PoolOf(p: Provider, claims: Claims, now: int)
    ensures PoolRoom(claims, [p], now) == Room(claims, p.name, p.limits, now)
  {
    assert [p][1..] == [];
  }

  /** Two mails and a push digest behind them. */
  const QUEUE := [Mail(Outgoing(1, 11)), Mail(Outgoing(2, 12)), Push(13)]

  lemma QueuePlaces(dead: set<Address>)
    requires dead == {}
    ensures LiveMails(QUEUE, dead) == [Outgoing(1, 11), Outgoing(2, 12)]
    ensures Ahead(QUEUE, dead, 0) == 0 && Ahead(QUEUE, dead, 1) == 1 && Ahead(QUEUE, dead, 2) == 2
  {
    assert QUEUE[..0] == [] && QUEUE[..1] == [QUEUE[0]] && QUEUE[..2] == [QUEUE[0], QUEUE[1]] && QUEUE[..3] == QUEUE;
    AheadStep(QUEUE, dead, 0);
    AheadStep(QUEUE, dead, 1);
    AheadStep(QUEUE, dead, 2);
  }

  lemma KeysOfQueue()
    ensures FreshKeys(QUEUE, NOBODY.claims)
  {
  }

  lemma NobodyIsDead()
    ensures Dead(NOBODY, 3) == {}
  {
  }

  /** One provider, 2 mails an hour and 3 a day, with 2 of the day kept for
      confirmations: the hourly wall binds, the second mail waits, and the push behind
      it goes out. */
  lemma HeadroomLetsPushOvertake()
    ensures var chain := [Accepting("p", [Limit(2, 3600), Limit(3, DAY)])];
      && ValidChain(chain)
      && DailyRoom(NOBODY.claims, chain, 0) == Some(3) && PoolRoom(NOBODY.claims, chain, 0) == 2
      && Overtakes(NOBODY, QUEUE, chain, 3, 2, 2)
  {
    var p := Accepting("p", [Limit(2, 3600), Limit(3, DAY)]);
    var chain := [p];
    NobodyUsedAnything("p", 3600);
    NobodyUsedAnything("p", DAY);
    assert p.limits[1..] == [Limit(3, DAY)] && chain[1..] == [];
    assert Tightest(NOBODY.claims, "p", p.limits, 0) == 2;
    var daily := DailyChain(chain);
    assert Daily(p.limits[1..]) == [Limit(3, DAY)] by {
      assert p.limits[1..][1..] == [];
    }
    assert daily[0].limits == [Limit(3, DAY)] && daily[1..] == [];
    assert Tightest(NOBODY.claims, "p", daily[0].limits, 0) == 3;
    PoolOf(p, NOBODY.claims, 0);
    PoolOf(daily[0], NOBODY.claims, 0);
    assert daily == [daily[0]];
    NobodyIsDead();
    QueuePlaces(Dead(NOBODY, 3));
    KeysOfQueue();
    DeliversFillsThePool(NOBODY, QUEUE, chain, 3, 2);
    WhoOvertakes(NOBODY, QUEUE, chain, 3, 2, 2, 0);
  }
}
