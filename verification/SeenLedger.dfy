/** What each subscriber has been told about: the table `seen_slots` in app/repo.py. */
module SeenLedger {
  import opened Common
  import opened Text

  // Keyed as `Catalog.seen_key` (app/catalog.py) and `Slot.hash`/`day_hash`
  // (app/models.py) say. A digest is a non-empty list of slots that were all news when it
  // was put together, recorded when it was delivered.

  type Id = nat

  /** Dates and times are the zero-padded strings the scrapers produce; they
      compare as strings. */
  datatype Slot = Slot(date: string, time: string, office: string, service: string)
  datatype SeenKey = SeenKey(key: string, best: Option<string>)
  datatype Granularity = PerSlot | PerDay

  /** What is hashed. Different payloads are taken to have different hashes. */
  function SlotPayload(s: Slot): string {
    s.date + "|" + (s.time + "|" + (s.office + "|" + s.service))
  }

  function DayPayload(s: Slot): string {
    s.date + "|" + (s.office + "|" + s.service)
  }

  function KeyOf(g: Granularity, s: Slot): SeenKey {
    if g.PerDay? then SeenKey(DayPayload(s), Some(s.time)) else SeenKey(SlotPayload(s), None)
  }

  predicate CleanSlot(s: Slot) {
    '|' !in s.date && '|' !in s.time && '|' !in s.office && '|' !in s.service
  }

  function WithoutTime(s: Slot): (string, string, string) {
    (s.date, s.office, s.service)
  }

  lemma BarIn(a: string, b: string)
    ensures '|' in a + "|" + b
  {
    assert (a + "|" + b)[|a|] == '|';
  }

  /** The two key spaces cannot alias, and each key names what it should: the slot
      itself, or its day, office and service. */
  lemma KeysNameTheirSlots(g: Granularity, s: Slot, h: Granularity, t: Slot)
    requires CleanSlot(s) && CleanSlot(t)
    ensures KeyOf(g, s).key == KeyOf(h, t).key <==>
              g == h && (if g.PerDay? then WithoutTime(s) == WithoutTime(t) else s == t)
  {
    if KeyOf(g, s).key == KeyOf(h, t).key {
      if g != h {
        // A slot payload has one separator more than a day payload can have.
        var fine, coarse := if g.PerSlot? then s else t, if g.PerSlot? then t else s;
        OneSplit(fine.date, fine.time + "|" + (fine.office + "|" + fine.service), coarse.date,
          coarse.office + "|" + coarse.service, '|');
        OneSplit(fine.time, fine.office + "|" + fine.service, coarse.office, coarse.service, '|');
        BarIn(fine.office, fine.service);
        assert false;
      } else if g.PerDay? {
        OneSplit(s.date, s.office + "|" + s.service, t.date, t.office + "|" + t.service, '|');
        OneSplit(s.office, s.service, t.office, t.service, '|');
      } else {
        OneSplit(s.date, s.time + "|" + (s.office + "|" + s.service), t.date,
          t.time + "|" + (t.office + "|" + t.service), '|');
        OneSplit(s.time, s.office + "|" + s.service, t.time, t.office + "|" + t.service, '|');
        OneSplit(s.office, s.service, t.office, t.service, '|');
      }
    }
  }

  // ---------------------------------------------------------------------
  // The ledger

  /** `best` None: told at an unknown time. */
  datatype SeenRow = SeenRow(best: Option<string>, at: int)
  type Ledger = map<(Id, string), SeenRow>

  /** INSERT, or move the row to a strictly earlier time. A comparison with an
      unknown time is never true. */
  function Record(led: Ledger, sub: Id, k: SeenKey, now: int): Ledger {
    if (sub, k.key) !in led then led[(sub, k.key) := SeenRow(k.best, now)]
    else if k.best.Some? && led[(sub, k.key)].best.Some? && LexLess(k.best.value, led[(sub, k.key)].best.value) then
      led[(sub, k.key) := SeenRow(k.best, now)]
    else led
  }

  predicate Seen(led: Ledger, sub: Id, k: SeenKey) {
    && (sub, k.key) in led
    && (k.best.None? || led[(sub, k.key)].best.None? || AtMost(led[(sub, k.key)].best.value, k.best.value))
  }

  function RecordAll(led: Ledger, sub: Id, keys: seq<SeenKey>, now: int): Ledger
    decreases |keys|
  {
    if keys == [] then led else RecordAll(Record(led, sub, keys[0], now), sub, keys[1..], now)
  }

  // ---------------------------------------------------------------------
  // One record

  lemma RecordedIsSeen(led: Ledger, sub: Id, k: SeenKey, now: int)
    ensures Seen(Record(led, sub, k, now), sub, k)
  {
    if k.best.Some? {
      LexAsymmetric(k.best.value, k.best.value);
    }
  }

  /** Nothing that was seen becomes news by recording more. */
  lemma SeenStays(led: Ledger, sub: Id, k: SeenKey, who: Id, more: SeenKey, now: int)
    requires Seen(led, sub, k)
    ensures Seen(Record(led, who, more, now), sub, k)
  {
    if who == sub && more.key == k.key && k.best.Some? && more.best.Some? && led[(sub, k.key)].best.Some? {
      var row, time := led[(sub, k.key)].best.value, more.best.value;
      if LexLess(time, row) {
        LexAsymmetric(time, row);
        AtMostTransitive(time, row, k.best.value);
      }
    }
  }

  /** Recording what is seen already changes nothing. */
  lemma SeenIsQuiet(led: Ledger, sub: Id, k: SeenKey, now: int)
    requires Seen(led, sub, k)
    ensures Record(led, sub, k, now) == led
  {
  }

  lemma {:induction false} SeenStaysAll(led: Ledger, sub: Id, k: SeenKey, who: Id, keys: seq<SeenKey>, now: int)
    requires Seen(led, sub, k)
    ensures Seen(RecordAll(led, who, keys, now), sub, k)
    decreases |keys|
  {
    if keys != [] {
      SeenStays(led, sub, k, who, keys[0], now);
      SeenStaysAll(Record(led, who, keys[0], now), sub, k, who, keys[1..], now);
    }
  }

  lemma {:induction false} AllRecordedAreSeen(led: Ledger, sub: Id, keys: seq<SeenKey>, k: SeenKey, now: int)
    requires k in keys
    ensures Seen(RecordAll(led, sub, keys, now), sub, k)
    decreases |keys|
  {
    var after := Record(led, sub, keys[0], now);
    if k == keys[0] {
      RecordedIsSeen(led, sub, k, now);
      SeenStaysAll(after, sub, k, sub, keys[1..], now);
    } else {
      AllRecordedAreSeen(after, sub, keys[1..], k, now);
    }
  }

  // ---------------------------------------------------------------------
  // A delivered digest

  function KeysOf(g: Granularity, slots: seq<Slot>): (keys: seq<SeenKey>)
    ensures |keys| == |slots| && forall i :: 0 <= i < |slots| ==> keys[i] == KeyOf(g, slots[i])
  {
    seq(|slots|, i requires 0 <= i < |slots| => KeyOf(g, slots[i]))
  }

  function Told(led: Ledger, sub: Id, g: Granularity, slots: seq<Slot>, now: int): Ledger {
    RecordAll(led, sub, KeysOf(g, slots), now)
  }

  /** What a cycle checks is what its delivery records: at either granularity, no
      slot of a recorded digest is news again. */
  lemma ADigestIsToldOnce(led: Ledger, sub: Id, g: Granularity, slots: seq<Slot>, s: Slot, now: int)
    requires s in slots
    ensures Seen(Told(led, sub, g, slots, now), sub, KeyOf(g, s))
  {
    var i :| 0 <= i < |slots| && slots[i] == s;
    assert KeysOf(g, slots)[i] == KeyOf(g, s);
    AllRecordedAreSeen(led, sub, KeysOf(g, slots), KeyOf(g, s), now);
  }

  // ---------------------------------------------------------------------
  // The earliest time told, whatever the order

  /** The times some records give one row. */
  function TimesFor(key: string, keys: seq<SeenKey>): seq<string> {
    if keys == [] then []
    else if keys[0].key == key && keys[0].best.Some? then [keys[0].best.value] + TimesFor(key, keys[1..])
    else TimesFor(key, keys[1..])
  }

  predicate Earliest(t: string, times: seq<string>) {
    t in times && forall u :: u in times ==> AtMost(t, u)
  }

  lemma TellingMoves(row: string, told: seq<string>, t: string)
    requires Earliest(row, told)
    ensures Earliest(if LexLess(t, row) then t else row, told + [t])
  {
    LexAsymmetric(t, t);
    if LexLess(t, row) {
      LexAsymmetric(t, row);
      forall u | u in told ensures AtMost(t, u) {
        AtMostTransitive(t, row, u);
      }
    }
  }

  lemma {:induction false} RowHoldsTheEarliest(led: Ledger, sub: Id, key: string, keys: seq<SeenKey>, now: int,
                                               told: seq<string>)
    requires (sub, key) in led && led[(sub, key)].best.Some? && Earliest(led[(sub, key)].best.value, told)
    ensures (sub, key) in RecordAll(led, sub, keys, now)
    ensures var row := RecordAll(led, sub, keys, now)[(sub, key)];
      row.best.Some? && Earliest(row.best.value, told + TimesFor(key, keys))
    decreases |keys|
  {
    if keys == [] {
      assert told + TimesFor(key, keys) == told;
    } else {
      var k := keys[0];
      if k.key == key && k.best.Some? {
        TellingMoves(led[(sub, key)].best.value, told, k.best.value);
        RowHoldsTheEarliest(Record(led, sub, k, now), sub, key, keys[1..], now, told + [k.best.value]);
        assert told + [k.best.value] + TimesFor(key, keys[1..]) == told + TimesFor(key, keys);
      } else {
        RowHoldsTheEarliest(Record(led, sub, k, now), sub, key, keys[1..], now, told);
      }
    }
  }

  /** A row that starts with a known time holds the earliest of all the times told,
      in whatever order they were written. */
  lemma ADayHoldsItsEarliestTime(led: Ledger, sub: Id, first: SeenKey, keys: seq<SeenKey>, now: int)
    requires (sub, first.key) !in led && first.best.Some?
    ensures (sub, first.key) in RecordAll(led, sub, [first] + keys, now)
    ensures var row := RecordAll(led, sub, [first] + keys, now)[(sub, first.key)];
      row.best.Some? && Earliest(row.best.value, [first.best.value] + TimesFor(first.key, keys))
  {
    assert ([first] + keys)[1..] == keys;
    LexAsymmetric(first.best.value, first.best.value);
    RowHoldsTheEarliest(Record(led, sub, first, now), sub, first.key, keys, now, [first.best.value]);
  }

  /** A row without a time keeps suppressing its whole day. */
  lemma {:induction false} AnUnknownTimeStays(led: Ledger, sub: Id, key: string, keys: seq<SeenKey>, now: int)
    requires (sub, key) in led && led[(sub, key)].best.None?
    ensures (sub, key) in RecordAll(led, sub, keys, now)
        && RecordAll(led, sub, keys, now)[(sub, key)] == led[(sub, key)]
    decreases |keys|
  {
    if keys != [] {
      AnUnknownTimeStays(Record(led, sub, keys[0], now), sub, key, keys[1..], now);
    }
  }

  // ---------------------------------------------------------------------
  // Runs of digests

  datatype Digest = Digest(sub: Id, g: Granularity, slots: seq<Slot>, at: int)

  /** Every slot was news when the digest was put together. With one poller the
      ledger is still the same when it is recorded. */
  predicate AllNews(led: Ledger, d: Digest) {
    forall i :: 0 <= i < |d.slots| ==> !Seen(led, d.sub, KeyOf(d.g, d.slots[i]))
  }

  function After(led: Ledger, digests: seq<Digest>): Ledger
    decreases |digests|
  {
    if digests == [] then led
    else After(Told(led, digests[0].sub, digests[0].g, digests[0].slots, digests[0].at), digests[1..])
  }

  /** A run of digests, each of news only, with no row pruned meanwhile. */
  predicate NewsRun(led: Ledger, digests: seq<Digest>)
    decreases |digests|
  {
    digests != [] ==>
      && AllNews(led, digests[0])
      && NewsRun(Told(led, digests[0].sub, digests[0].g, digests[0].slots, digests[0].at), digests[1..])
  }

  lemma {:induction false} SeenStaysRun(led: Ledger, digests: seq<Digest>, sub: Id, k: SeenKey)
    requires Seen(led, sub, k)
    ensures Seen(After(led, digests), sub, k)
    decreases |digests|
  {
    if digests != [] {
      var d := digests[0];
      SeenStaysAll(led, sub, k, d.sub, KeysOf(d.g, d.slots), d.at);
      SeenStaysRun(Told(led, d.sub, d.g, d.slots, d.at), digests[1..], sub, k);
    }
  }

  lemma {:induction false} NewsNow(led: Ledger, digests: seq<Digest>, j: nat)
    requires NewsRun(led, digests) && j < |digests|
    ensures AllNews(After(led, digests[..j]), digests[j])
    decreases |digests|
  {
    if j > 0 {
      var d := digests[0];
      NewsNow(Told(led, d.sub, d.g, d.slots, d.at), digests[1..], j - 1);
      assert digests[..j][1..] == digests[1..][..j - 1];
    }
  }

  lemma {:induction false} SeenByThen(led: Ledger, digests: seq<Digest>, i: nat, s: Slot)
    requires i < |digests| && s in digests[i].slots
    ensures Seen(After(led, digests), digests[i].sub, KeyOf(digests[i].g, s))
    decreases |digests|
  {
    var d := digests[0];
    var next := Told(led, d.sub, d.g, d.slots, d.at);
    if i == 0 {
      ADigestIsToldOnce(led, d.sub, d.g, d.slots, s, d.at);
      SeenStaysRun(next, digests[1..], d.sub, KeyOf(d.g, s));
    } else {
      SeenByThen(next, digests[1..], i - 1, s);
    }
  }

  /** Over any run, two digests tell one subscriber about the same key only when it
      is a day, and then the later one only with a strictly earlier time. A slot is
      never told twice. */
  lemma OnlyEarlierIsNewsAgain(led: Ledger, digests: seq<Digest>, i: nat, j: nat, s: Slot, t: Slot)
    requires NewsRun(led, digests) && i < j < |digests|
    requires s in digests[i].slots && t in digests[j].slots && digests[i].sub == digests[j].sub
    requires digests[i].g == digests[j].g && KeyOf(digests[i].g, s).key == KeyOf(digests[j].g, t).key
    ensures digests[i].g.PerDay? && LexLess(t.time, s.time)
  {
    var before := digests[..j];
    NewsNow(led, digests, j);
    SeenByThen(led, before, i, s);
    var m :| 0 <= m < |digests[j].slots| && digests[j].slots[m] == t;
    var row := After(led, before)[(digests[i].sub, KeyOf(digests[i].g, s).key)];
    assert !Seen(After(led, before), digests[j].sub, KeyOf(digests[j].g, t));
    if digests[i].g.PerDay? && !LexLess(t.time, s.time) {
      AtMostTransitive(row.best.value, s.time, t.time);
    }
  }

  /** A day whose row has no time is never told again. */
  lemma AnUnknownTimeIsNeverNews(led: Ledger, digests: seq<Digest>, j: nat, t: Slot)
    requires NewsRun(led, digests) && j < |digests| && t in digests[j].slots
    ensures var row := (digests[j].sub, KeyOf(digests[j].g, t).key);
      row in led ==> led[row].best.Some?
  {
    var sub, k := digests[j].sub, KeyOf(digests[j].g, t);
    NewsNow(led, digests, j);
    var m :| 0 <= m < |digests[j].slots| && digests[j].slots[m] == t;
    if Seen(led, sub, k) {
      SeenStaysRun(led, digests[..j], sub, k);
    }
  }

  // ---------------------------------------------------------------------
  // What is news

  /** Recording writes exactly what is news. */
  lemma RecordWritesNews(led: Ledger, sub: Id, k: SeenKey, now: int)
    ensures Record(led, sub, k, now) ==
              if Seen(led, sub, k) then led else led[(sub, k.key) := SeenRow(k.best, now)]
  {
    if k.best.Some? && (sub, k.key) in led && led[(sub, k.key)].best.Some? {
      LexAsymmetric(k.best.value, led[(sub, k.key)].best.value);
    }
  }

  /** Rows and records of a key have a time, or have none, as the key says. */
  predicate Uniform(led: Ledger, sub: Id, k: SeenKey) {
    (sub, k.key) in led ==> (led[(sub, k.key)].best.Some? <==> k.best.Some?)
  }

  /** Telling about one key makes another one old exactly if it is the same, told no later. */
  predicate Tells(m: SeenKey, k: SeenKey) {
    m.key == k.key && (m.best.Some? && k.best.Some? ==> AtMost(m.best.value, k.best.value))
  }

  lemma OneMoreTold(led: Ledger, who: Id, m: SeenKey, sub: Id, k: SeenKey, now: int)
    requires Uniform(led, sub, k) && (m.key == k.key ==> (m.best.Some? <==> k.best.Some?))
    ensures Uniform(Record(led, who, m, now), sub, k)
    ensures Seen(Record(led, who, m, now), sub, k) <==> Seen(led, sub, k) || (who == sub && Tells(m, k))
  {
    RecordWritesNews(led, who, m, now);
    if who == sub && m.key == k.key && k.best.Some? && (sub, k.key) in led {
      var row := led[(sub, k.key)].best.value;
      LexAsymmetric(row, m.best.value);
      if AtMost(row, m.best.value) && AtMost(m.best.value, k.best.value) {
        AtMostTransitive(row, m.best.value, k.best.value);
      }
      if AtMost(m.best.value, row) && AtMost(row, k.best.value) {
        AtMostTransitive(m.best.value, row, k.best.value);
      }
    }
  }

  lemma {:induction false} AllTold(led: Ledger, who: Id, keys: seq<SeenKey>, sub: Id, k: SeenKey, now: int)
    requires Uniform(led, sub, k)
    requires forall i :: 0 <= i < |keys| && keys[i].key == k.key ==> (keys[i].best.Some? <==> k.best.Some?)
    ensures Uniform(RecordAll(led, who, keys, now), sub, k)
    ensures Seen(RecordAll(led, who, keys, now), sub, k) <==>
              Seen(led, sub, k) || (who == sub && exists i :: 0 <= i < |keys| && Tells(keys[i], k))
    decreases |keys|
  {
    if keys != [] {
      var rest := keys[1..];
      OneMoreTold(led, who, keys[0], sub, k, now);
      assert forall i :: 0 <= i < |rest| ==> rest[i] == keys[i + 1];
      AllTold(Record(led, who, keys[0], now), who, rest, sub, k, now);
      if i :| 0 <= i < |keys| && Tells(keys[i], k) && i > 0 {
        assert Tells(rest[i - 1], k);
      }
    }
  }

  predicate CleanRun(digests: seq<Digest>) {
    forall i, u :: 0 <= i < |digests| && u in digests[i].slots ==> CleanSlot(u)
  }

  /** The digest told the subscriber of this slot: of the slot itself, or, where days
      count, of one at the office and the service that day, no later. */
  predicate ToldBy(d: Digest, sub: Id, g: Granularity, s: Slot) {
    d.sub == sub && d.g == g
    && if g.PerSlot? then s in d.slots
       else exists i :: 0 <= i < |d.slots| && d.slots[i].date == s.date && d.slots[i].office == s.office
              && d.slots[i].service == s.service && AtMost(d.slots[i].time, s.time)
  }

  lemma TellsIs(d: Digest, sub: Id, g: Granularity, s: Slot)
    requires CleanSlot(s) && forall u :: u in d.slots ==> CleanSlot(u)
    ensures d.sub == sub && (exists i :: 0 <= i < |d.slots| && Tells(KeysOf(d.g, d.slots)[i], KeyOf(g, s))) <==>
              ToldBy(d, sub, g, s)
    ensures forall i :: 0 <= i < |d.slots| && KeysOf(d.g, d.slots)[i].key == KeyOf(g, s).key ==>
              (KeysOf(d.g, d.slots)[i].best.Some? <==> KeyOf(g, s).best.Some?)
  {
    forall i | 0 <= i < |d.slots|
      ensures KeysOf(d.g, d.slots)[i].key == KeyOf(g, s).key <==>
                d.g == g && (if g.PerDay? then WithoutTime(d.slots[i]) == WithoutTime(s) else d.slots[i] == s)
    {
      KeysNameTheirSlots(d.g, d.slots[i], g, s);
    }
    if ToldBy(d, sub, g, s) {
      if g.PerSlot? {
        var i :| 0 <= i < |d.slots| && d.slots[i] == s;
        assert Tells(KeysOf(d.g, d.slots)[i], KeyOf(g, s));
      } else {
        var i :| 0 <= i < |d.slots| && d.slots[i].date == s.date && d.slots[i].office == s.office
          && d.slots[i].service == s.service && AtMost(d.slots[i].time, s.time);
        assert Tells(KeysOf(d.g, d.slots)[i], KeyOf(g, s));
      }
    }
  }

  /** Over any run of digests, a slot is old news exactly if one of them told the
      subscriber of it: where slots count, of the slot itself; where days count, of one at
      the same office for the same service that day, at the same time or an earlier one. */
  lemma {:induction false} WhatIsOldNews(digests: seq<Digest>, sub: Id, g: Granularity, s: Slot)
    requires CleanRun(digests) && CleanSlot(s)
    ensures Uniform(After(map[], digests), sub, KeyOf(g, s))
    ensures Seen(After(map[], digests), sub, KeyOf(g, s)) <==>
              exists i :: 0 <= i < |digests| && ToldBy(digests[i], sub, g, s)
    decreases |digests|
  {
    if digests != [] {
      var n := |digests| - 1;
      var d := digests[n];
      WhatIsOldNews(digests[..n], sub, g, s);
      AfterMore(map[], digests[..n], d);
      assert digests == digests[..n] + [d];
      TellsIs(d, sub, g, s);
      AllTold(After(map[], digests[..n]), d.sub, KeysOf(d.g, d.slots), sub, KeyOf(g, s), d.at);
    }
  }

  lemma {:induction false} AfterMore(led: Ledger, digests: seq<Digest>, d: Digest)
    ensures After(led, digests + [d]) == Told(After(led, digests), d.sub, d.g, d.slots, d.at)
    decreases |digests|
  {
    if digests == [] {
      assert [d][1..] == [] && [] + [d] == [d];
    } else {
      var first := digests[0];
      assert (digests + [d])[1..] == digests[1..] + [d];
      AfterMore(Told(led, first.sub, first.g, first.slots, first.at), digests[1..], d);
    }
  }

  // ---------------------------------------------------------------------
  // Repeated keys within a digest

  function FirstSeen(keys: seq<SeenKey>): seq<SeenKey> {
    if keys == [] then []
    else
      var before := FirstSeen(keys[..|keys| - 1]);
      if keys[|keys| - 1] in keys[..|keys| - 1] then before else before + [keys[|keys| - 1]]
  }

  lemma {:induction false} RecordAllAppend(led: Ledger, sub: Id, a: seq<SeenKey>, b: seq<SeenKey>, now: int)
    ensures RecordAll(led, sub, a + b, now) == RecordAll(RecordAll(led, sub, a, now), sub, b, now)
    decreases |a|
  {
    if a == [] {
      assert a + b == b;
    } else {
      assert (a + b)[1..] == a[1..] + b;
      RecordAllAppend(Record(led, sub, a[0], now), sub, a[1..], b, now);
    }
  }

  /** Writing each key once leaves the same rows as writing every slot's. */
  lemma {:induction false} DuplicatesAddNothing(led: Ledger, sub: Id, keys: seq<SeenKey>, now: int)
    ensures RecordAll(led, sub, FirstSeen(keys), now) == RecordAll(led, sub, keys, now)
    decreases |keys|
  {
    if keys != [] {
      var before, last := keys[..|keys| - 1], keys[|keys| - 1];
      assert keys == before + [last];
      DuplicatesAddNothing(led, sub, before, now);
      RecordAllAppend(led, sub, before, [last], now);
      var mid := RecordAll(led, sub, before, now);
      assert [last][1..] == [];
      assert RecordAll(mid, sub, [last], now) == Record(mid, sub, last, now);
      if last in before {
        AllRecordedAreSeen(led, sub, before, last, now);
        SeenIsQuiet(mid, sub, last, now);
      } else {
        RecordAllAppend(led, sub, FirstSeen(before), [last], now);
      }
    }
  }

  // ---------------------------------------------------------------------
  // The table itself

  class SeenSlots {
    var rows: Ledger
    var now: int

    constructor (now: int)
      ensures rows == map[] && this.now == now
    {
      rows, this.now := map[], now;
    }

    method RecordSlot(sub: Id, key: string, best: Option<string>)
      modifies this`rows
      ensures rows == Record(old(rows), sub, SeenKey(key, best), now)
    {
      if (sub, key) !in rows {
        rows := rows[(sub, key) := SeenRow(best, now)];
      } else if best.Some? && rows[(sub, key)].best.Some? && LexLess(best.value, rows[(sub, key)].best.value) {
        rows := rows[(sub, key) := SeenRow(best, now)];
      }
    }

    method HasSeen(sub: Id, key: string, at: Option<string>) returns (told: bool)
      ensures told == Seen(rows, sub, SeenKey(key, at))
    {
      if (sub, key) !in rows {
        return false;
      }
      var best := rows[(sub, key)].best;
      if at.None? || best.None? {
        return true;
      }
      return !LexLess(at.value, best.value);
    }

    /** A delivered digest: each distinct key once. */
    method RecordDigest(sub: Id, keys: seq<SeenKey>)
      modifies this`rows
      ensures rows == RecordAll(old(rows), sub, keys, now)
      ensures forall i :: 0 <= i < |keys| ==> Seen(rows, sub, keys[i])
    {
      var i := 0;
      var written: set<SeenKey> := {};
      while i < |keys|
        invariant 0 <= i <= |keys|
        invariant written == Elements(keys[..i])
        invariant rows == RecordAll(old(rows), sub, FirstSeen(keys[..i]), now)
      {
        assert keys[..i + 1][..i] == keys[..i];
        if keys[i] !in written {
          RecordAllAppend(old(rows), sub, FirstSeen(keys[..i]), [keys[i]], now);
          assert [keys[i]][1..] == [];
          RecordSlot(sub, keys[i].key, keys[i].best);
          written := written + {keys[i]};
        }
        assert keys[..i + 1] == keys[..i] + [keys[i]];
        i := i + 1;
      }
      assert keys[..i] == keys;
      DuplicatesAddNothing(old(rows), sub, keys, now);
      forall j | 0 <= j < |keys| ensures Seen(rows, sub, keys[j]) {
        AllRecordedAreSeen(old(rows), sub, keys, keys[j], now);
      }
    }
  }
}
