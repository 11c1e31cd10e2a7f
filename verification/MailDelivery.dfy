/** One provider call and its bisection (`_deliver` in app/mail.py). */
module MailDelivery {
  import opened Common

  // A provider is an arbitrary oracle: its answer may depend on how many calls were
  // made before and on the items offered, and it may be a status, a verdict per
  // message, an exception (no status), or nonsense. Every call is logged in `offers`,
  // which only the proofs read.

  type Address = nat
  type Key = nat

  datatype Outgoing = Outgoing(to: Address, key: Key)

  /** `status` is None when the call raised; `elapsed` is how long it took. */
  datatype Answer = Answer(status: Option<int>, verdicts: Option<seq<bool>>, elapsed: nat)

  datatype Limit = Limit(max: int, window: nat)

  /** `relay(n, items)` answers the n-th provider call of the process. */
  datatype Provider = Provider(name: string, relay: (nat, seq<Outgoing>) -> Answer,
                               batchSize: nat, limits: seq<Limit>)

  datatype Offer = Offer(provider: string, items: seq<Outgoing>, answer: Answer)

  // ---------------------------------------------------------------------
  // One chunk: believe a verdict per message, else bisect a content rejection

  datatype Delivery = Delivery(sent: seq<Outgoing>, refused: seq<Outgoing>, unusable: bool,
                               offers: seq<Offer>, elapsed: nat)

  predicate Ok(status: Option<int>) {
    status.Some? && 200 <= status.value < 300
  }

  predicate ContentRejected(status: Option<int>) {
    status == Some(400) || status == Some(422)
  }

  /** The verdicts can be trusted to line up with what was sent. */
  predicate Graded(chunk: seq<Outgoing>, a: Answer) {
    a.verdicts.Some? && |a.verdicts.value| == |chunk|
  }

  function Pick(items: seq<Outgoing>, grades: seq<bool>, want: bool): (r: seq<Outgoing>)
    requires |items| == |grades|
    ensures forall x :: x in r ==> x in items
  {
    if items == [] then []
    else if grades[0] == want then [items[0]] + Pick(items[1..], grades[1..], want)
    else Pick(items[1..], grades[1..], want)
  }

  function Deliver(p: Provider, n: nat, chunk: seq<Outgoing>): (d: Delivery)
    requires chunk != []
    decreases |chunk|
  {
    var a := p.relay(n, chunk);
    var offer := Offer(p.name, chunk, a);
    if Graded(chunk, a) then
      Delivery(Pick(chunk, a.verdicts.value, true), Pick(chunk, a.verdicts.value, false), false,
               [offer], a.elapsed)
    else if Ok(a.status) then
      Delivery(chunk, [], false, [offer], a.elapsed)
    else if !ContentRejected(a.status) then
      Delivery([], [], true, [offer], a.elapsed)
    else if |chunk| == 1 then
      Delivery([], chunk, false, [offer], a.elapsed)
    else
      var mid := |chunk| / 2;
      var left := Deliver(p, n + 1, chunk[..mid]);
      if left.unusable then
        Delivery(left.sent, left.refused, true, [offer] + left.offers, a.elapsed + left.elapsed)
      else
        var right := Deliver(p, n + 1 + |left.offers|, chunk[mid..]);
        Delivery(left.sent + right.sent, left.refused + right.refused, right.unusable,
                 [offer] + left.offers + right.offers, a.elapsed + left.elapsed + right.elapsed)
  }

  lemma {:induction false} PickAppend(a: seq<Outgoing>, b: seq<Outgoing>, g: seq<bool>, h: seq<bool>, want: bool)
    requires |a| == |g| && |b| == |h|
    ensures Pick(a + b, g + h, want) == Pick(a, g, want) + Pick(b, h, want)
  {
    if a == [] {
      assert a + b == b && g + h == h;
    } else {
      PickAppend(a[1..], b, g[1..], h, want);
      assert (a + b)[0] == a[0] && (a + b)[1..] == a[1..] + b;
      assert (g + h)[0] == g[0] && (g + h)[1..] == g[1..] + h;
    }
  }

  lemma {:induction false} PickSplits(items: seq<Outgoing>, g: seq<bool>)
    requires |items| == |g|
    ensures multiset(items) == multiset(Pick(items, g, true)) + multiset(Pick(items, g, false))
  {
    if items != [] {
      PickSplits(items[1..], g[1..]);
      assert items == [items[0]] + items[1..];
    }
  }

  lemma {:induction false} PickAll(items: seq<Outgoing>, g: seq<bool>, want: bool)
    requires |items| == |g| && forall i :: 0 <= i < |g| ==> g[i] == want
    ensures Pick(items, g, want) == items && Pick(items, g, !want) == []
  {
    if items != [] {
      PickAll(items[1..], g[1..], want);
      assert items == [items[0]] + items[1..];
    }
  }

  /** `grades` are the verdicts behind `d`: sent and refused are the good and the
      bad items of the graded prefix of the chunk, each in list order, and the
      prefix is the whole chunk exactly when the provider stayed usable. */
  ghost predicate GradesOf(d: Delivery, chunk: seq<Outgoing>, grades: seq<bool>) {
    && |grades| <= |chunk|
    && (d.unusable <==> |grades| < |chunk|)
    && d.sent == Pick(chunk[..|grades|], grades, true)
    && d.refused == Pick(chunk[..|grades|], grades, false)
  }

  lemma WholeChunkGraded(d: Delivery, chunk: seq<Outgoing>, grades: seq<bool>)
    requires |grades| == |chunk| && !d.unusable
    requires d.sent == Pick(chunk, grades, true) && d.refused == Pick(chunk, grades, false)
    ensures GradesOf(d, chunk, grades)
  {
    assert chunk[..|grades|] == chunk;
  }

  lemma HalvesGraded(chunk: seq<Outgoing>, mid: nat, left: Delivery, g: seq<bool>,
                     right: Delivery, h: seq<bool>, d: Delivery)
    requires mid <= |chunk| && GradesOf(left, chunk[..mid], g) && !left.unusable
    requires GradesOf(right, chunk[mid..], h)
    requires d.sent == left.sent + right.sent && d.refused == left.refused + right.refused
    requires d.unusable == right.unusable
    ensures GradesOf(d, chunk, g + h)
  {
    var l, r := chunk[..mid], chunk[mid..][..|h|];
    assert l[..|g|] == l;
    assert chunk[..|g + h|] == l + r;
    PickAppend(l, r, g, h, true);
    PickAppend(l, r, g, h, false);
  }

  /** Whatever the provider answers, what it graded is a prefix of the chunk, and
      nothing past it was touched. */
  lemma {:induction false} DeliverGradesAPrefix(p: Provider, n: nat, chunk: seq<Outgoing>) returns (grades: seq<bool>)
    requires chunk != []
    ensures GradesOf(Deliver(p, n, chunk), chunk, grades)
    decreases |chunk|
  {
    var a := p.relay(n, chunk);
    var d := Deliver(p, n, chunk);
    if Graded(chunk, a) {
      grades := a.verdicts.value;
      WholeChunkGraded(d, chunk, grades);
    } else if Ok(a.status) || (ContentRejected(a.status) && |chunk| == 1) {
      grades := seq(|chunk|, _ => Ok(a.status));
      PickAll(chunk, grades, Ok(a.status));
      WholeChunkGraded(d, chunk, grades);
    } else if !ContentRejected(a.status) {
      grades := [];
    } else {
      var mid := |chunk| / 2;
      var g := DeliverGradesAPrefix(p, n + 1, chunk[..mid]);
      var left := Deliver(p, n + 1, chunk[..mid]);
      if left.unusable {
        grades := g;
        assert chunk[..mid][..|g|] == chunk[..|g|];
      } else {
        var right := Deliver(p, n + 1 + |left.offers|, chunk[mid..]);
        var h := DeliverGradesAPrefix(p, n + 1 + |left.offers|, chunk[mid..]);
        grades := g + h;
        HalvesGraded(chunk, mid, left, g, right, h, d);
      }
    }
  }

  /** For any provider the sent, the refused and the untouched items make up the
      chunk, and nothing is left untouched unless the provider failed. */
  lemma DeliverPartitionsTheChunk(p: Provider, n: nat, chunk: seq<Outgoing>)
    requires chunk != []
    ensures var d := Deliver(p, n, chunk);
      exists h :: && 0 <= h <= |chunk| && (d.unusable <==> h < |chunk|)
                  && multiset(chunk[..h]) == multiset(d.sent) + multiset(d.refused)
                  && multiset(chunk) == multiset(d.sent) + multiset(d.refused) + multiset(chunk[h..])
  {
    var grades := DeliverGradesAPrefix(p, n, chunk);
    PickSplits(chunk[..|grades|], grades);
    assert chunk == chunk[..|grades|] + chunk[|grades|..];
  }

  // ---------------------------------------------------------------------
  // An item the provider accepted is never offered again

  function Accepted(o: Offer): seq<Outgoing> {
    if Graded(o.items, o.answer) then Pick(o.items, o.answer.verdicts.value, true)
    else if Ok(o.answer.status) then o.items
    else []
  }

  function AcceptedIn(offers: seq<Offer>): set<Outgoing> {
    set o, x | o in offers && x in Accepted(o) :: x
  }

  /** Every call's items come from `items`. */
  ghost predicate OffersOnly(offers: seq<Offer>, items: set<Outgoing>) {
    forall o, x :: o in offers && x in o.items ==> x in items
  }

  /** What one call accepted is in no later call. */
  ghost predicate NeverReoffered(offers: seq<Offer>) {
    forall i, j :: 0 <= i < j < |offers| ==>
      forall x :: x in Accepted(offers[i]) ==> x !in offers[j].items
  }

  function Keys(items: seq<Outgoing>): set<Key> {
    set x | x in items :: x.key
  }

  ghost predicate DistinctKeys(items: seq<Outgoing>) {
    forall i, j :: 0 <= i < j < |items| ==> items[i].key != items[j].key
  }

  lemma AcceptedInAppend(a: seq<Offer>, b: seq<Offer>)
    ensures AcceptedIn(a + b) == AcceptedIn(a) + AcceptedIn(b)
  {
    forall x | x in AcceptedIn(a) + AcceptedIn(b) ensures x in AcceptedIn(a + b) {
      if x in AcceptedIn(a) {
        var o :| o in a && x in Accepted(o);
        assert o in a + b;
      } else {
        var o :| o in b && x in Accepted(o);
        assert o in a + b;
      }
    }
  }

  lemma NeverReofferedAppend(a: seq<Offer>, b: seq<Offer>)
    requires NeverReoffered(a) && NeverReoffered(b)
    requires forall o, x :: o in b && x in o.items ==> x !in AcceptedIn(a)
    ensures NeverReoffered(a + b)
  {
    var ab := a + b;
    forall i, j | 0 <= i < j < |ab|
      ensures forall x :: x in Accepted(ab[i]) ==> x !in ab[j].items
    {
      if j < |a| {
        assert ab[i] == a[i] && ab[j] == a[j];
      } else if i < |a| {
        assert ab[i] in a && ab[j] in b;
        assert forall x :: x in Accepted(ab[i]) ==> x in AcceptedIn(a);
      } else {
        assert ab[i] == b[i - |a|] && ab[j] == b[j - |a|];
      }
    }
  }

  /** The log of one delivery: only the chunk is offered, what the calls accepted
      is what is reported sent, and nothing accepted is offered again. */
  ghost predicate Logged(d: Delivery, chunk: seq<Outgoing>) {
    && OffersOnly(d.offers, Elements(chunk))
    && AcceptedIn(d.offers) == Elements(d.sent)
    && NeverReoffered(d.offers)
    && Elements(d.sent) <= Elements(chunk)
  }

  lemma LogOfOneCall(o: Offer, d: Delivery)
    requires d.offers == [o] && d.sent == Accepted(o)
    ensures Logged(d, o.items)
  {
    assert AcceptedIn([o]) == Elements(d.sent) by {
      assert o in [o];
    }
  }

  lemma HalvesShareNothing(items: seq<Outgoing>, mid: nat, x: Outgoing)
    requires mid <= |items| && DistinctKeys(items) && x in items[mid..]
    ensures x !in items[..mid]
  {
    var j :| mid <= j < |items| && items[j] == x;
    assert forall i :: 0 <= i < mid ==> items[i].key != items[j].key;
  }

  /** Splitting: the rejected call accepted nothing, and the halves' logs follow. */
  lemma LogOfHalves(o: Offer, left: Delivery, right: Delivery, mid: nat, d: Delivery)
    requires mid <= |o.items| && Accepted(o) == []
    requires Logged(left, o.items[..mid]) && Logged(right, o.items[mid..])
    requires DistinctKeys(o.items)
    requires d.offers == [o] + left.offers + right.offers && d.sent == left.sent + right.sent
    ensures Logged(d, o.items)
  {
    var l, r := o.items[..mid], o.items[mid..];
    assert o.items == l + r;
    assert AcceptedIn([o]) == {};
    NeverReofferedAppend([o], left.offers);
    AcceptedInAppend([o], left.offers);
    forall q, x | q in right.offers && x in q.items ensures x !in AcceptedIn([o] + left.offers) {
      assert x in Elements(r);
      HalvesShareNothing(o.items, mid, x);
    }
    NeverReofferedAppend([o] + left.offers, right.offers);
    AcceptedInAppend([o] + left.offers, right.offers);
    forall q, x | q in d.offers && x in q.items ensures x in Elements(o.items) {
      if q in left.offers {
        assert x in Elements(l);
      } else if q in right.offers {
        assert x in Elements(r);
      }
    }
  }

  lemma {:induction false} DeliverNeverReoffers(p: Provider, n: nat, chunk: seq<Outgoing>)
    requires chunk != [] && DistinctKeys(chunk)
    ensures Logged(Deliver(p, n, chunk), chunk)
    decreases |chunk|
  {
    var a := p.relay(n, chunk);
    var o := Offer(p.name, chunk, a);
    var d := Deliver(p, n, chunk);
    if Graded(chunk, a) || !ContentRejected(a.status) || |chunk| == 1 {
      LogOfOneCall(o, d);
    } else {
      var mid := |chunk| / 2;
      var left := Deliver(p, n + 1, chunk[..mid]);
      DeliverNeverReoffers(p, n + 1, chunk[..mid]);
      if left.unusable {
        var none := Delivery([], [], true, [], 0);
        assert AcceptedIn([]) == {};
        assert [o] + left.offers + [] == d.offers && left.sent + [] == d.sent;
        LogOfHalves(o, left, none, mid, d);
      } else {
        DeliverNeverReoffers(p, n + 1 + |left.offers|, chunk[mid..]);
        LogOfHalves(o, left, Deliver(p, n + 1 + |left.offers|, chunk[mid..]), mid, d);
      }
    }
  }

  // ---------------------------------------------------------------------
  // Bisection isolates the bad recipients in few calls

  /** No verdict per message: the whole call is rejected exactly when one of its
      recipients is bad. */
  ghost predicate AllOrNothing(p: Provider, bad: set<Address>) {
    forall n, items {:trigger p.relay(n, items)} ::
      && p.relay(n, items).verdicts.None?
      && p.relay(n, items).status == Some(if Healthy(items, bad) == items then 200 else 400)
  }

  function Healthy(items: seq<Outgoing>, bad: set<Address>): seq<Outgoing> {
    if items == [] then []
    else if items[0].to in bad then Healthy(items[1..], bad)
    else [items[0]] + Healthy(items[1..], bad)
  }

  function Sick(items: seq<Outgoing>, bad: set<Address>): seq<Outgoing> {
    if items == [] then []
    else if items[0].to in bad then [items[0]] + Sick(items[1..], bad)
    else Sick(items[1..], bad)
  }

  /** The ceiling of the binary logarithm, see `CeilLog2IsTheCeiling`. */
  function CeilLog2(n: nat): nat
    requires n >= 1
  {
    if n == 1 then 0 else 1 + CeilLog2((n + 1) / 2)
  }

  function Pow2(k: nat): nat {
    if k == 0 then 1 else 2 * Pow2(k - 1)
  }

  lemma {:induction false} CeilLog2IsTheCeiling(n: nat)
    requires n >= 1
    ensures n <= Pow2(CeilLog2(n))
    ensures n > 1 ==> Pow2(CeilLog2(n) - 1) < n
  {
    if n > 1 {
      CeilLog2IsTheCeiling((n + 1) / 2);
    }
  }

  lemma {:induction false} CeilLog2Monotone(a: nat, b: nat)
    requires 1 <= a <= b
    ensures CeilLog2(a) <= CeilLog2(b)
  {
    if a > 1 {
      CeilLog2Monotone((a + 1) / 2, (b + 1) / 2);
    }
  }

  lemma {:induction false} HealthyAppend(a: seq<Outgoing>, b: seq<Outgoing>, bad: set<Address>)
    ensures Healthy(a + b, bad) == Healthy(a, bad) + Healthy(b, bad)
  {
    if a == [] {
      assert a + b == b;
    } else {
      HealthyAppend(a[1..], b, bad);
      assert (a + b)[0] == a[0] && (a + b)[1..] == a[1..] + b;
      var h, t := Healthy(a[1..], bad), Healthy(b, bad);
      assert [a[0]] + (h + t) == ([a[0]] + h) + t;
    }
  }

  lemma {:induction false} SickAppend(a: seq<Outgoing>, b: seq<Outgoing>, bad: set<Address>)
    ensures Sick(a + b, bad) == Sick(a, bad) + Sick(b, bad)
  {
    if a == [] {
      assert a + b == b;
    } else {
      SickAppend(a[1..], b, bad);
      assert (a + b)[0] == a[0] && (a + b)[1..] == a[1..] + b;
      var h, t := Sick(a[1..], bad), Sick(b, bad);
      assert [a[0]] + (h + t) == ([a[0]] + h) + t;
    }
  }

  lemma {:induction false} HealthCounts(items: seq<Outgoing>, bad: set<Address>)
    ensures |Healthy(items, bad)| + |Sick(items, bad)| == |items|
    ensures Sick(items, bad) == [] <==> Healthy(items, bad) == items
  {
    if items != [] {
      HealthCounts(items[1..], bad);
      assert items == [items[0]] + items[1..];
      if Healthy(items, bad) == items {
        assert |Sick(items, bad)| == 0;
      }
    }
  }

  /** The call bound for n items with k bad ones: 1 + 2k * ceil(log2 n). */
  function CallBound(k: nat, n: nat): nat
    requires n >= 1
  {
    1 + 2 * (k * CeilLog2(n))
  }

  lemma MulMonotone(k: nat, x: nat, y: nat)
    requires x <= y
    ensures k * x <= k * y
  {
    assert k * (y - x) >= 0;
  }

  lemma CallBoundStep(k1: nat, k2: nat, m: nat)
    requires k1 + k2 >= 1
    ensures 3 + 2 * (k1 * m) + 2 * (k2 * m) <= 1 + 2 * ((k1 + k2) * (m + 1))
  {
    assert (k1 + k2) * (m + 1) == k1 * m + k2 * m + k1 + k2;
  }

  lemma BisectionCost(k1: nat, k2: nat, n: nat)
    requires n > 1 && k1 + k2 >= 1
    ensures 1 + CallBound(k1, n / 2) + CallBound(k2, (n + 1) / 2) <= CallBound(k1 + k2, n)
  {
    var m := CeilLog2((n + 1) / 2);
    CeilLog2Monotone(n / 2, (n + 1) / 2);
    MulMonotone(k1, CeilLog2(n / 2), m);
    CallBoundStep(k1, k2, m);
  }

  ghost predicate Isolated(d: Delivery, chunk: seq<Outgoing>, bad: set<Address>)
    requires chunk != []
  {
    && d.sent == Healthy(chunk, bad)
    && d.refused == Sick(chunk, bad)
    && !d.unusable
    && |d.offers| <= CallBound(|Sick(chunk, bad)|, |chunk|)
  }

  lemma HalvesIsolate(chunk: seq<Outgoing>, l: seq<Outgoing>, r: seq<Outgoing>, bad: set<Address>,
                      left: Delivery, right: Delivery, d: Delivery)
    requires chunk == l + r && l != [] && |l| <= |r| <= |l| + 1 && Sick(chunk, bad) != []
    requires Isolated(left, l, bad) && Isolated(right, r, bad)
    requires d.sent == left.sent + right.sent && d.refused == left.refused + right.refused
    requires !d.unusable && |d.offers| == 1 + |left.offers| + |right.offers|
    ensures Isolated(d, chunk, bad)
  {
    assert d.sent == Healthy(chunk, bad) by { HealthyAppend(l, r, bad); }
    assert d.refused == Sick(chunk, bad) by { SickAppend(l, r, bad); }
    var k1, k2, n := |left.refused|, |right.refused|, |l| + |r|;
    assert |d.offers| <= CallBound(k1 + k2, n) by {
      assert |l| == n / 2 && |r| == (n + 1) / 2;
      BisectionCost(k1, k2, n);
    }
  }

  lemma {:induction false} OneCallIsolates(p: Provider, n: nat, chunk: seq<Outgoing>, bad: set<Address>)
    requires chunk != [] && AllOrNothing(p, bad)
    requires Healthy(chunk, bad) == chunk || |chunk| == 1
    ensures Isolated(Deliver(p, n, chunk), chunk, bad)
  {
    var a := p.relay(n, chunk);
    HealthCounts(chunk, bad);
    if Healthy(chunk, bad) == chunk {
      assert Ok(a.status);
    } else {
      assert Sick(chunk, bad) == chunk;
    }
  }

  /** A rejected chunk of two or more, once its left half went through. */
  lemma DeliverBisects(p: Provider, n: nat, chunk: seq<Outgoing>, l: seq<Outgoing>, r: seq<Outgoing>)
    requires chunk == l + r && l != [] && |l| <= |r| <= |l| + 1
    requires p.relay(n, chunk).verdicts.None? && ContentRejected(p.relay(n, chunk).status)
    requires !Deliver(p, n + 1, l).unusable
    ensures var left := Deliver(p, n + 1, l);
            var right := Deliver(p, n + 1 + |left.offers|, r);
            var d := Deliver(p, n, chunk);
      && d.sent == left.sent + right.sent && d.refused == left.refused + right.refused
      && d.unusable == right.unusable && |d.offers| == 1 + |left.offers| + |right.offers|
  {
    assert |chunk| / 2 == |l| && chunk[..|l|] == l && chunk[|l|..] == r;
  }

  lemma HalvesTogether(p: Provider, n: nat, chunk: seq<Outgoing>, l: seq<Outgoing>, r: seq<Outgoing>, bad: set<Address>)
    requires AllOrNothing(p, bad) && Healthy(chunk, bad) != chunk
    requires chunk == l + r && l != [] && |l| <= |r| <= |l| + 1
    requires Isolated(Deliver(p, n + 1, l), l, bad)
    requires Isolated(Deliver(p, n + 1 + |Deliver(p, n + 1, l).offers|, r), r, bad)
    ensures Isolated(Deliver(p, n, chunk), chunk, bad)
  {
    assert ContentRejected(p.relay(n, chunk).status);
    DeliverBisects(p, n, chunk, l, r);
    HealthCounts(chunk, bad);
    HalvesIsolate(chunk, l, r, bad, Deliver(p, n + 1, l), Deliver(p, n + 1 + |Deliver(p, n + 1, l).offers|, r),
      Deliver(p, n, chunk));
  }

  lemma Halves(chunk: seq<Outgoing>) returns (l: seq<Outgoing>, r: seq<Outgoing>)
    requires |chunk| > 1
    ensures chunk == l + r && l != [] && |l| <= |r| <= |l| + 1 && |r| < |chunk|
  {
    l, r := chunk[..|chunk| / 2], chunk[|chunk| / 2..];
  }

  /** Every shorter chunk is isolated, whichever call it starts with. */
  ghost predicate ShorterIsolate(p: Provider, length: nat, bad: set<Address>) {
    forall n, part {:trigger Deliver(p, n, part)} ::
      part != [] && |part| < length ==> Isolated(Deliver(p, n, part), part, bad)
  }

  lemma SplitIsolates(p: Provider, n: nat, chunk: seq<Outgoing>, bad: set<Address>)
    requires |chunk| > 1 && AllOrNothing(p, bad) && Healthy(chunk, bad) != chunk
    requires ShorterIsolate(p, |chunk|, bad)
    ensures Isolated(Deliver(p, n, chunk), chunk, bad)
  {
    var l, r := Halves(chunk);
    HalvesTogether(p, n, chunk, l, r, bad);
  }

  /** Against an all-or-nothing provider the good recipients get their mail, in
      order, exactly the bad ones are refused, and n items with k bad ones take at
      most 1 + 2k * ceil(log2 n) calls. */
  lemma {:induction false} BisectionIsolates(p: Provider, n: nat, chunk: seq<Outgoing>, bad: set<Address>)
    requires chunk != [] && AllOrNothing(p, bad)
    ensures Isolated(Deliver(p, n, chunk), chunk, bad)
    decreases |chunk|
  {
    if Healthy(chunk, bad) == chunk || |chunk| == 1 {
      OneCallIsolates(p, n, chunk, bad);
    } else {
      forall m, part | part != [] && |part| < |chunk| ensures Isolated(Deliver(p, m, part), part, bad) {
        BisectionIsolates(p, m, part, bad);
      }
      SplitIsolates(p, n, chunk, bad);
    }
  }
}
