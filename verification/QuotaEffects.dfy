/**
 What each ledger operation does, said on the buckets, the live table and the tickets alone: what is
 recorded, reserved, given back and committed, on which object, and what stays as it was.
 */
module QuotaEffects {
  import opened Base
  import opened QuotaSpec
  import opened QuotaInvariant
  import QuotaRun

  /** No part of the key is empty. */
  predicate Named(k: Key) {
    k.provider != "" && k.scope != "" && k.modelOrPool != "" && k.dimension != "" && k.window != ""
  }

  /** The key has a bucket whose reset has not come. */
  predicate Shows<B>(l: Ledger<B>, k: Key, now: int)
    requires Closed(l)
  {
    k in l.live && var o := l.heap[l.live[k]].observation; o.resetAt == 0 || now < o.resetAt
  }

  /** `o` is the report as the ledger keeps it: remaining is at most the limit, and it has a time. */
  predicate Keeps(o: Observation, report: Observation, now: int) {
    && o.limit == report.limit && o.remaining == Min(report.remaining, report.limit)
    && o.observedAt == (if report.observedAt == 0 then now else report.observedAt)
    && o.resetAt == report.resetAt && o.source == report.source && o.confidence == report.confidence
  }

  predicate Over(o: Observation, now: int) {
    o.resetAt != 0 && o.resetAt <= now
  }

  /** Nothing about the key has changed: neither its live bucket nor any object made for it. */
  ghost predicate SameAt<B>(l: Ledger<B>, l': Ledger<B>, k: Key) {
    && (k in l.live <==> k in l'.live) && (k in l.live ==> l'.live[k] == l.live[k])
    && (forall b | b in l.heap && l.heap[b].key == k :: b in l'.heap && l'.heap[b] == l.heap[b])
    && (forall b | b in l'.heap && l'.heap[b].key == k :: b in l.heap && l.heap[b] == l'.heap[b])
  }

  /** The same, except that a bucket whose reset has come is no longer live. */
  ghost predicate Ages<B>(l: Ledger<B>, l': Ledger<B>, k: Key, now: int)
    requires Closed(l)
  {
    && (k in l'.live <==> Shows(l, k, now)) && (k in l'.live ==> l'.live[k] == l.live[k])
    && (forall b | b in l.heap && l.heap[b].key == k :: b in l'.heap && l'.heap[b] == l.heap[b])
    && (forall b | b in l'.heap && l'.heap[b].key == k :: b in l.heap && l.heap[b] == l'.heap[b])
  }

  lemma PurgeAges<B>(l: Ledger<B>, now: int, k: Key)
    requires Closed(l)
    ensures Ages(l, Purge(l, now), k, now)
  {
  }

  // ---- observing and looking ----

  /**
   An observation is taken exactly if it is well formed and its reset is still to come. Then it is what the
   key's live bucket holds; a bucket that was there keeps its reservations and its probe, a new one has none.
   One whose reset has come removes the bucket.
   */
  lemma ObserveEffect<B>(l: Ledger<B>, k: Key, o: Observation, now: int, spare: B)
    requires Closed(l) && spare !in l.heap
    ensures var (l', ok) := Observe(l, k, o, now, spare);
      && (ok <==> Named(k) && o.limit >= 0 && o.remaining >= 0 && !Over(o, now))
      && (!Named(k) || o.limit < 0 || o.remaining < 0 ==> l' == l)
      && (Named(k) && o.limit >= 0 && o.remaining >= 0 && Over(o, now) ==> k !in l'.live && l'.heap == l.heap)
      && (ok ==>
            && k in l'.live && l'.live[k] in l'.heap && var x := l'.heap[l'.live[k]];
            && Keeps(x.observation, o, now) && x.key == k
            && (if Shows(l, k, now)
                then
                  var y := l.heap[l.live[k]];
                  l'.live[k] == l.live[k] && x.reserved == y.reserved && x.probeSettled == y.probeSettled
                else
                  l'.live[k] !in l.heap && x.reserved == 0 && !x.probeSettled))
  {
    if k in l.live {
      LiveIsClosed(l, k);
    }
    hide HoldsClosed;
  }

  /** No other key, no other object and no ticket is touched by an observation, but for expiry. */
  lemma ObserveElsewhere<B>(l: Ledger<B>, k: Key, o: Observation, now: int, spare: B)
    requires Closed(l) && spare !in l.heap
    ensures var l' := Observe(l, k, o, now, spare).0;
      && l'.tickets == l.tickets && l'.nextTicketId == l.nextTicketId
      && (forall b | b in l.heap && (k in l'.live ==> b != l'.live[k]) :: b in l'.heap && l'.heap[b] == l.heap[b])
      && (l' != l ==> forall j | j != k :: Ages(l, l', j, now))
  {
    if k in l.live {
      LiveIsClosed(l, k);
    }
    hide HoldsClosed, Normalise;
    var l' := Observe(l, k, o, now, spare).0;
    if l' != l {
      forall j | j != k ensures Ages(l, l', j, now) {
        PurgeAges(l, now, j);
      }
    }
  }

  /**
   A snapshot shows a bucket exactly if it is live, its reset has not come, and it is not a minute bucket
   without a reset from an earlier minute. What it shows as available is what remains after the
   reservations, and never negative. Looking removes what it does not show and touches nothing else.
   */
  lemma SnapshotEffect<B>(l: Ledger<B>, k: Key, now: int)
    requires Inv(l)
    ensures var (l', view) := Snapshot(l, k, now);
      && (view.Some? <==>
            Shows(l, k, now) && var o := l.heap[l.live[k]].observation;
            !(k.window == "minute" && o.resetAt == 0 && o.observedAt != 0 && o.observedAt / MINUTE < now / MINUTE))
      && (view.Some? ==>
            var x, v := l.heap[l.live[k]], view.value;
            && v.observation == x.observation && v.reserved == x.reserved && v.probeSettled == x.probeSettled
            && v.available == Max(0, x.observation.remaining - x.reserved))
      && l'.heap == l.heap && l'.tickets == l.tickets && l'.nextTicketId == l.nextTicketId
      && (k in l'.live <==> view.Some?) && (k in l'.live ==> l'.live[k] == l.live[k])
      && forall j | j != k :: Ages(l, l', j, now)
  {
    if k in l.live {
      assert BucketOk(l.heap[l.live[k]]);
    }
    forall j | j != k ensures Ages(l, Snapshot(l, k, now).0, j, now) {
      PurgeAges(l, now, j);
    }
  }

  // ---- reserving and releasing ----

  /** The key's bucket lets the cost through: it covers it, or it is an unconfirmed estimate nobody has tried. */
  predicate LetsThrough<B>(l: Ledger<B>, k: Key, cost: int, now: int)
    requires Closed(l)
  {
    Shows(l, k, now) ==>
      var x := l.heap[l.live[k]];
      || cost <= x.observation.remaining - x.reserved
      || (x.observation.confidence == Estimated && x.reserved == 0 && !x.probeSettled)
  }

  /** What is asked of one key adds up over the parts of a request. */
  lemma {:induction false} TotalAdds(a: seq<Reservation>, b: seq<Reservation>, k: Key)
    ensures Total(a + b, k) == Total(a, k) + Total(b, k)
    ensures forall r: Reservation :: Total([r], k) == if r.key == k && r.cost > 0 then r.cost else 0
  {
    forall r: Reservation ensures Total([r], k) == if r.key == k && r.cost > 0 then r.cost else 0 {
      assert [r][..0] == [];
    }
    if b == [] {
      assert a + b == a;
    } else {
      var n := |b| - 1;
      TotalAdds(a, b[..n], k);
      assert (a + b)[..|a| + n] == a + b[..n];
    }
  }

  lemma InBudgetIff(x: Bucket, cost: Amount)
    requires BucketOk(x)
    ensures InBudget(x, cost) <==> cost <= x.observation.remaining - x.reserved
  {
  }

  /**
   A reservation is granted exactly if the request is in order and every bucket it asks of lets its share
   through. So a confirmed bucket never has more reserved than remains.
   */
  lemma ReserveGrants<B>(l: Ledger<B>, rs: seq<Reservation>, now: int)
    requires Inv(l)
    ensures ReserveAll(l, rs, now).1.Some? <==>
      && (forall i | 0 <= i < |rs| :: Named(rs[i].key) && rs[i].cost >= 0 && Total(rs, rs[i].key) <= MAX64)
      && forall i | 0 <= i < |rs| && rs[i].cost > 0 :: LetsThrough(l, rs[i].key, Total(rs, rs[i].key), now)
  {
    AcceptableIff(rs);
    hide Inv, Total, Acceptable, Purge;
    InvIsClosed(l);
    if Acceptable(rs) {
      AdmittedAllIff(l, rs, now);
    }
  }

  /** Every charged key is admitted exactly if every bucket asked of lets its share through. */
  lemma AdmittedAllIff<B>(l: Ledger<B>, rs: seq<Reservation>, now: int)
    requires Inv(l) && Acceptable(rs)
    ensures (forall k | k in Amounts(rs) :: Admits(Purge(l, now), k, Amounts(rs)[k])) <==>
      forall i | 0 <= i < |rs| && rs[i].cost > 0 :: LetsThrough(l, rs[i].key, Total(rs, rs[i].key), now)
  {
    forall i | 0 <= i < |rs| && rs[i].cost > 0
      ensures rs[i].key in Amounts(rs) && Amounts(rs)[rs[i].key] == Total(rs, rs[i].key) <= MAX64
      ensures Admits(Purge(l, now), rs[i].key, Amounts(rs)[rs[i].key]) <==>
              LetsThrough(l, rs[i].key, Total(rs, rs[i].key), now)
    {
      AmountAsked(rs, i);
      AdmitsIff(l, rs[i].key, Total(rs, rs[i].key), now);
    }
    hide Inv, Total, LetsThrough, Admits, Amounts, Purge;
    forall k | k in Amounts(rs) ensures exists i :: 0 <= i < |rs| && rs[i].cost > 0 && rs[i].key == k {
      AskedFor(rs, k);
    }
  }

  lemma AmountAsked(rs: seq<Reservation>, i: nat)
    requires Acceptable(rs) && i < |rs| && rs[i].cost > 0
    ensures rs[i].key in Amounts(rs) && Amounts(rs)[rs[i].key] == Total(rs, rs[i].key) <= MAX64
  {
    assert EntryOk(rs, i);
  }

  lemma AskedFor(rs: seq<Reservation>, k: Key)
    requires Acceptable(rs) && k in Amounts(rs)
    ensures exists i :: 0 <= i < |rs| && rs[i].cost > 0 && rs[i].key == k
  {
    var i :| 0 <= i < |rs| && rs[i].cost != 0 && rs[i].key == k;
    assert EntryOk(rs, i);
  }

  lemma AcceptableIff(rs: seq<Reservation>)
    ensures Acceptable(rs) <==>
      forall i | 0 <= i < |rs| :: Named(rs[i].key) && rs[i].cost >= 0 && Total(rs, rs[i].key) <= MAX64
  {
    hide Total;
    if Acceptable(rs) {
      forall i | 0 <= i < |rs| ensures Named(rs[i].key) && rs[i].cost >= 0 && Total(rs, rs[i].key) <= MAX64 {
        assert EntryOk(rs, i);
      }
    }
  }

  lemma AdmitsIff<B>(l: Ledger<B>, k: Key, cost: Amount, now: int)
    requires Inv(l)
    ensures Admits(Purge(l, now), k, cost) <==> LetsThrough(l, k, cost, now)
  {
    if k in l.live {
      assert BucketOk(l.heap[l.live[k]]);
      InBudgetIff(l.heap[l.live[k]], cost);
    }
  }

  /**
   The new ticket of a granted reservation holds exactly the keys asked for, each with its total and on the
   object that was live, and no other ticket changes.
   */
  lemma ReserveHolds<B>(l: Ledger<B>, rs: seq<Reservation>, now: int)
    requires Inv(l) && ReserveAll(l, rs, now).1.Some?
    ensures var (l', t) := ReserveAll(l, rs, now);
      && t == Some(l.nextTicketId + 1) && l'.nextTicketId == l.nextTicketId + 1 && t.value !in l.tickets
      && t.value in l'.tickets && l'.tickets - {t.value} == l.tickets
      && var holds := l'.tickets[t.value];
      && (forall k :: k in holds <==> exists i :: 0 <= i < |rs| && rs[i].key == k && rs[i].cost != 0)
      && (forall k | k in holds ::
            && holds[k].cost == Total(rs, k)
            && holds[k].bucket == if Shows(l, k, now) then Some(l.live[k]) else None)
  {
    hide Exact, TicketsOk;
    var p := Purge(l, now);
    HoldsAre(l, rs, now);
    hide HoldsFor, Amounts, Total, Admits, ChargeAll, Acceptable;
    var id := l.nextTicketId + 1;
    assert id !in l.tickets by { NewIsUnused(l); }
    assert l.tickets[id := HoldsFor(p, Amounts(rs))] - {id} == l.tickets;
  }

  lemma NewIsUnused<B>(l: Ledger<B>)
    requires Inv(l)
    ensures l.nextTicketId + 1 !in l.tickets
  {
  }

  lemma HoldsAre<B>(l: Ledger<B>, rs: seq<Reservation>, now: int)
    requires Closed(l) && Acceptable(rs)
    ensures var holds := HoldsFor(Purge(l, now), Amounts(rs));
      && (forall k :: k in holds <==> exists i :: 0 <= i < |rs| && rs[i].key == k && rs[i].cost != 0)
      && (forall k | k in holds ::
            && holds[k].cost == Total(rs, k)
            && holds[k].bucket == if Shows(l, k, now) then Some(l.live[k]) else None)
  {
  }

  /** On the buckets it adds exactly those totals; no observation, no probe and no other bucket changes. */
  lemma ReserveCharges<B>(l: Ledger<B>, rs: seq<Reservation>, now: int, b: B)
    requires Inv(l) && ReserveAll(l, rs, now).1.Some? && b in l.heap
    ensures var (l', t) := ReserveAll(l, rs, now);
      && l'.heap.Keys == l.heap.Keys && t.value in l'.tickets
      && (forall k :: k in l'.live <==> Shows(l, k, now)) && (forall k | k in l'.live :: l'.live[k] == l.live[k])
      && var x, y, holds := l.heap[b], l'.heap[b], l'.tickets[t.value];
      && y == x.(reserved := y.reserved)
      && y.reserved == x.reserved + if x.key in holds && holds[x.key].bucket == Some(b) then Total(rs, x.key) else 0
  {
    hide Exact, Total, TicketsOk;
    var p, amounts := Purge(l, now), Amounts(rs);
    assert ReserveAll(l, rs, now).0.heap[b] == Charge(p, amounts, b);
    var k := l.heap[b].key;
    if k in amounts && k in p.live && p.live[k] == b {
      assert Admits(p, k, amounts[k]);
      ChargeOk(p.heap[b], amounts[k]);
    }
  }

  /**
   A release is taken exactly if the ticket is outstanding. It gives back each hold on the object it was
   taken on, and neither an observation nor a probe changes.
   */
  lemma ReleaseEffect<B>(l: Ledger<B>, t: nat, now: int)
    requires Inv(l)
    ensures var (l', ok) := Release(l, t, now);
      && (ok <==> t in l.tickets) && l'.tickets == l.tickets - {t} && l'.nextTicketId == l.nextTicketId
      && l'.heap.Keys == l.heap.Keys
      && (ok ==> (forall k :: k in l'.live <==> Shows(l, k, now)) && forall k | k in l'.live :: l'.live[k] == l.live[k])
      && forall b | b in l.heap ::
            var x, y := l.heap[b], l'.heap[b];
            && y == x.(reserved := y.reserved)
            && y.reserved == x.reserved - GivenBack(l, t, b)
  {
    hide Exact;
    if t in l.tickets {
      forall b | b in l.heap && HoldsOn(l.tickets[t], l.heap[b].key, b)
        ensures l.tickets[t][l.heap[b].key].cost <= l.heap[b].reserved
      {
        HoldWithinReserved(l, t, l.heap[b].key);
      }
    }
  }

  /** What ticket `t` holds on object `b`. */
  function GivenBack<B(==)>(l: Ledger<B>, t: nat, b: B): Amount
    requires b in l.heap
  {
    var k := l.heap[b].key;
    if t in l.tickets && k in l.tickets[t] && l.tickets[t][k].bucket == Some(b) then l.tickets[t][k].cost else 0
  }

  // ---- settling ----

  /** What a settlement commits on a key it has no report for: the usage it names, or else what was held. */
  function Usage<B>(hold: Hold<B>, s: Option<Settlement>): Int64 {
    if s.Some? then s.value.actual else hold.cost
  }

  ghost predicate HasReport(s: Option<Settlement>) {
    s.Some? && s.value.observation.Some?
  }

  /** The hold is given back on its object, which has now served a request. */
  ghost predicate GivesBack<B>(l: Ledger<B>, l': Ledger<B>, hold: Hold<B>) {
    hold.bucket.Some? ==>
      var b := hold.bucket.value;
      && b in l.heap && b in l'.heap && l'.heap[b].key == l.heap[b].key
      && l'.heap[b].reserved == l.heap[b].reserved - hold.cost && l'.heap[b].probeSettled
  }

  /** Without a report: the usage leaves the held object's remaining, which stops at zero. */
  ghost predicate CommitsUsage<B>(l: Ledger<B>, l': Ledger<B>, k: Key, hold: Hold<B>, usage: int) {
    && (k in l.live <==> k in l'.live) && (k in l.live ==> l'.live[k] == l.live[k])
    && (hold.bucket.Some? ==>
          var b := hold.bucket.value;
          b in l.heap && b in l'.heap && var o, o' := l.heap[b].observation, l'.heap[b].observation;
          o'.remaining == Max(0, o.remaining - usage) && o' == o.(remaining := o'.remaining))
  }

  /** With a report: the key's live bucket holds it, or is gone if its reset has come. */
  ghost predicate TakesReport<B>(l: Ledger<B>, l': Ledger<B>, k: Key, hold: Hold<B>, report: Observation, now: int) {
    && (k in l'.live <==> !Over(report, now))
    && (k in l'.live ==>
          && l'.live[k] in l'.heap && l'.heap[l'.live[k]].key == k
          && Keeps(l'.heap[l'.live[k]].observation, report, now)
          && (k in l.live ==> l'.live[k] == l.live[k])
          && (k !in l.live ==>
                l'.live[k] !in l.heap && l'.heap[l'.live[k]].reserved == 0 && !l'.heap[l'.live[k]].probeSettled))
    && (hold.bucket.Some? && (k in l'.live ==> l'.live[k] != hold.bucket.value) ==>
          var b := hold.bucket.value;
          b in l.heap && b in l'.heap && l'.heap[b].observation == l.heap[b].observation)
  }

  /** Objects of the key other than the held one and the one that took a report stay as they were. */
  ghost predicate SparesOthers<B>(l: Ledger<B>, l': Ledger<B>, k: Key, hold: Hold<B>, reported: bool) {
    forall b | b in l.heap && l.heap[b].key == k && hold.bucket != Some(b) ::
      && b in l'.heap && l'.heap[b] == l.heap[b].(observation := l'.heap[b].observation)
      && (!(reported && k in l'.live && l'.live[k] == b) ==> l'.heap[b] == l.heap[b])
  }

  /** Everything one key's settlement does. */
  ghost predicate Settled<B>(l: Ledger<B>, l': Ledger<B>, k: Key, hold: Hold<B>, s: Option<Settlement>, now: int) {
    && GivesBack(l, l', hold) && SparesOthers(l, l', k, hold, HasReport(s))
    && (!HasReport(s) ==> CommitsUsage(l, l', k, hold, Usage(hold, s)))
    && (HasReport(s) ==> TakesReport(l, l', k, hold, s.value.observation.value, now))
  }

  function Find(table: map<Key, Settlement>, k: Key): Option<Settlement> {
    if k in table then Some(table[k]) else None
  }

  lemma ConfirmEffect<B>(l: Ledger<B>, t: nat, k: Key)
    requires Inv(l) && Owns(l, t, k)
    ensures var c, hold := Confirm(l, t, k), l.tickets[t][k];
      && c.live == l.live && c.heap.Keys == l.heap.Keys && GivesBack(l, c, hold)
      && (forall b | b in l.heap :: c.heap[b].observation == l.heap[b].observation && c.heap[b].key == l.heap[b].key)
      && (forall b | b in l.heap && hold.bucket != Some(b) :: c.heap[b] == l.heap[b])
      && (hold.bucket.Some? ==> PointsTo(l.heap, k, hold.bucket.value) && BucketOk(l.heap[hold.bucket.value]))
  {
    hide Exact, TicketsOk;
    assert HoldsClosed(l.heap, l.tickets[t]);
    if l.tickets[t][k].bucket.Some? {
      HoldWithinReserved(l, t, k);
    }
  }

  lemma SpendEffect<B>(l: Ledger<B>, c: Ledger<B>, k: Key, hold: Hold<B>, usage: Int64)
    requires c.live == l.live && c.heap.Keys == l.heap.Keys && GivesBack(l, c, hold) && usage >= 0
    requires forall b | b in l.heap :: c.heap[b].observation == l.heap[b].observation && c.heap[b].key == l.heap[b].key
    requires forall b | b in l.heap && hold.bucket != Some(b) :: c.heap[b] == l.heap[b]
    requires hold.bucket.Some? ==> PointsTo(l.heap, k, hold.bucket.value) && BucketOk(l.heap[hold.bucket.value])
    ensures var l' := Spend(c, hold.bucket, usage);
      GivesBack(l, l', hold) && CommitsUsage(l, l', k, hold, usage) && SparesOthers(l, l', k, hold, false)
  {
  }

  lemma ReportEffect<B>(l: Ledger<B>, c: Ledger<B>, k: Key, hold: Hold<B>, report: Observation, now: int, spare: B)
    requires Closed(l) && Closed(c) && c.live == l.live && c.heap.Keys == l.heap.Keys && GivesBack(l, c, hold)
    requires spare !in l.heap
    requires forall b | b in l.heap :: c.heap[b].observation == l.heap[b].observation && c.heap[b].key == l.heap[b].key
    requires forall b | b in l.heap && hold.bucket != Some(b) :: c.heap[b] == l.heap[b]
    requires hold.bucket.Some? ==> PointsTo(l.heap, k, hold.bucket.value)
    ensures var o := Normalise(report, now);
      var l' := if Past(o, now) then c.(live := c.live - {k}) else Install(c, k, o, spare);
      GivesBack(l, l', hold) && TakesReport(l, l', k, hold, report, now) && SparesOthers(l, l', k, hold, true)
  {
    if k in l.live {
      LiveIsClosed(c, k);
    }
    assert Over(report, now) <==> Past(Normalise(report, now), now);
    if !Over(report, now) {
      InstallEffect(l, c, k, hold, report, now, spare);
    }
    hide Closed, Install;
  }

  lemma InstallEffect<B>(l: Ledger<B>, c: Ledger<B>, k: Key, hold: Hold<B>, report: Observation, now: int, spare: B)
    requires Closed(c) && c.live == l.live && c.heap.Keys == l.heap.Keys && GivesBack(l, c, hold)
    requires spare !in l.heap && !Over(report, now) && (k in l.live ==> PointsTo(c.heap, k, l.live[k]))
    requires forall b | b in l.heap :: c.heap[b].observation == l.heap[b].observation && c.heap[b].key == l.heap[b].key
    requires forall b | b in l.heap && hold.bucket != Some(b) :: c.heap[b] == l.heap[b]
    requires hold.bucket.Some? ==> PointsTo(l.heap, k, hold.bucket.value)
    ensures var l' := Install(c, k, Normalise(report, now), spare);
      GivesBack(l, l', hold) && TakesReport(l, l', k, hold, report, now) && SparesOthers(l, l', k, hold, true)
  {
    assert Keeps(Normalise(report, now), report, now);
    hide Closed, Keeps, Normalise, Over;
    if k in l.live {
      InstallOnLive(l, c, k, hold, report, Normalise(report, now), now, spare);
    }
  }

  lemma InstallOnLive<B>(l: Ledger<B>, c: Ledger<B>, k: Key, hold: Hold<B>, report: Observation, o: Observation,
                         now: int, spare: B)
    requires Closed(c) && c.live == l.live && c.heap.Keys == l.heap.Keys && GivesBack(l, c, hold)
    requires spare !in l.heap && !Over(report, now) && k in l.live && Keeps(o, report, now)
    requires PointsTo(c.heap, k, l.live[k])
    requires forall b | b in l.heap :: c.heap[b].observation == l.heap[b].observation && c.heap[b].key == l.heap[b].key
    requires forall b | b in l.heap && hold.bucket != Some(b) :: c.heap[b] == l.heap[b]
    requires hold.bucket.Some? ==> PointsTo(l.heap, k, hold.bucket.value)
    ensures var l' := Install(c, k, o, spare);
      GivesBack(l, l', hold) && TakesReport(l, l', k, hold, report, now) && SparesOthers(l, l', k, hold, true)
  {
    hide Closed, Keeps, Over;
  }

  lemma SettleKeyEffect<B>(l: Ledger<B>, t: nat, k: Key, table: map<Key, Settlement>, now: int, spare: B)
    requires Inv(l) && Owns(l, t, k) && spare !in l.heap && TableOk(table)
    ensures Settled(l, SettleKey(l, t, k, table, now, spare), k, l.tickets[t][k], Find(table, k), now)
  {
    hide Exact, TicketsOk;
    var hold, c := l.tickets[t][k], Confirm(l, t, k);
    ConfirmEffect(l, t, k);
    ConfirmClosed(l, t, k);
    hide Confirm, Closed, GivesBack, CommitsUsage, TakesReport, SparesOthers, Spend, Install, Normalise;
    if k in table && table[k].observation.Some? {
      ReportEffect(l, c, k, hold, table[k].observation.value, now, spare);
    } else {
      SpendEffect(l, c, k, hold, if k in table then table[k].actual else hold.cost);
    }
  }

  lemma ConfirmElsewhere<B>(l: Ledger<B>, t: nat, k: Key, j: Key)
    requires Closed(l) && Owns(l, t, k) && j != k
    ensures SameAt(l, Confirm(l, t, k), j)
  {
    hide Closed;
    assert HoldsClosed(l.heap, l.tickets[t]) by { TicketIsClosed(l, t); }
  }

  lemma TicketIsClosed<B>(l: Ledger<B>, t: nat)
    requires Closed(l) && t in l.tickets
    ensures HoldsClosed(l.heap, l.tickets[t])
  {
  }

  lemma LiveIsClosed<B>(l: Ledger<B>, k: Key)
    requires Closed(l) && k in l.live
    ensures PointsTo(l.heap, k, l.live[k])
  {
  }

  lemma AccountElsewhere<B>(l: Ledger<B>, k: Key, hold: Hold<B>, table: map<Key, Settlement>, now: int, spare: B,
                            j: Key)
    requires Closed(l) && spare !in l.heap && j != k
    requires hold.bucket.Some? ==> PointsTo(l.heap, k, hold.bucket.value)
    ensures SameAt(l, Account(l, k, hold, table, now, spare), j)
  {
    if k in l.live {
      LiveIsClosed(l, k);
    }
    hide Closed, Normalise;
  }

  lemma SettleKeyElsewhere<B>(l: Ledger<B>, t: nat, k: Key, table: map<Key, Settlement>, now: int, spare: B, j: Key)
    requires Closed(l) && Owns(l, t, k) && spare !in l.heap && j != k
    ensures SameAt(l, SettleKey(l, t, k, table, now, spare), j)
  {
    hide Closed, SameAt, Account, HoldsClosed;
    var c, hold := Confirm(l, t, k), l.tickets[t][k];
    HoldPoints(l, t, k);
    ConfirmClosed(l, t, k);
    ConfirmElsewhere(l, t, k, j);
    AccountElsewhere(c, k, hold, table, now, spare, j);
    SameAtTrans(l, c, Account(c, k, hold, table, now, spare), j);
  }

  lemma SettledLater<B>(l: Ledger<B>, m: Ledger<B>, l': Ledger<B>, k: Key, hold: Hold<B>, s: Option<Settlement>,
                        now: int)
    requires SameAt(l, m, k) && Settled(m, l', k, hold, s, now) && l.heap.Keys <= m.heap.Keys
    requires hold.bucket.Some? ==> PointsTo(l.heap, k, hold.bucket.value)
    requires k in l.live ==> PointsTo(l.heap, k, l.live[k])
    ensures Settled(l, l', k, hold, s, now)
  {
  }

  lemma SettledSooner<B>(l: Ledger<B>, m: Ledger<B>, l': Ledger<B>, k: Key, hold: Hold<B>, s: Option<Settlement>,
                         now: int)
    requires Settled(l, m, k, hold, s, now) && SameAt(m, l', k)
    requires hold.bucket.Some? ==> PointsTo(l.heap, k, hold.bucket.value)
    requires k in m.live ==> PointsTo(m.heap, k, m.live[k])
    ensures Settled(l, l', k, hold, s, now)
  {
  }

  lemma SameAtTrans<B>(l: Ledger<B>, m: Ledger<B>, l': Ledger<B>, k: Key)
    requires SameAt(l, m, k) && SameAt(m, l', k)
    ensures SameAt(l, l', k)
  {
  }

  lemma SettleKeyGrows<B>(l: Ledger<B>, t: nat, k: Key, table: map<Key, Settlement>, now: int, spare: B)
    requires Closed(l) && Owns(l, t, k) && spare !in l.heap
    ensures l.heap.Keys <= SettleKey(l, t, k, table, now, spare).heap.Keys
  {
  }

  /** The settlement loop, in any order: each key it visits is settled and every other key is left alone. */
  lemma {:induction false} SettleKeysEffect<B>(l: Ledger<B>, t: nat, order: seq<Key>, table: map<Key, Settlement>,
                                               now: int, spares: seq<B>, k: Key)
    requires Inv(l) && CanSettle(l, t, order, spares) && TableOk(table)
    ensures var l' := SettleKeys(l, t, order, table, now, spares);
      && l.heap.Keys <= l'.heap.Keys
      && (k !in order ==> SameAt(l, l', k))
      && (k in order ==> k in l.tickets[t] && Settled(l, l', k, l.tickets[t][k], Find(table, k), now))
    decreases |order|
  {
    hide Exact, TicketsOk, BucketOk, SameAt, Settled, SettleKey;
    if order == [] {
      assert SameAt(l, l, k) by { SameAtRefl(l, k); }
    } else {
      var n := |order| - 1;
      CanSettleFront(l, t, order, spares);
      SettleKeysKeeps(l, t, order[..n], table, now, spares[..n]);
      SettleKeysEffect(l, t, order[..n], table, now, spares[..n], k);
      var m := SettleKeys(l, t, order[..n], table, now, spares[..n]);
      SettleKeyGrows(m, t, order[n], table, now, spares[n]);
      SettleOneMore(l, m, t, order, table, now, spares[n], k);
    }
  }

  lemma SameAtRefl<B>(l: Ledger<B>, k: Key)
    ensures SameAt(l, l, k)
  {
  }

  lemma SettleOneMore<B>(l: Ledger<B>, m: Ledger<B>, t: nat, order: seq<Key>, table: map<Key, Settlement>, now: int,
                         spare: B, k: Key)
    requires Closed(l) && Inv(m) && order != [] && Distinct(order)
    requires t in l.tickets && (forall j | j in order :: j in l.tickets[t]) && Owns(m, t, order[|order| - 1])
    requires spare !in m.heap && TableOk(table)
    requires m.tickets[t][order[|order| - 1]] == l.tickets[t][order[|order| - 1]] && l.heap.Keys <= m.heap.Keys
    requires k !in order[..|order| - 1] ==> SameAt(l, m, k)
    requires k in order[..|order| - 1] ==> Settled(l, m, k, l.tickets[t][k], Find(table, k), now)
    ensures var l' := SettleKey(m, t, order[|order| - 1], table, now, spare);
      && (k !in order ==> SameAt(l, l', k))
      && (k in order ==> Settled(l, l', k, l.tickets[t][k], Find(table, k), now))
  {
    hide Inv, SameAt, Settled, SettleKey, HoldsClosed, PointsTo;
    var n := |order| - 1;
    var x := order[n];
    assert Closed(m) by { InvIsClosed(m); }
    var l' := SettleKey(m, t, x, table, now, spare);
    assert order == order[..n] + [x];
    if k in order {
      HoldPoints(l, t, k);
    }
    if k == x {
      SettleKeyEffect(m, t, x, table, now, spare);
      SettledLater(l, m, l', k, l.tickets[t][k], Find(table, k), now);
    } else {
      SettleKeyElsewhere(m, t, x, table, now, spare, k);
      if k in order {
        SettledSooner(l, m, l', k, l.tickets[t][k], Find(table, k), now);
      } else {
        SameAtTrans(l, m, l', k);
      }
    }
  }

  lemma InvIsClosed<B>(l: Ledger<B>)
    requires Inv(l)
    ensures Closed(l)
  {
  }

  lemma HoldPoints<B>(l: Ledger<B>, t: nat, k: Key)
    requires Closed(l) && Owns(l, t, k)
    ensures l.tickets[t][k].bucket.Some? ==> PointsTo(l.heap, k, l.tickets[t][k].bucket.value)
  {
    assert HoldsClosed(l.heap, l.tickets[t]);
  }

  /** The settlement given for a key, if there is one. */
  ghost predicate Given(ss: seq<Settlement>, k: Key, s: Option<Settlement>) {
    match s
    case Some(x) => x in ss && x.key == k
    case None => forall x | x in ss :: x.key != k
  }

  lemma GivenIsFound(ss: seq<Settlement>, k: Key, s: Option<Settlement>)
    requires WellFormed(ss) && Given(ss, k, s)
    ensures Find(ByKey(ss), k) == s
  {
    ByKeyEntries(ss);
    if s.Some? {
      var i :| 0 <= i < |ss| && ss[i] == s.value;
      var j :| 0 <= j < |ss| && ss[j] == ByKey(ss)[k];
    }
  }

  /** A settlement is taken exactly if it is in order, names each key once, and all of them are held by the ticket. */
  lemma ReconcileAccepts<B>(l: Ledger<B>, t: nat, ss: seq<Settlement>, now: int, order: seq<Key>, spares: seq<B>)
    requires Inv(l)
    requires Accepts(l, t, ss) ==> CanSettle(l, t, order, spares) && Visits(order, l.tickets[t])
    ensures Reconcile(l, t, ss, now, order, spares).1 <==>
      && t in l.tickets
      && (forall i | 0 <= i < |ss| ::
            && ss[i].key in l.tickets[t] && ss[i].actual >= 0
            && (ss[i].observation.Some? ==>
                  ss[i].observation.value.limit >= 0 && ss[i].observation.value.remaining >= 0))
      && (forall i, j | 0 <= i < j < |ss| :: ss[i].key != ss[j].key)
  {
    hide Exact, BucketOk, SettleKeys;
  }

  lemma ReconcileSettled<B>(l: Ledger<B>, t: nat, ss: seq<Settlement>, now: int, order: seq<Key>, spares: seq<B>,
                            k: Key, s: Option<Settlement>)
    requires Inv(l) && Accepts(l, t, ss) && CanSettle(l, t, order, spares) && Visits(order, l.tickets[t])
    requires Given(ss, k, s)
    ensures Closed(l) && t in l.tickets
    ensures var l' := Reconcile(l, t, ss, now, order, spares).0;
      && (k in l.tickets[t] ==> Settled(Purge(l, now), l', k, l.tickets[t][k], s, now))
      && (k !in l.tickets[t] ==> SameAt(Purge(l, now), l', k))
  {
    hide Exact, TicketsOk, BucketOk, SettleKeys;
    PurgeKeeps(l, now);
    ByKeyOk(ss);
    GivenIsFound(ss, k, s);
    assert k in order <==> k in l.tickets[t].Keys;
    SettleKeysEffect(Purge(l, now), t, order, ByKey(ss), now, spares, k);
    var m := SettleKeys(Purge(l, now), t, order, ByKey(ss), now, spares);
    TicketsDoNotMatter(Purge(l, now), m, m.(tickets := l.tickets - {t}), k);
    if k in l.tickets[t] {
      TicketsDoNotSettle(Purge(l, now), m, m.(tickets := l.tickets - {t}), k, l.tickets[t][k], s, now);
    }
  }

  lemma TicketsDoNotMatter<B>(l: Ledger<B>, m: Ledger<B>, m': Ledger<B>, k: Key)
    requires m'.heap == m.heap && m'.live == m.live
    ensures SameAt(l, m, k) ==> SameAt(l, m', k)
  {
  }

  lemma TicketsDoNotSettle<B>(l: Ledger<B>, m: Ledger<B>, m': Ledger<B>, k: Key, hold: Hold<B>, s: Option<Settlement>,
                              now: int)
    requires m'.heap == m.heap && m'.live == m.live && Settled(l, m, k, hold, s, now)
    ensures Settled(l, m', k, hold, s, now)
  {
  }

  /**
   What an accepted settlement commits, whatever the order of the loop. The hold is given back on the object it
   was taken on, live or not. Without a report that object loses the usage, down to zero, and nothing else of
   its observation changes. The usage is what the settlement names, or the held cost if it names none.
   */
  lemma ReconcileCommits<B>(l: Ledger<B>, t: nat, ss: seq<Settlement>, now: int, order: seq<Key>, spares: seq<B>,
                            k: Key, s: Option<Settlement>, b: B)
    requires Inv(l) && Accepts(l, t, ss) && CanSettle(l, t, order, spares) && Visits(order, l.tickets[t])
    requires Given(ss, k, s) && k in l.tickets[t] && l.tickets[t][k].bucket == Some(b)
    ensures var (l', ok) := Reconcile(l, t, ss, now, order, spares);
      && ok && b in l.heap && b in l'.heap
      && var x, y, hold := l.heap[b], l'.heap[b], l.tickets[t][k];
      && y.reserved == x.reserved - hold.cost && y.probeSettled && y.key == x.key
      && (s.None? || s.value.observation.None? ==>
            var usage := if s.Some? then s.value.actual else hold.cost;
            && y.observation.remaining == Max(0, x.observation.remaining - usage)
            && y.observation == x.observation.(remaining := y.observation.remaining))
  {
    ReconcileSettled(l, t, ss, now, order, spares, k, s);
    ReconcileOk(l, t, ss, now, order, spares);
    hide Inv, CanSettle, Visits, Reconcile, TakesReport, SparesOthers, Purge, Accepts, Given, SameAt;
    assert Purge(l, now).heap == l.heap by { PurgeKeepsHeap(l, now); }
  }

  lemma PurgeKeepsHeap<B>(l: Ledger<B>, now: int)
    requires Closed(l)
    ensures Purge(l, now).heap == l.heap
  {
  }

  /** An object the ticket does not hold is left alone when there is no report on its key. */
  lemma ReconcileSpares<B>(l: Ledger<B>, t: nat, ss: seq<Settlement>, now: int, order: seq<Key>, spares: seq<B>,
                           k: Key, s: Option<Settlement>, b: B)
    requires Inv(l) && Accepts(l, t, ss) && CanSettle(l, t, order, spares) && Visits(order, l.tickets[t])
    requires Given(ss, k, s) && !HasReport(s) && PointsTo(l.heap, k, b)
    requires k in l.tickets[t] ==> l.tickets[t][k].bucket != Some(b)
    ensures var l' := Reconcile(l, t, ss, now, order, spares).0; b in l'.heap && l'.heap[b] == l.heap[b]
  {
    ReconcileSettled(l, t, ss, now, order, spares, k, s);
    hide Inv, CanSettle, Visits, Reconcile, TakesReport, GivesBack, CommitsUsage, Purge, Accepts, Given;
    assert Purge(l, now).heap == l.heap by { PurgeKeepsHeap(l, now); }
  }

  lemma ReconcileOk<B>(l: Ledger<B>, t: nat, ss: seq<Settlement>, now: int, order: seq<Key>, spares: seq<B>)
    requires Closed(l) && Accepts(l, t, ss) && CanSettle(l, t, order, spares) && Visits(order, l.tickets[t])
    ensures Reconcile(l, t, ss, now, order, spares).1
  {
  }

  /**
   What an accepted settlement reports: the key's live bucket then holds the report, on the object that was
   live or on a new one; a report whose reset has come removes the bucket. A held object that is no longer
   live keeps its observation.
   */
  lemma ReconcileReports<B>(l: Ledger<B>, t: nat, ss: seq<Settlement>, now: int, order: seq<Key>, spares: seq<B>,
                            x: Settlement)
    requires Inv(l) && Accepts(l, t, ss) && CanSettle(l, t, order, spares) && Visits(order, l.tickets[t])
    requires x in ss && x.observation.Some?
    ensures var (l', k) := (Reconcile(l, t, ss, now, order, spares).0, x.key);
      && k in l.tickets[t] && (k in l'.live <==> !Over(x.observation.value, now))
      && (k in l'.live ==>
            && l'.live[k] in l'.heap && Keeps(l'.heap[l'.live[k]].observation, x.observation.value, now)
            && (Shows(l, k, now) ==> l'.live[k] == l.live[k])
            && (!Shows(l, k, now) ==>
                  l'.live[k] !in l.heap && l'.heap[l'.live[k]].reserved == 0 && !l'.heap[l'.live[k]].probeSettled))
      && (forall b | l.tickets[t][k].bucket == Some(b) && (k in l'.live ==> l'.live[k] != b) ::
            b in l.heap && b in l'.heap && l'.heap[b].observation == l.heap[b].observation)
  {
    ReconcileSettled(l, t, ss, now, order, spares, x.key, Some(x));
    hide Inv, CanSettle, Visits, Reconcile;
  }

  /** Keys the ticket does not hold are left alone, but for expiry. */
  lemma ReconcileElsewhere<B>(l: Ledger<B>, t: nat, ss: seq<Settlement>, now: int, order: seq<Key>, spares: seq<B>,
                              k: Key)
    requires Inv(l) && Accepts(l, t, ss) && CanSettle(l, t, order, spares) && Visits(order, l.tickets[t])
    requires k !in l.tickets[t]
    ensures Closed(l) && Ages(l, Reconcile(l, t, ss, now, order, spares).0, k, now)
  {
    ReconcileSettled(l, t, ss, now, order, spares, k, None);
    hide Inv, CanSettle, Visits, Reconcile;
    PurgeAges(l, now, k);
  }

  // ---- over whole runs ----

  /** What a step commits on object `b`, made for key `k`: the usage of a settlement that held it, without a report. */
  ghost function Committed<B>(l: Ledger<B>, s: QuotaRun.Step<B>, k: Key, b: B): int
    requires QuotaRun.Enabled(l, s)
  {
    if s.DoReconcile? && QuotaRun.Consumes(l, s, s.ticket) && s.ticket in l.tickets && k in l.tickets[s.ticket] &&
       l.tickets[s.ticket][k].bucket == Some(b)
    then Usage(l.tickets[s.ticket][k], Find(ByKey(s.settlements), k)) else 0
  }

  /** The step brings no report on the key. */
  ghost predicate Silent<B>(s: QuotaRun.Step<B>, k: Key) {
    match s
    case DoObserve(j, _, _, _) => j != k
    case DoReconcile(_, ss, _, _, _) => forall x | x in ss && x.key == k :: x.observation.None?
    case _ => true
  }

  lemma ObserveSpares<B>(l: Ledger<B>, k: Key, o: Observation, now: int, spare: B, b: B)
    requires Closed(l) && spare !in l.heap && b in l.heap && l.heap[b].key != k
    ensures b in Observe(l, k, o, now, spare).0.heap && Observe(l, k, o, now, spare).0.heap[b] == l.heap[b]
  {
    assert k in l.live ==> PointsTo(l.heap, k, l.live[k]);
  }

  lemma ReserveKeepsObservation<B>(l: Ledger<B>, rs: seq<Reservation>, now: int, b: B)
    requires Inv(l) && b in l.heap
    ensures b in ReserveAll(l, rs, now).0.heap
    ensures ReserveAll(l, rs, now).0.heap[b].observation == l.heap[b].observation
    ensures ReserveAll(l, rs, now).0.heap[b].key == l.heap[b].key
  {
    hide Exact, TicketsOk;
    if ReserveAll(l, rs, now).1.Some? {
      ReserveCharges(l, rs, now, b);
    }
  }

  lemma ConsumedIs<B>(l: Ledger<B>, s: QuotaRun.Step<B>)
    requires Inv(l) && QuotaRun.Enabled(l, s) && s.DoReconcile? && QuotaRun.Consumes(l, s, s.ticket)
    ensures var (t, ss) := (s.ticket, s.settlements);
      && Accepts(l, t, ss) && CanSettle(l, t, s.order, s.spares) && Visits(s.order, l.tickets[t])
      && QuotaRun.Apply(l, s) == Reconcile(l, t, ss, s.now, s.order, s.spares).0
      && forall k | k in ByKey(ss) :: ByKey(ss)[k].actual >= 0
  {
    hide Exact, TicketsOk, SettleKeys;
    ByKeyOk(s.settlements);
  }

  lemma CommittedIs<B>(l: Ledger<B>, s: QuotaRun.Step<B>, k: Key, b: B)
    requires Inv(l) && QuotaRun.Enabled(l, s) && s.DoReconcile? && QuotaRun.Consumes(l, s, s.ticket)
    ensures s.ticket in l.tickets
    ensures Committed(l, s, k, b) ==
      if k in l.tickets[s.ticket] && l.tickets[s.ticket][k].bucket == Some(b)
      then Usage(l.tickets[s.ticket][k], Find(ByKey(s.settlements), k)) else 0
  {
    ConsumedIs(l, s);
    hide Inv, QuotaRun.Enabled, QuotaRun.Consumes, ByKey;
  }

  lemma ReconcileSpends<B>(l: Ledger<B>, s: QuotaRun.Step<B>, k: Key, b: B)
    requires Inv(l) && QuotaRun.Enabled(l, s) && s.DoReconcile? && Silent(s, k) && PointsTo(l.heap, k, b)
    ensures var l' := QuotaRun.Apply(l, s);
      && PointsTo(l'.heap, k, b) && Committed(l, s, k, b) >= 0
      && l'.heap[b].observation.remaining == Max(0, l.heap[b].observation.remaining - Committed(l, s, k, b))
      && l'.heap[b].observation == l.heap[b].observation.(remaining := l'.heap[b].observation.remaining)
  {
    RemainsPositive(l, b);
    var (t, ss) := (s.ticket, s.settlements);
    if !QuotaRun.Consumes(l, s, t) {
      QuotaRun.RefusedCleanupChangesNoHold(l, s);
    } else {
      ConsumedIs(l, s);
      CommittedIs(l, s, k, b);
      var found := Find(ByKey(ss), k);
      FoundIsGiven(ss, k);
      hide Inv, QuotaRun.Enabled, QuotaRun.Consumes, QuotaRun.Apply, Committed, ByKey, Accepts, CanSettle, Visits;
      hide Reconcile;
      if k in l.tickets[t] && l.tickets[t][k].bucket == Some(b) {
        ReconcileCommits(l, t, ss, s.now, s.order, s.spares, k, found, b);
      } else {
        ReconcileSpares(l, t, ss, s.now, s.order, s.spares, k, found, b);
      }
    }
  }

  lemma FoundIsGiven(ss: seq<Settlement>, k: Key)
    ensures Given(ss, k, Find(ByKey(ss), k))
  {
    ByKeyEntries(ss);
  }

  lemma StepSpends<B>(l: Ledger<B>, s: QuotaRun.Step<B>, k: Key, b: B)
    requires Inv(l) && QuotaRun.Enabled(l, s) && Silent(s, k) && PointsTo(l.heap, k, b)
    ensures var l' := QuotaRun.Apply(l, s);
      && PointsTo(l'.heap, k, b) && Committed(l, s, k, b) >= 0
      && l'.heap[b].observation.remaining == Max(0, l.heap[b].observation.remaining - Committed(l, s, k, b))
      && l'.heap[b].observation == l.heap[b].observation.(remaining := l'.heap[b].observation.remaining)
  {
    assert BucketOk(l.heap[b]);
    match s
    case DoObserve(j, o, now, spare) => ObserveSpares(l, j, o, now, spare, b);
    case DoSnapshot(_, _) =>
    case DoKeys(_) =>
    case DoReserve(rs, now) => ReserveKeepsObservation(l, rs, now, b);
    case DoRelease(t, now) => ReleaseEffect(l, t, now);
    case DoReconcile(_, _, _, _, _) => ReconcileSpends(l, s, k, b);
  }

  /** What the steps from `i` up to `j` commit on the object. */
  ghost function Spent<B>(states: seq<Ledger<B>>, steps: seq<QuotaRun.Step<B>>, k: Key, b: B, i: nat, j: nat): int
    requires QuotaRun.IsRun(states, steps) && i <= j <= |steps|
  {
    if i == j then 0 else Spent(states, steps, k, b, i, j - 1) + Committed(states[j - 1], steps[j - 1], k, b)
  }

  /**
   A limit the provider does not report runs out exactly as it is used: over any stretch of any run without a
   report on its key, a bucket object's remaining drops by all the usage settled on it, down to zero, and
   nothing else of its observation changes.
   */
  lemma {:induction false} UsageAddsUp<B>(states: seq<Ledger<B>>, steps: seq<QuotaRun.Step<B>>, k: Key, b: B, i: nat,
                                          j: nat)
    requires QuotaRun.IsRun(states, steps) && i <= j <= |steps| && PointsTo(states[i].heap, k, b)
    requires forall n | i <= n < j :: Silent(steps[n], k)
    ensures PointsTo(states[j].heap, k, b) && Spent(states, steps, k, b, i, j) >= 0
    ensures states[j].heap[b].observation.remaining ==
      Max(0, states[i].heap[b].observation.remaining - Spent(states, steps, k, b, i, j))
    ensures states[j].heap[b].observation ==
      states[i].heap[b].observation.(remaining := states[j].heap[b].observation.remaining)
    decreases j
  {
    hide Inv, QuotaRun.Apply, QuotaRun.Enabled, Silent, Committed;
    QuotaRun.ReservedIsExact(states, steps, i);
    if i == j {
      RemainsPositive(states[i], b);
    } else {
      UsageAddsUp(states, steps, k, b, i, j - 1);
      QuotaRun.ReservedIsExact(states, steps, j - 1);
      StepSpends(states[j - 1], steps[j - 1], k, b);
    }
  }

  lemma RemainsPositive<B>(l: Ledger<B>, b: B)
    requires Inv(l) && b in l.heap
    ensures l.heap[b].observation.remaining >= 0
  {
  }
}
