/**
 What every ledger operation keeps: each bucket object, live or already dropped by expiry, has
 `reserved` equal to the sum of the holds that outstanding tickets own on that very object.
 */
module QuotaInvariant {
  import opened Base
  import opened MapSum
  import opened QuotaSpec

  /** The costs of the holds on object `b` (created for key `k`), by ticket. */
  ghost function CostsOn<B>(tickets: map<nat, map<Key, Hold<B>>>, k: Key, b: B): map<nat, nat> {
    map t | t in tickets && HoldsOn(tickets[t], k, b) :: tickets[t][k].cost
  }

  /** The total held on object `b` by outstanding tickets. */
  ghost function Held<B>(tickets: map<nat, map<Key, Hold<B>>>, k: Key, b: B): nat {
    Sum(CostsOn(tickets, k, b))
  }

  predicate BucketOk(x: Bucket) {
    0 <= x.reserved && 0 <= x.observation.remaining <= x.observation.limit
  }

  predicate TicketsOk<B>(l: Ledger<B>) {
    forall t | t in l.tickets ::
      && 0 < t <= l.nextTicketId
      && forall k | k in l.tickets[t] :: ValidKey(k) && 0 < l.tickets[t][k].cost
  }

  ghost predicate Exact<B>(l: Ledger<B>) {
    forall b | b in l.heap :: l.heap[b].reserved == Held(l.tickets, l.heap[b].key, b)
  }

  ghost predicate Inv<B>(l: Ledger<B>) {
    && Closed(l) && TicketsOk(l) && Exact(l)
    && (forall b | b in l.heap :: BucketOk(l.heap[b]))
    && (forall k | k in l.live :: ValidKey(k))
  }

  // ---- Held under changes of the ticket table ----

  lemma HeldWithout<B>(tickets: map<nat, map<Key, Hold<B>>>, t: nat, k: Key, b: B)
    requires t in tickets
    ensures Held(tickets, k, b) ==
            Held(tickets - {t}, k, b) + (if HoldsOn(tickets[t], k, b) then tickets[t][k].cost else 0)
  {
    if HoldsOn(tickets[t], k, b) {
      SumSplit(CostsOn(tickets, k, b), t);
      assert CostsOn(tickets, k, b) - {t} == CostsOn(tickets - {t}, k, b);
    } else {
      assert CostsOn(tickets, k, b) == CostsOn(tickets - {t}, k, b);
    }
  }

  lemma HeldWith<B>(tickets: map<nat, map<Key, Hold<B>>>, t: nat, holds: map<Key, Hold<B>>, k: Key, b: B)
    requires t !in tickets
    ensures Held(tickets[t := holds], k, b) ==
            Held(tickets, k, b) + (if HoldsOn(holds, k, b) then holds[k].cost else 0)
  {
    HeldWithout(tickets[t := holds], t, k, b);
    assert tickets[t := holds] - {t} == tickets;
  }

  lemma HeldNowhere<B>(tickets: map<nat, map<Key, Hold<B>>>, k: Key, b: B)
    requires forall t | t in tickets :: !HoldsOn(tickets[t], k, b)
    ensures Held(tickets, k, b) == 0
  {
    assert CostsOn(tickets, k, b) == map[];
  }

  /** The clamp in Release and Reconcile never bites: a hold is never larger than `reserved`. */
  lemma HoldWithinReserved<B>(l: Ledger<B>, t: nat, k: Key)
    requires Inv(l) && t in l.tickets && k in l.tickets[t] && l.tickets[t][k].bucket.Some?
    ensures l.tickets[t][k].cost <= l.heap[l.tickets[t][k].bucket.value].reserved
  {
    HeldWithout(l.tickets, t, k, l.tickets[t][k].bucket.value);
  }

  // ---- one lemma per operation ----

  lemma HoldsStayClosed<B>(heap: map<B, Bucket>, heap': map<B, Bucket>, holds: map<Key, Hold<B>>)
    requires HoldsClosed(heap, holds)
    requires forall b | b in heap :: PointsTo(heap', heap[b].key, b)
    ensures HoldsClosed(heap', holds)
  {
  }

  lemma TicketsStayClosed<B>(heap: map<B, Bucket>, heap': map<B, Bucket>, tickets: map<nat, map<Key, Hold<B>>>)
    requires forall t | t in tickets :: HoldsClosed(heap, tickets[t])
    requires forall b | b in heap :: PointsTo(heap', heap[b].key, b)
    ensures forall t | t in tickets :: HoldsClosed(heap', tickets[t])
  {
    forall t | t in tickets ensures HoldsClosed(heap', tickets[t]) {
      HoldsStayClosed(heap, heap', tickets[t]);
    }
  }

  lemma PurgeKeeps<B>(l: Ledger<B>, now: int)
    requires Inv(l)
    ensures Inv(Purge(l, now))
  {
  }

  lemma InstallKeeps<B>(l: Ledger<B>, k: Key, o: Observation, spare: B)
    requires Inv(l) && spare !in l.heap && ValidKey(k) && 0 <= o.remaining <= o.limit
    ensures Inv(Install(l, k, o, spare))
  {
    hide Held;
    var l' := Install(l, k, o, spare);
    TicketsStayClosed(l.heap, l'.heap, l.tickets);
    assert Closed(l');
    if k !in l.live {
      HeldNowhere(l.tickets, k, spare);
    }
  }

  lemma ObserveKeeps<B>(l: Ledger<B>, k: Key, o: Observation, now: int, spare: B)
    requires Inv(l) && spare !in l.heap
    ensures Inv(Observe(l, k, o, now, spare).0)
  {
    PurgeKeeps(l, now);
    if ValidKey(k) && o.limit >= 0 && o.remaining >= 0 && !Past(o, now) {
      InstallKeeps(Purge(l, now), k, Normalise(o, now), spare);
    }
  }

  lemma SnapshotKeeps<B>(l: Ledger<B>, k: Key, now: int)
    requires Inv(l)
    ensures Inv(Snapshot(l, k, now).0)
  {
  }

  /** What an acceptable request charges is a valid key and a positive 64-bit amount. */
  lemma {:induction false} AmountPositive(rs: seq<Reservation>, k: Key)
    requires k in Charged(rs) && forall i | 0 <= i < |rs| :: rs[i].cost >= 0
    ensures 0 < Total(rs, k)
  {
    var i :| 0 <= i < |rs| && rs[i].cost != 0 && rs[i].key == k;
    if i < |rs| - 1 {
      assert rs[..|rs| - 1][i] == rs[i];
      AmountPositive(rs[..|rs| - 1], k);
    }
  }

  lemma AmountsOk(rs: seq<Reservation>)
    requires Acceptable(rs)
    ensures forall k | k in Amounts(rs) :: ValidKey(k) && 0 < Amounts(rs)[k]
  {
    forall k | k in Amounts(rs) ensures ValidKey(k) && 0 < Amounts(rs)[k] {
      ChargedOk(rs, k);
      forall i | 0 <= i < |rs| ensures rs[i].cost >= 0 { assert EntryOk(rs, i); }
      AmountPositive(rs, k);
    }
  }

  /** An admitted charge does not overflow. */
  lemma ChargeOk(x: Bucket, cost: Amount)
    requires BucketOk(x) && (InBudget(x, cost) || ProbeAllowed(x))
    ensures Wrap64(x.reserved + cost) == x.reserved + cost
  {
  }

  /** A charge matches the new ticket's hold. */
  lemma ChargeExact<B>(l: Ledger<B>, amounts: map<Key, Amount>, b: B)
    requires Inv(l) && b in l.heap
    requires forall k | k in amounts :: 0 < amounts[k] && Admits(l, k, amounts[k])
    ensures BucketOk(Charge(l, amounts, b)) && Charge(l, amounts, b).key == l.heap[b].key
    ensures Charge(l, amounts, b).reserved ==
            Held(l.tickets[l.nextTicketId + 1 := HoldsFor(l, amounts)], l.heap[b].key, b)
  {
    hide Held;
    var k := l.heap[b].key;
    HeldWith(l.tickets, l.nextTicketId + 1, HoldsFor(l, amounts), k, b);
    if k in amounts && k in l.live && l.live[k] == b {
      ChargeOk(l.heap[b], amounts[k]);
    }
  }

  lemma CommitClosed<B>(l: Ledger<B>, amounts: map<Key, Amount>)
    requires Closed(l) && TicketsOk(l)
    requires forall k | k in amounts :: ValidKey(k) && 0 < amounts[k]
    ensures Closed(Commit(l, amounts)) && TicketsOk(Commit(l, amounts))
  {
    var l' := Commit(l, amounts);
    forall t | t in l'.tickets ensures HoldsClosed(l'.heap, l'.tickets[t]) {
      if t in l.tickets && t != l'.nextTicketId {
        HoldsStayClosed(l.heap, l'.heap, l.tickets[t]);
      } else {
        HoldsStayClosed(l.heap, l'.heap, HoldsFor(l, amounts));
      }
    }
  }

  lemma CommitExact<B>(l: Ledger<B>, amounts: map<Key, Amount>)
    requires Inv(l)
    requires forall k | k in amounts :: 0 < amounts[k] && Admits(l, k, amounts[k])
    ensures Exact(Commit(l, amounts))
    ensures forall b | b in Commit(l, amounts).heap :: BucketOk(Commit(l, amounts).heap[b])
  {
    hide Held, HoldsFor, Admits, TicketsOk, BucketOk, Charge;
    var l' := Commit(l, amounts);
    forall b | b in l.heap
      ensures BucketOk(l'.heap[b]) && l'.heap[b].reserved == Held(l'.tickets, l'.heap[b].key, b)
    {
      ChargeExact(l, amounts, b);
      assert l'.heap[b] == Charge(l, amounts, b);
    }
  }

  lemma CommitKeeps<B>(l: Ledger<B>, amounts: map<Key, Amount>)
    requires Inv(l)
    requires forall k | k in amounts :: ValidKey(k) && 0 < amounts[k] && Admits(l, k, amounts[k])
    ensures Inv(Commit(l, amounts))
  {
    CommitClosed(l, amounts);
    CommitExact(l, amounts);
  }

  lemma ReserveKeeps<B>(l: Ledger<B>, rs: seq<Reservation>, now: int)
    requires Inv(l)
    ensures Inv(ReserveAll(l, rs, now).0)
  {
    if Acceptable(rs) {
      PurgeKeeps(l, now);
      AmountsOk(rs);
      var p := Purge(l, now);
      if forall k | k in Amounts(rs) :: Admits(p, k, Amounts(rs)[k]) {
        CommitKeeps(p, Amounts(rs));
      }
    }
  }

  lemma FreedExact<B>(l: Ledger<B>, t: nat, b: B)
    requires Inv(l) && t in l.tickets && b in l.heap
    ensures Freed(l, l.tickets[t], b).key == l.heap[b].key
    ensures BucketOk(Freed(l, l.tickets[t], b))
    ensures Freed(l, l.tickets[t], b).reserved == Held(l.tickets - {t}, l.heap[b].key, b)
  {
    HeldWithout(l.tickets, t, l.heap[b].key, b);
  }

  lemma ReleaseKeeps<B>(l: Ledger<B>, t: nat, now: int)
    requires Inv(l)
    ensures Inv(Release(l, t, now).0)
  {
    PurgeKeeps(l, now);
    var p := Purge(l, now);
    if t != 0 && t in p.tickets {
      var l' := Release(l, t, now).0;
      forall b | b in p.heap
        ensures l'.heap[b].key == p.heap[b].key && BucketOk(l'.heap[b])
        ensures l'.heap[b].reserved == Held(l'.tickets, l'.heap[b].key, b)
      {
        FreedExact(p, t, b);
      }
      TicketsStayClosed(p.heap, l'.heap, p.tickets);
    }
  }

  // ---- settlement, one key at a time ----

  predicate TableOk(table: map<Key, Settlement>) {
    forall k | k in table :: SettlementOk(table[k])
  }

  lemma HeldShrink<B>(tickets: map<nat, map<Key, Hold<B>>>, t: nat, j: Key, k: Key, b: B)
    requires t in tickets && j in tickets[t]
    ensures Held(tickets, k, b) == Held(tickets[t := tickets[t] - {j}], k, b) +
            (if j == k && HoldsOn(tickets[t], k, b) then tickets[t][k].cost else 0)
  {
    HeldWithout(tickets, t, k, b);
    HeldWithout(tickets[t := tickets[t] - {j}], t, k, b);
    assert tickets[t := tickets[t] - {j}] - {t} == tickets - {t};
  }

  lemma ConfirmBucket<B>(l: Ledger<B>, t: nat, k: Key, b: B)
    requires Inv(l) && Owns(l, t, k) && b in l.heap
    ensures var l' := Confirm(l, t, k);
      b in l'.heap && BucketOk(l'.heap[b]) && l'.heap[b].reserved == Held(l'.tickets, l'.heap[b].key, b)
  {
    assert HoldsClosed(l.heap, l.tickets[t]);
    hide Held;
    HeldShrink(l.tickets, t, k, l.heap[b].key, b);
  }

  lemma ConfirmKeeps<B>(l: Ledger<B>, t: nat, k: Key)
    requires Inv(l) && Owns(l, t, k)
    ensures Inv(Confirm(l, t, k))
  {
    var l' := Confirm(l, t, k);
    ConfirmClosed(l, t, k);
    forall b | b in l'.heap
      ensures BucketOk(l'.heap[b]) && l'.heap[b].reserved == Held(l'.tickets, l'.heap[b].key, b)
    {
      ConfirmBucket(l, t, k, b);
    }
    hide Held, Closed;
  }

  lemma SpendKeeps<B>(l: Ledger<B>, bucket: Option<B>, actual: Int64)
    requires Inv(l) && (bucket.Some? ==> bucket.value in l.heap) && actual >= 0
    ensures Inv(Spend(l, bucket, actual))
  {
    ClosedAgain(l, Spend(l, bucket, actual));
  }

  lemma SettleKeyKeeps<B>(l: Ledger<B>, t: nat, k: Key, table: map<Key, Settlement>, now: int, spare: B)
    requires Inv(l) && Owns(l, t, k) && spare !in l.heap && TableOk(table)
    ensures Inv(SettleKey(l, t, k, table, now, spare))
  {
    assert HoldsClosed(l.heap, l.tickets[t]);
    var hold, c := l.tickets[t][k], Confirm(l, t, k);
    ConfirmKeeps(l, t, k);
    ConfirmClosed(l, t, k);
    if k in table && table[k].observation.Some? {
      var o := Normalise(table[k].observation.value, now);
      if !Past(o, now) {
        InstallKeeps(c, k, o, spare);
      }
    } else {
      SpendKeeps(c, hold.bucket, if k in table then table[k].actual else hold.cost);
    }
  }

  lemma {:induction false} SettleKeysKeeps<B>(l: Ledger<B>, t: nat, order: seq<Key>, table: map<Key, Settlement>,
                                              now: int, spares: seq<B>)
    requires Inv(l) && CanSettle(l, t, order, spares) && TableOk(table)
    ensures Inv(SettleKeys(l, t, order, table, now, spares))
    decreases |order|
  {
    if order != [] {
      var n := |order| - 1;
      CanSettleFront(l, t, order, spares);
      SettleKeysKeeps(l, t, order[..n], table, now, spares[..n]);
      SettleKeyKeeps(SettleKeys(l, t, order[..n], table, now, spares[..n]), t, order[n], table, now, spares[n]);
    }
  }

  /** Dropping a ticket that holds nothing any more. */
  lemma DropSpentTicket<B>(l: Ledger<B>, t: nat)
    requires Inv(l) && t in l.tickets && l.tickets[t] == map[]
    ensures Inv(l.(tickets := l.tickets - {t}))
  {
    forall b | b in l.heap ensures l.heap[b].reserved == Held(l.tickets - {t}, l.heap[b].key, b) {
      HeldWithout(l.tickets, t, l.heap[b].key, b);
    }
  }

  lemma AllVisited<B>(holds: map<Key, Hold<B>>, order: seq<Key>)
    requires Visits(order, holds)
    ensures Remaining(holds, order) == map[]
  {
  }

  lemma SettleTicketKeeps<B>(l: Ledger<B>, t: nat, order: seq<Key>, table: map<Key, Settlement>, now: int,
                             spares: seq<B>)
    requires Inv(l) && CanSettle(l, t, order, spares) && Visits(order, l.tickets[t]) && TableOk(table)
    ensures Inv(SettleKeys(l, t, order, table, now, spares).(tickets := l.tickets - {t}))
  {
    var m := SettleKeys(l, t, order, table, now, spares);
    SettleKeysKeeps(l, t, order, table, now, spares);
    AllVisited(l.tickets[t], order);
    DropSpentTicket(m, t);
    assert m.tickets - {t} == l.tickets - {t};
  }

  lemma ByKeyOk(ss: seq<Settlement>)
    requires WellFormed(ss)
    ensures TableOk(ByKey(ss))
  {
    ByKeyEntries(ss);
  }

  lemma ReconcileKeeps<B>(l: Ledger<B>, t: nat, ss: seq<Settlement>, now: int, order: seq<Key>, spares: seq<B>)
    requires Inv(l)
    requires Accepts(l, t, ss) ==> CanSettle(l, t, order, spares) && Visits(order, l.tickets[t])
    ensures Inv(Reconcile(l, t, ss, now, order, spares).0)
  {
    PurgeKeeps(l, now);
    if Accepts(l, t, ss) {
      ByKeyOk(ss);
      SettleTicketKeeps(Purge(l, now), t, order, ByKey(ss), now, spares);
    }
  }
}
