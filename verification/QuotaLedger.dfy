/**
 The ledger as the program holds it: a map of bucket objects that tickets keep pointers to, mutated
 in place under one mutex. Every method refines the operation of the same name in `QuotaSpec`,
 whatever order the map loops visit their keys in.
 */
module QuotaObjects {
  import opened Base
  import opened QuotaSpec
  import opened QuotaInvariant

  class BucketObject {
    ghost var key: Key
    var observation: Observation
    var reserved: Int64
    var probeSettled: bool

    ghost function Value(): Bucket
      reads this
    {
      Bucket(key, observation, reserved, probeSettled)
    }
  }

  datatype Ticket = Ticket(ledger: QuotaLedger?, id: nat)

  /** The part of a map already visited by a loop that still has `todo` to visit. */
  function Visited<K, V>(m: map<K, V>, todo: set<K>): map<K, V> {
    map k | k in m && k !in todo :: m[k]
  }

  /** Sums the requested costs by key in 64-bit arithmetic, refusing invalid requests and overflow. */
  method AggregateReservations(rs: seq<Reservation>) returns (amounts: map<Key, Amount>, ok: bool)
    ensures ok <==> Acceptable(rs)
    ensures ok ==> amounts == Amounts(rs)
  {
    amounts, ok := map[], true;
    for i := 0 to |rs|
      invariant Acceptable(rs[..i]) && amounts == Amounts(rs[..i])
    {
      var r := rs[i];
      AggregateStep(rs, i);
      if !ValidKey(r.key) || r.cost < 0 {
        return map[], false;
      }
      if r.cost == 0 {
        continue;
      }
      var total := Wrap64(Lookup(amounts, r.key) + r.cost);
      if total < 0 {
        return map[], false;
      }
      amounts := amounts[r.key := total];
    }
    assert rs[..|rs|] == rs;
  }

  /** Go's map lookup: an absent key reads as zero. */
  function Lookup(amounts: map<Key, Amount>, k: Key): nat {
    if k in amounts then amounts[k] else 0
  }

  lemma {:induction false} TotalOfAbsent(rs: seq<Reservation>, k: Key)
    requires k !in Charged(rs)
    ensures Total(rs, k) == 0
  {
    if rs != [] {
      assert forall i | 0 <= i < |rs| - 1 :: rs[..|rs| - 1][i] == rs[i];
      TotalOfAbsent(rs[..|rs| - 1], k);
    }
  }

  lemma {:induction false} TotalGrows(rs: seq<Reservation>, i: nat, k: Key)
    requires i <= |rs|
    ensures Total(rs[..i], k) <= Total(rs, k)
    decreases |rs|
  {
    if i < |rs| {
      assert rs[..|rs| - 1][..i] == rs[..i];
      TotalGrows(rs[..|rs| - 1], i, k);
    } else {
      assert rs[..i] == rs;
    }
  }

  lemma TotalWithin(rs: seq<Reservation>, k: Key)
    requires Acceptable(rs)
    ensures Lookup(Amounts(rs), k) == Total(rs, k) <= MAX64
  {
    if k in Charged(rs) {
      ChargedOk(rs, k);
    } else {
      TotalOfAbsent(rs, k);
    }
  }

  lemma TotalPlus(a: seq<Reservation>, r: Reservation, k: Key)
    ensures Total(a + [r], k) == Total(a, k) + if r.key == k && r.cost > 0 then r.cost else 0
  {
    assert (a + [r])[..|a|] == a;
  }

  lemma ChargedPlus(a: seq<Reservation>, r: Reservation)
    ensures Charged(a + [r]) == if r.cost == 0 then Charged(a) else Charged(a) + {r.key}
  {
    var b := a + [r];
    assert forall i | 0 <= i < |a| :: b[i] == a[i];
    assert b[|a|] == r;
  }

  /** One more acceptable entry: the totals of the other keys are unchanged. */
  lemma AcceptableExtend(a: seq<Reservation>, r: Reservation)
    requires Acceptable(a) && ValidKey(r.key) && r.cost >= 0 && Total(a, r.key) + r.cost <= MAX64
    ensures Acceptable(a + [r])
  {
    var b := a + [r];
    forall i | 0 <= i < |b| ensures EntryOk(b, i) {
      if i < |a| { assert EntryOk(a, i); }
      TotalWithin(a, b[i].key);
      TotalPlus(a, r, b[i].key);
    }
  }

  lemma AmountsAre(rs: seq<Reservation>, m: map<Key, Amount>)
    requires Acceptable(rs) && m.Keys == Charged(rs) && forall k | k in m :: m[k] == Total(rs, k)
    ensures Amounts(rs) == m
  {
  }

  lemma {:induction false} AmountsExtend(a: seq<Reservation>, r: Reservation)
    requires Acceptable(a) && Acceptable(a + [r]) && r.cost >= 0 && Total(a, r.key) + r.cost <= MAX64
    ensures Amounts(a + [r]) == if r.cost == 0 then Amounts(a) else Amounts(a)[r.key := Total(a, r.key) + r.cost]
  {
    var m := if r.cost == 0 then Amounts(a) else Amounts(a)[r.key := Total(a, r.key) + r.cost];
    ChargedPlus(a, r);
    hide Total, Charged;
    forall k | k in m ensures m[k] == Total(a + [r], k) {
      TotalPlus(a, r, k);
    }
    AmountsAre(a + [r], m);
  }

  lemma AggregateStep(rs: seq<Reservation>, i: nat)
    requires i < |rs| && Acceptable(rs[..i])
    ensures Acceptable(rs) ==> ValidKey(rs[i].key) && rs[i].cost >= 0
    ensures Lookup(Amounts(rs[..i]), rs[i].key) == Total(rs[..i], rs[i].key)
    ensures ValidKey(rs[i].key) && rs[i].cost >= 0 && Total(rs[..i], rs[i].key) + rs[i].cost > MAX64 ==> !Acceptable(rs)
    ensures ValidKey(rs[i].key) && rs[i].cost >= 0 && Total(rs[..i], rs[i].key) + rs[i].cost <= MAX64 ==>
      && Acceptable(rs[..i + 1])
      && (rs[i].cost == 0 ==> Amounts(rs[..i + 1]) == Amounts(rs[..i]))
      && (rs[i].cost > 0 ==>
            Amounts(rs[..i + 1]) == Amounts(rs[..i])[rs[i].key := Total(rs[..i], rs[i].key) + rs[i].cost])
  {
    var a, r := rs[..i], rs[i];
    assert rs[..i + 1] == a + [r];
    assert Acceptable(rs) ==> EntryOk(rs, i);
    TotalWithin(a, r.key);
    TotalGrows(rs, i + 1, r.key);
    TotalPlus(a, r, r.key);
    if ValidKey(r.key) && r.cost >= 0 && Total(a, r.key) + r.cost <= MAX64 {
      AcceptableExtend(a, r);
      AmountsExtend(a, r);
    }
  }

  /** Charges of different keys fall on different objects, so the order of the loop does not matter. */
  lemma ChargeOneMore<B>(l: Ledger<B>, seen: map<Key, Amount>, k: Key, cost: Amount, b: B)
    requires Closed(l) && b in l.heap && k !in seen
    ensures Charge(l, seen[k := cost], b) ==
            if k in l.live && l.live[k] == b
            then Charge(l, seen, b).(reserved := Wrap64(Charge(l, seen, b).reserved + cost))
            else Charge(l, seen, b)
  {
  }

  lemma HoldsOneMore<B>(l: Ledger<B>, seen: map<Key, Amount>, k: Key, cost: Amount)
    ensures HoldsFor(l, seen[k := cost]) ==
            HoldsFor(l, seen)[k := Hold(cost, if k in l.live then Some(l.live[k]) else None)]
  {
  }

  lemma FreeOneMore<B>(l: Ledger<B>, seen: map<Key, Hold<B>>, k: Key, hold: Hold<B>, b: B)
    requires b in l.heap && k !in seen && (hold.bucket.Some? ==> PointsTo(l.heap, k, hold.bucket.value))
    ensures Freed(l, seen[k := hold], b) ==
            if hold.bucket == Some(b) then Unhold(Freed(l, seen, b), hold.cost) else Freed(l, seen, b)
  {
  }

  lemma VisitedAll<K, V>(m: map<K, V>)
    ensures Visited(m, {}) == m && Visited(m, m.Keys) == map[]
  {
  }

  lemma VisitedMore<K, V>(m: map<K, V>, todo: set<K>, k: K)
    requires k in todo && todo <= m.Keys
    ensures k !in Visited(m, todo) && Visited(m, todo - {k}) == Visited(m, todo)[k := m[k]]
  {
  }

  lemma CanSettleExtend<B>(l: Ledger<B>, t: nat, order: seq<Key>, spares: seq<B>, table: map<Key, Settlement>,
                           now: int, k: Key, spare: B)
    requires CanSettle(l, t, order, spares) && k in l.tickets[t] && k !in order && spare !in l.heap && spare !in spares
    ensures CanSettle(l, t, order + [k], spares + [spare])
    ensures Owns(SettleKeys(l, t, order, table, now, spares), t, k)
    ensures spare !in SettleKeys(l, t, order, table, now, spares).heap
    ensures SettleKeys(l, t, order + [k], table, now, spares + [spare]) ==
            SettleKey(SettleKeys(l, t, order, table, now, spares), t, k, table, now, spare)
  {
    assert (order + [k])[..|order|] == order && (spares + [spare])[..|order|] == spares;
  }

  /** Indexes settlements by key, refusing malformed or duplicate ones. */
  method TabulateSettlements(ss: seq<Settlement>) returns (table: map<Key, Settlement>, ok: bool)
    ensures ok <==> WellFormed(ss)
    ensures ok ==> table == ByKey(ss)
  {
    table := map[];
    for i := 0 to |ss|
      invariant WellFormed(ss[..i]) && table == ByKey(ss[..i])
    {
      TableOneMore(ss, i);
      if !SettlementOk(ss[i]) || ss[i].key in table {
        return map[], false;
      }
      table := table[ss[i].key := ss[i]];
    }
    assert ss[..|ss|] == ss;
    ok := true;
  }

  lemma {:induction false} TableOneMore(ss: seq<Settlement>, i: nat)
    requires i < |ss| && WellFormed(ss[..i])
    ensures WellFormed(ss) ==> SettlementOk(ss[i]) && ss[i].key !in ByKey(ss[..i])
    ensures SettlementOk(ss[i]) && ss[i].key !in ByKey(ss[..i]) ==> WellFormed(ss[..i + 1])
    ensures ByKey(ss[..i + 1]) == ByKey(ss[..i])[ss[i].key := ss[i]]
  {
    TableMore(ss, i);
    ByKeyEntries(ss[..i]);
    hide ByKey, SettlementOk;
    forall j | 0 <= j < i ensures ss[j].key in ByKey(ss[..i]) {
      assert ss[..i][j] == ss[j];
    }
  }

  lemma {:induction false} TableMore(ss: seq<Settlement>, i: nat)
    requires i < |ss|
    ensures ByKey(ss[..i + 1]) == ByKey(ss[..i])[ss[i].key := ss[i]]
  {
    assert ss[..i + 1][..i] == ss[..i];
  }

  class QuotaLedger {
    var buckets: map<Key, BucketObject>
    var tickets: map<nat, map<Key, Hold<BucketObject>>>
    var nextTicketId: nat
    /** The abstract value; its heap holds every bucket object ever created, dropped ones included. */
    ghost var model: Ledger<BucketObject>

    ghost predicate Mirrors()
      reads this, model.heap.Keys
    {
      && buckets == model.live && nextTicketId == model.nextTicketId
      && forall b | b in model.heap :: b.Value() == model.heap[b]
    }

    ghost predicate Valid()
      reads this, model.heap.Keys
    {
      Mirrors() && tickets == model.tickets && Inv(model)
    }

    constructor ()
      ensures Valid() && model == Empty()
    {
      buckets, tickets, nextTicketId, model := map[], map[], 0, Empty();
    }

    method PurgeExpired(now: int)
      requires Mirrors() && Closed(model)
      modifies this`buckets, this`model
      ensures Mirrors() && model == Purge(old(model), now)
    {
      model := Purge(model, now);
      var todo := buckets.Keys;
      while todo != {}
        modifies this`buckets
        invariant todo <= buckets.Keys <= old(buckets).Keys
        invariant forall k | k in buckets :: buckets[k] == old(buckets[k])
        invariant forall k | k in old(buckets) :: k in buckets <==> k in todo || !Past(old(buckets[k].observation), now)
        decreases todo
      {
        var k :| k in todo;
        if Past(buckets[k].observation, now) {
          buckets := buckets - {k};
        }
        todo := todo - {k};
      }
    }

    /** Sets the live bucket's observation, creating the bucket when the key has none. */
    method Install(k: Key, o: Observation) returns (ghost spare: BucketObject)
      requires Mirrors() && Closed(model)
      modifies this`buckets, this`model, model.heap.Keys
      ensures Mirrors() && fresh(spare) && model == QuotaSpec.Install(old(model), k, o, spare)
    {
      spare := new BucketObject;
      if k in buckets {
        var b := buckets[k];
        assert PointsTo(model.heap, k, b);
        b.observation := o;
      } else {
        var b := new BucketObject;
        b.key, b.observation, b.reserved, b.probeSettled := k, o, 0, false;
        buckets := buckets[k := b];
        spare := b;
      }
      model := QuotaSpec.Install(model, k, o, spare);
    }

    method Discard(k: Key)
      requires Mirrors()
      modifies this`buckets, this`model
      ensures Mirrors() && model == old(model).(live := old(model).live - {k})
    {
      buckets := buckets - {k};
      model := model.(live := model.live - {k});
    }

    /** The critical section of Observe. */
    method ObserveLocked(k: Key, o: Observation, now: int) returns (ok: bool, ghost spare: BucketObject)
      requires Mirrors() && Closed(model) && ValidKey(k) && o.limit >= 0 && o.remaining >= 0
      modifies this`buckets, this`model, model.heap.Keys
      ensures Mirrors() && fresh(spare) && (model, ok) == QuotaSpec.Observe(old(model), k, o, now, spare)
    {
      PurgeExpired(now);
      if o.resetAt != 0 && o.resetAt <= now {
        Discard(k);
        spare := new BucketObject;
        ok := false;
      } else {
        var o1 := if o.observedAt == 0 then o.(observedAt := now) else o;
        o1 := if o1.remaining > o1.limit then o1.(remaining := o1.limit) else o1;
        spare := Install(k, o1);
        ok := true;
      }
    }

    method Observe(k: Key, o: Observation, now: int) returns (ok: bool, ghost spare: BucketObject)
      requires Valid()
      modifies this`buckets, this`model, model.heap.Keys
      ensures Valid() && fresh(spare)
      ensures (model, ok) == QuotaSpec.Observe(old(model), k, o, now, spare)
    {
      if !ValidKey(k) || o.limit < 0 || o.remaining < 0 {
        spare := new BucketObject;
        return false, spare;
      }
      ghost var before := model;
      ok, spare := ObserveLocked(k, o, now);
      ObserveKeeps(before, k, o, now, spare);
    }

    /** The critical section of Snapshot. */
    method SnapshotLocked(k: Key, now: int) returns (view: Option<View>)
      requires Mirrors() && Closed(model)
      modifies this`buckets, this`model
      ensures Mirrors() && (model, view) == QuotaSpec.Snapshot(old(model), k, now)
    {
      PurgeExpired(now);
      if k !in buckets {
        return None;
      }
      var b := buckets[k];
      assert PointsTo(model.heap, k, b);
      if k.window == "minute" && b.observation.resetAt == 0 && b.observation.observedAt != 0 &&
         now / MINUTE > b.observation.observedAt / MINUTE {
        Discard(k);
        return None;
      }
      var free := Wrap64(b.observation.remaining - b.reserved);
      if free < 0 {
        free := 0;
      }
      view := Some(View(b.observation, b.reserved, free, b.probeSettled));
    }

    method Snapshot(k: Key, now: int) returns (view: Option<View>)
      requires Valid()
      modifies this`buckets, this`model
      ensures Valid() && (model, view) == QuotaSpec.Snapshot(old(model), k, now)
    {
      SnapshotKeeps(model, k, now);
      view := SnapshotLocked(k, now);
    }

    /** First loop of ReserveAll: does every known bucket admit its charge? */
    method AllAdmit(amounts: map<Key, Amount>) returns (ok: bool)
      requires Mirrors() && Closed(model)
      ensures ok <==> forall k | k in amounts :: Admits(model, k, amounts[k])
    {
      var todo := amounts.Keys;
      while todo != {}
        invariant todo <= amounts.Keys
        invariant forall k | k in amounts && k !in todo :: Admits(model, k, amounts[k])
        decreases todo
      {
        var k :| k in todo;
        todo := todo - {k};
        if k in buckets {
          var b := buckets[k];
          assert PointsTo(model.heap, k, b);
          if Wrap64(b.observation.remaining - b.reserved) < amounts[k] &&
             !(b.observation.confidence == Estimated && b.reserved == 0 && !b.probeSettled) {
            assert !Admits(model, k, amounts[k]);
            return false;
          }
        }
      }
      ok := true;
    }

    /** Charges one key's live bucket, if it has one, and returns the object charged. */
    method TakeHold(k: Key, cost: Amount, ghost l: Ledger<BucketObject>, ghost seen: map<Key, Amount>)
      returns (bucket: Option<BucketObject>)
      requires Mirrors() && Closed(l) && model == l.(heap := ChargeAll(l, seen)) && k !in seen
      modifies this`model, model.heap.Keys`reserved
      ensures bucket == if k in buckets then Some(buckets[k]) else None
      ensures Mirrors() && model == l.(heap := ChargeAll(l, seen[k := cost]))
    {
      bucket := None;
      if k in buckets {
        var b := buckets[k];
        assert PointsTo(l.heap, k, b);
        b.reserved := Wrap64(b.reserved + cost);
        bucket := Some(b);
      }
      model := l.(heap := ChargeAll(l, seen[k := cost]));
      forall b | b in l.heap ensures b.Value() == model.heap[b] {
        ChargeOneMore(l, seen, k, cost, b);
      }
    }

    /** Second loop of ReserveAll: charge every known bucket and remember the objects charged. */
    method TakeHolds(amounts: map<Key, Amount>) returns (holds: map<Key, Hold<BucketObject>>)
      requires Mirrors() && Closed(model)
      modifies this`model, model.heap.Keys`reserved
      ensures holds == HoldsFor(old(model), amounts)
      ensures Mirrors() && model == old(model).(heap := ChargeAll(old(model), amounts))
    {
      ghost var l := model;
      holds := map[];
      var todo := amounts.Keys;
      VisitedAll(amounts);
      assert ChargeAll(l, map[]) == l.heap;
      while todo != {}
        invariant todo <= amounts.Keys && Mirrors()
        invariant holds == HoldsFor(l, Visited(amounts, todo))
        invariant model == l.(heap := ChargeAll(l, Visited(amounts, todo)))
        decreases todo
      {
        var k :| k in todo;
        VisitedMore(amounts, todo, k);
        HoldsOneMore(l, Visited(amounts, todo), k, amounts[k]);
        var bucket := TakeHold(k, amounts[k], l, Visited(amounts, todo));
        holds := holds[k := Hold(amounts[k], bucket)];
        todo := todo - {k};
      }
    }

    /** Issues the ticket that owns the charges. Ids are unbounded here, so the next one is never outstanding. */
    method Grant(amounts: map<Key, Amount>)
      requires Mirrors() && tickets == model.tickets && Closed(model)
      modifies this`tickets, this`nextTicketId, this`model, model.heap.Keys`reserved
      ensures Mirrors() && tickets == model.tickets && model == Commit(old(model), amounts)
    {
      var holds := TakeHolds(amounts);
      nextTicketId := nextTicketId + 1;
      tickets := tickets[nextTicketId := holds];
      model := model.(nextTicketId := nextTicketId, tickets := tickets);
    }

    /** The critical section of ReserveAll. */
    method ReserveLocked(amounts: map<Key, Amount>, now: int) returns (ok: bool)
      requires Mirrors() && tickets == model.tickets && Closed(model)
      modifies this`buckets, this`tickets, this`nextTicketId, this`model, model.heap.Keys`reserved
      ensures Mirrors() && tickets == model.tickets
      ensures ok <==> forall k | k in amounts :: Admits(Purge(old(model), now), k, amounts[k])
      ensures model == if ok then Commit(Purge(old(model), now), amounts) else Purge(old(model), now)
    {
      PurgeExpired(now);
      ok := AllAdmit(amounts);
      if ok {
        Grant(amounts);
      }
    }

    method ReserveAll(rs: seq<Reservation>, now: int) returns (ticket: Ticket, ok: bool)
      requires Valid()
      modifies this`buckets, this`tickets, this`nextTicketId, this`model, model.heap.Keys`reserved
      ensures Valid()
      ensures (model, if ok then Some(ticket.id) else None) == QuotaSpec.ReserveAll(old(model), rs, now)
      ensures ticket == if ok then Ticket(this, nextTicketId) else Ticket(null, 0)
    {
      ReserveKeeps(model, rs, now);
      var amounts, acceptable := AggregateReservations(rs);
      if !acceptable {
        return Ticket(null, 0), false;
      }
      ok := ReserveLocked(amounts, now);
      ticket := if ok then Ticket(this, nextTicketId) else Ticket(null, 0);
    }

    /** Gives back one hold; the clamp mirrors the source and never bites in a valid ledger. */
    method GiveBack(k: Key, hold: Hold<BucketObject>, ghost l: Ledger<BucketObject>, ghost seen: map<Key,
                    Hold<BucketObject>>)
      requires Mirrors() && model == l.(heap := FreeAll(l, seen)) && k !in seen
      requires hold.bucket.Some? ==> PointsTo(l.heap, k, hold.bucket.value)
      modifies this`model, model.heap.Keys`reserved
      ensures Mirrors() && model == l.(heap := FreeAll(l, seen[k := hold]))
    {
      if hold.bucket.Some? {
        var b := hold.bucket.value;
        b.reserved := Wrap64(b.reserved - Min(b.reserved, hold.cost));
      }
      model := l.(heap := FreeAll(l, seen[k := hold]));
      forall b | b in l.heap ensures b.Value() == model.heap[b] {
        FreeOneMore(l, seen, k, hold, b);
      }
    }

    method ReleaseHolds(holds: map<Key, Hold<BucketObject>>)
      requires Mirrors() && HoldsClosed(model.heap, holds)
      modifies this`model, model.heap.Keys`reserved
      ensures Mirrors() && model == old(model).(heap := FreeAll(old(model), holds))
    {
      ghost var l := model;
      var todo := holds.Keys;
      VisitedAll(holds);
      assert FreeAll(l, map[]) == l.heap;
      while todo != {}
        invariant todo <= holds.Keys && Mirrors()
        invariant model == l.(heap := FreeAll(l, Visited(holds, todo)))
        decreases todo
      {
        var k :| k in todo;
        VisitedMore(holds, todo, k);
        GiveBack(k, holds[k], l, Visited(holds, todo));
        todo := todo - {k};
      }
    }

    method Release(ticket: Ticket, now: int) returns (ok: bool)
      requires Valid()
      modifies this`buckets, this`tickets, this`model, model.heap.Keys`reserved
      ensures Valid()
      ensures ticket.ledger == this ==> (model, ok) == QuotaSpec.Release(old(model), ticket.id, now)
      ensures ticket.ledger != this ==> !ok && model == old(model)
    {
      if ticket.ledger != this || ticket.id == 0 {
        return false;
      }
      ReleaseKeeps(model, ticket.id, now);
      PurgeExpired(now);
      ok := ticket.id in tickets;
      if ok {
        var holds := tickets[ticket.id];
        ReleaseHolds(holds);
        tickets := tickets - {ticket.id};
        model := model.(tickets := tickets);
      }
    }

    method ConfirmHold(ghost t: nat, ghost k: Key, hold: Hold<BucketObject>)
      requires Mirrors() && Closed(model) && Owns(model, t, k) && hold == model.tickets[t][k]
      modifies this`model, model.heap.Keys
      ensures Mirrors() && model == Confirm(old(model), t, k) && Closed(model)
    {
      assert HoldsClosed(model.heap, model.tickets[t]);
      ConfirmClosed(model, t, k);
      model := Confirm(model, t, k);
      if hold.bucket.Some? {
        var b := hold.bucket.value;
        b.reserved := Wrap64(b.reserved - Min(b.reserved, hold.cost));
        b.probeSettled := true;
      }
    }

    method SpendHold(bucket: Option<BucketObject>, actual: Int64)
      requires Mirrors() && (bucket.Some? ==> bucket.value in model.heap)
      modifies this`model, model.heap.Keys
      ensures Mirrors() && model == Spend(old(model), bucket, actual)
    {
      model := Spend(model, bucket, actual);
      if bucket.Some? {
        var b := bucket.value;
        var left := Wrap64(b.observation.remaining - Min(b.observation.remaining, actual));
        b.observation := b.observation.(remaining := left);
      }
    }

    /** Records the provider's report for the key, or commits the usage when there is none. */
    method AccountHold(k: Key, hold: Hold<BucketObject>, table: map<Key, Settlement>, now: int)
      returns (ghost spare: BucketObject)
      requires Mirrors() && Closed(model) && (hold.bucket.Some? ==> hold.bucket.value in model.heap)
      modifies this`buckets, this`model, model.heap.Keys
      ensures Mirrors() && fresh(spare) && model == Account(old(model), k, hold, table, now, spare)
    {
      if k in table && table[k].observation.Some? {
        var o := Normalise(table[k].observation.value, now);
        if o.resetAt != 0 && o.resetAt <= now {
          Discard(k);
          spare := new BucketObject;
        } else {
          spare := Install(k, o);
        }
      } else {
        SpendHold(hold.bucket, if k in table then table[k].actual else hold.cost);
        spare := new BucketObject;
      }
    }

    /** One turn of the settlement loop. */
    method SettleHold(ghost t: nat, k: Key, hold: Hold<BucketObject>, table: map<Key, Settlement>, now: int)
      returns (ghost spare: BucketObject)
      requires Mirrors() && Closed(model) && Owns(model, t, k) && hold == model.tickets[t][k]
      modifies this`buckets, this`model, model.heap.Keys
      ensures Mirrors() && fresh(spare) && spare !in old(model).heap
      ensures model == SettleKey(old(model), t, k, table, now, spare)
    {
      assert HoldsClosed(model.heap, model.tickets[t]);
      ConfirmHold(t, k, hold);
      spare := AccountHold(k, hold, table, now);
    }

    method SettleHolds(ghost t: nat, holds: map<Key, Hold<BucketObject>>, table: map<Key, Settlement>, now: int)
      returns (ghost order: seq<Key>, ghost spares: seq<BucketObject>)
      requires Mirrors() && Closed(model) && t in model.tickets && holds == model.tickets[t]
      modifies this`buckets, this`model, model.heap.Keys
      ensures Mirrors()
      ensures CanSettle(old(model), t, order, spares) && Visits(order, holds)
      ensures model == SettleKeys(old(model), t, order, table, now, spares)
    {
      hide SettleKey, HoldsClosed;
      ghost var l := model;
      order, spares := [], [];
      assert CanSettle(l, t, order, spares) && model == SettleKeys(l, t, order, table, now, spares);
      hide CanSettle, SettleKeys;
      var todo := holds.Keys;
      while todo != {}
        invariant todo <= holds.Keys && Mirrors()
        invariant forall k :: k in order <==> k in holds && k !in todo
        invariant forall i | 0 <= i < |spares| :: fresh(spares[i])
        invariant CanSettle(l, t, order, spares) && model == SettleKeys(l, t, order, table, now, spares)
        decreases todo
      {
        var k :| k in todo;
        ghost var spare := SettleHold(t, k, holds[k], table, now);
        CanSettleExtend(l, t, order, spares, table, now, k, spare);
        order, spares := order + [k], spares + [spare];
        todo := todo - {k};
      }
    }

    /** The critical section of Reconcile. */
    method ReconcileLocked(t: nat, table: map<Key, Settlement>, now: int)
      returns (ok: bool, ghost order: seq<Key>, ghost spares: seq<BucketObject>)
      requires Mirrors() && tickets == model.tickets && Closed(model)
      modifies this`buckets, this`tickets, this`model, model.heap.Keys
      ensures Mirrors() && tickets == model.tickets
      ensures ok <==> t in old(tickets) && forall k | k in table :: k in old(tickets)[t]
      ensures ok ==> CanSettle(old(model), t, order, spares) && Visits(order, old(tickets)[t])
      ensures model == if ok
                       then SettleKeys(Purge(old(model), now), t, order, table, now, spares)
                            .(tickets := old(tickets) - {t})
                       else Purge(old(model), now)
    {
      order, spares := [], [];
      PurgeExpired(now);
      if t !in tickets {
        return false, order, spares;
      }
      var todo := table.Keys;
      while todo != {}
        invariant todo <= table.Keys
        invariant forall k | k in table && k !in todo :: k in tickets[t]
        decreases todo
      {
        var k :| k in todo;
        if k !in tickets[t] {
          return false, order, spares;
        }
        todo := todo - {k};
      }
      order, spares := SettleHolds(t, tickets[t], table, now);
      tickets := tickets - {t};
      model := model.(tickets := tickets);
      ok := true;
    }

    method Reconcile(ticket: Ticket, ss: seq<Settlement>, now: int)
      returns (ok: bool, ghost order: seq<Key>, ghost spares: seq<BucketObject>)
      requires Valid()
      modifies this`buckets, this`tickets, this`model, model.heap.Keys
      ensures Valid()
      ensures ticket.ledger == this && Accepts(old(model), ticket.id, ss) ==>
        CanSettle(old(model), ticket.id, order, spares) && Visits(order, old(model).tickets[ticket.id])
      ensures ticket.ledger == this ==>
        (model, ok) == QuotaSpec.Reconcile(old(model), ticket.id, ss, now, order, spares)
      ensures ticket.ledger != this ==> !ok && model == old(model)
    {
      order, spares := [], [];
      if ticket.ledger != this || ticket.id == 0 {
        return false, order, spares;
      }
      var table, wellFormed := TabulateSettlements(ss);
      if !wellFormed {
        return false, order, spares;
      }
      ghost var before := model;
      ok, order, spares := ReconcileLocked(ticket.id, table, now);
      ByKeyEntries(ss);
      ReconcileKeeps(before, ticket.id, ss, now, order, spares);
    }

    /** The dimensions a ticket owns; nothing for a ticket this ledger does not know. */
    method Reservations(ticket: Ticket) returns (out: map<Key, Amount>)
      requires Valid()
      ensures out == if ticket.ledger == this && ticket.id in model.tickets
                     then map k | k in model.tickets[ticket.id] :: model.tickets[ticket.id][k].cost
                     else map[]
    {
      if ticket.ledger != this || ticket.id !in tickets {
        return map[];
      }
      var holds := tickets[ticket.id];
      out := map k | k in holds :: holds[k].cost;
    }
  }
}
