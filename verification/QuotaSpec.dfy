/**
 The quota ledger as a value. `B` identifies bucket objects: a ticket refers to the very object
 it reserved on, so a bucket dropped from `live` by expiry stays in `heap` for as long as the
 model runs. Each operation is one critical section of the ledger's mutex.
 Times are integers; 0 stands for Go's zero `time.Time`.
 */
module QuotaSpec {
  import opened Base

  const MINUTE: int := 60_000_000_000

  datatype Key = Key(provider: string, scope: string, modelOrPool: string, dimension: string, window: string)

  datatype Source = ProviderHeader | ProviderBody | Config | LocalEstimate

  datatype Confidence = Authoritative | Estimated

  datatype Observation = Observation(
    limit: Int64, remaining: Int64, resetAt: int, source: Source, confidence: Confidence, observedAt: int)

  datatype Reservation = Reservation(key: Key, cost: Int64)

  datatype Settlement = Settlement(key: Key, actual: Int64, observation: Option<Observation>)

  /** `key` is auxiliary: it records the key under which the object was created. */
  datatype Bucket = Bucket(key: Key, observation: Observation, reserved: Int64, probeSettled: bool)

  datatype Hold<B> = Hold(cost: Amount, bucket: Option<B>)

  datatype Ledger<B(==)> = Ledger(
    heap: map<B, Bucket>,
    live: map<Key, B>,
    tickets: map<nat, map<Key, Hold<B>>>,
    nextTicketId: nat)

  datatype View = View(observation: Observation, reserved: Int64, available: Int64, probeSettled: bool)

  predicate ValidKey(k: Key) {
    k.provider != "" && k.scope != "" && k.modelOrPool != "" && k.dimension != "" && k.window != ""
  }

  function Empty<B(==)>(): Ledger<B> {
    Ledger(map[], map[], map[], 0)
  }

  predicate PointsTo<B>(heap: map<B, Bucket>, k: Key, b: B) {
    b in heap && heap[b].key == k
  }

  predicate HoldsClosed<B>(heap: map<B, Bucket>, holds: map<Key, Hold<B>>) {
    forall k | k in holds :: holds[k].bucket.Some? ==> PointsTo(heap, k, holds[k].bucket.value)
  }

  /** Every pointer leads to an object, under the object's own key. */
  predicate Closed<B>(l: Ledger<B>) {
    && (forall k | k in l.live :: PointsTo(l.heap, k, l.live[k]))
    && (forall t | t in l.tickets :: HoldsClosed(l.heap, l.tickets[t]))
  }

  predicate Past(o: Observation, now: int) {
    o.resetAt != 0 && o.resetAt <= now
  }

  function Purge<B>(l: Ledger<B>, now: int): Ledger<B>
    requires Closed(l)
  {
    l.(live := map k | k in l.live && !Past(l.heap[l.live[k]].observation, now) :: l.live[k])
  }

  function Normalise(o: Observation, now: int): Observation {
    var o := if o.observedAt == 0 then o.(observedAt := now) else o;
    if o.remaining > o.limit then o.(remaining := o.limit) else o
  }

  /** Point the key at an object carrying `o`: the live one, or `spare` when there is none. */
  function Install<B>(l: Ledger<B>, k: Key, o: Observation, spare: B): Ledger<B>
    requires Closed(l)
  {
    if k in l.live then
      var b := l.live[k];
      l.(heap := l.heap[b := l.heap[b].(observation := o)])
    else
      l.(heap := l.heap[spare := Bucket(k, o, 0, false)], live := l.live[k := spare])
  }

  function Observe<B>(l: Ledger<B>, k: Key, o: Observation, now: int, spare: B): (Ledger<B>, bool)
    requires Closed(l)
  {
    if !ValidKey(k) || o.limit < 0 || o.remaining < 0 then (l, false)
    else if Past(o, now) then
      var p := Purge(l, now);
      (p.(live := p.live - {k}), false)
    else
      (Install(Purge(l, now), k, Normalise(o, now), spare), true)
  }

  /** A minute bucket that never learnt its reset is dropped once its minute is over. */
  predicate Stale(k: Key, o: Observation, now: int) {
    k.window == "minute" && o.resetAt == 0 && o.observedAt != 0 && now / MINUTE > o.observedAt / MINUTE
  }

  function ViewOf(b: Bucket): View {
    var free := Wrap64(b.observation.remaining - b.reserved);
    View(b.observation, b.reserved, if free < 0 then 0 else free, b.probeSettled)
  }

  function Snapshot<B>(l: Ledger<B>, k: Key, now: int): (Ledger<B>, Option<View>)
    requires Closed(l)
  {
    var p := Purge(l, now);
    if k !in p.live then (p, None)
    else if Stale(k, p.heap[p.live[k]].observation, now) then (p.(live := p.live - {k}), None)
    else (p, Some(ViewOf(p.heap[p.live[k]])))
  }

  /** What the reservations ask of one key, in unbounded arithmetic. */
  function Total(rs: seq<Reservation>, k: Key): nat {
    if rs == [] then 0
    else
      var last := rs[|rs| - 1];
      Total(rs[..|rs| - 1], k) + (if last.key == k && last.cost > 0 then last.cost else 0)
  }

  predicate EntryOk(rs: seq<Reservation>, i: int)
    requires 0 <= i < |rs|
  {
    ValidKey(rs[i].key) && rs[i].cost >= 0 && Total(rs, rs[i].key) <= MAX64
  }

  predicate Acceptable(rs: seq<Reservation>) {
    forall i | 0 <= i < |rs| :: EntryOk(rs, i)
  }

  /** The keys that are charged: those named with a nonzero cost. */
  function Charged(rs: seq<Reservation>): set<Key> {
    set i | 0 <= i < |rs| && rs[i].cost != 0 :: rs[i].key
  }

  lemma ChargedOk(rs: seq<Reservation>, k: Key)
    requires Acceptable(rs) && k in Charged(rs)
    ensures ValidKey(k) && Total(rs, k) <= MAX64
  {
    var i :| 0 <= i < |rs| && rs[i].cost != 0 && rs[i].key == k;
    assert EntryOk(rs, i);
  }

  function AmountOf(rs: seq<Reservation>, k: Key): Amount
    requires Acceptable(rs) && k in Charged(rs)
  {
    ChargedOk(rs, k);
    Total(rs, k)
  }

  function Amounts(rs: seq<Reservation>): map<Key, Amount>
    requires Acceptable(rs)
  {
    map k | k in Charged(rs) :: AmountOf(rs, k)
  }

  predicate InBudget(b: Bucket, cost: int) {
    Wrap64(b.observation.remaining - b.reserved) >= cost
  }

  /** The bootstrap exception: an unconfirmed estimate lets one request through to test it. */
  predicate ProbeAllowed(b: Bucket) {
    b.observation.confidence == Estimated && b.reserved == 0 && !b.probeSettled
  }

  predicate Admits<B>(l: Ledger<B>, k: Key, cost: int)
    requires Closed(l)
  {
    k in l.live ==> InBudget(l.heap[l.live[k]], cost) || ProbeAllowed(l.heap[l.live[k]])
  }

  /** Bucket object `b` after the reservation: charged if it is the live object of a charged key. */
  function Charge<B>(l: Ledger<B>, amounts: map<Key, Amount>, b: B): Bucket
    requires Closed(l) && b in l.heap
  {
    var k := l.heap[b].key;
    if k in amounts && k in l.live && l.live[k] == b
    then l.heap[b].(reserved := Wrap64(l.heap[b].reserved + amounts[k]))
    else l.heap[b]
  }

  function ChargeAll<B>(l: Ledger<B>, amounts: map<Key, Amount>): map<B, Bucket>
    requires Closed(l)
  {
    map b | b in l.heap :: Charge(l, amounts, b)
  }

  /** A hold remembers the bucket object it was taken on, if the key had one. */
  function HoldsFor<B>(l: Ledger<B>, amounts: map<Key, Amount>): map<Key, Hold<B>> {
    map k | k in amounts :: Hold(amounts[k], if k in l.live then Some(l.live[k]) else None)
  }

  function Commit<B>(l: Ledger<B>, amounts: map<Key, Amount>): Ledger<B>
    requires Closed(l)
  {
    l.(heap := ChargeAll(l, amounts),
       tickets := l.tickets[l.nextTicketId + 1 := HoldsFor(l, amounts)],
       nextTicketId := l.nextTicketId + 1)
  }

  /** A successful reservation returns the id of the ticket that owns the holds. */
  function ReserveAll<B>(l: Ledger<B>, rs: seq<Reservation>, now: int): (Ledger<B>, Option<nat>)
    requires Closed(l)
  {
    if !Acceptable(rs) then (l, None)
    else
      var p := Purge(l, now);
      if forall k | k in Amounts(rs) :: Admits(p, k, Amounts(rs)[k])
      then (Commit(p, Amounts(rs)), Some(p.nextTicketId + 1))
      else (p, None)
  }

  predicate HoldsOn<B(==)>(holds: map<Key, Hold<B>>, k: Key, b: B) {
    k in holds && holds[k].bucket == Some(b)
  }

  function Unhold(x: Bucket, cost: Amount): Bucket {
    x.(reserved := Wrap64(x.reserved - Min(x.reserved, cost)))
  }

  function Freed<B>(l: Ledger<B>, holds: map<Key, Hold<B>>, b: B): Bucket
    requires b in l.heap
  {
    if HoldsOn(holds, l.heap[b].key, b) then Unhold(l.heap[b], holds[l.heap[b].key].cost) else l.heap[b]
  }

  function FreeAll<B>(l: Ledger<B>, holds: map<Key, Hold<B>>): map<B, Bucket> {
    map b | b in l.heap :: Freed(l, holds, b)
  }

  function Release<B>(l: Ledger<B>, t: nat, now: int): (Ledger<B>, bool)
    requires Closed(l)
  {
    if t == 0 then (l, false)
    else
      var p := Purge(l, now);
      if t !in p.tickets then (p, false)
      else
        (p.(heap := FreeAll(p, p.tickets[t]), tickets := p.tickets - {t}), true)
  }

  predicate SettlementOk(s: Settlement) {
    && ValidKey(s.key) && s.actual >= 0
    && (s.observation.Some? ==> s.observation.value.limit >= 0 && s.observation.value.remaining >= 0)
  }

  predicate WellFormed(ss: seq<Settlement>) {
    && (forall i | 0 <= i < |ss| :: SettlementOk(ss[i]))
    && (forall i, j | 0 <= i < j < |ss| :: ss[i].key != ss[j].key)
  }

  /** The settlements indexed by key. */
  function ByKey(ss: seq<Settlement>): map<Key, Settlement> {
    if ss == [] then map[]
    else ByKey(ss[..|ss| - 1])[ss[|ss| - 1].key := ss[|ss| - 1]]
  }

  lemma {:induction false} ByKeyEntries(ss: seq<Settlement>)
    ensures forall k | k in ByKey(ss) :: ByKey(ss)[k] in ss && ByKey(ss)[k].key == k
    ensures forall s | s in ss :: s.key in ByKey(ss)
  {
    if ss != [] {
      ByKeyEntries(ss[..|ss| - 1]);
      assert ss == ss[..|ss| - 1] + [ss[|ss| - 1]];
    }
  }

  predicate Owns<B>(l: Ledger<B>, t: nat, k: Key) {
    t in l.tickets && k in l.tickets[t]
  }

  /** Gives back one hold and records on its object that a request reached the provider. */
  function Confirm<B>(l: Ledger<B>, t: nat, k: Key): Ledger<B>
    requires Closed(l) && Owns(l, t, k)
  {
    var hold := l.tickets[t][k];
    var l := l.(tickets := l.tickets[t := l.tickets[t] - {k}]);
    if hold.bucket == None then l
    else
      var b := hold.bucket.value;
      l.(heap := l.heap[b := Unhold(l.heap[b], hold.cost).(probeSettled := true)])
  }

  function Spend<B>(l: Ledger<B>, bucket: Option<B>, actual: Int64): Ledger<B>
    requires bucket.Some? ==> bucket.value in l.heap
  {
    if bucket == None then l
    else
      var o := l.heap[bucket.value].observation;
      var o := o.(remaining := Wrap64(o.remaining - Min(o.remaining, actual)));
      l.(heap := l.heap[bucket.value := l.heap[bucket.value].(observation := o)])
  }

  /** What the provider reported for `k`, or the usage to commit when it reported nothing. */
  function Account<B>(l: Ledger<B>, k: Key, hold: Hold<B>, table: map<Key, Settlement>, now: int, spare: B): Ledger<B>
    requires Closed(l) && (hold.bucket.Some? ==> hold.bucket.value in l.heap)
  {
    if k in table && table[k].observation.Some? then
      var o := Normalise(table[k].observation.value, now);
      if Past(o, now) then l.(live := l.live - {k}) else Install(l, k, o, spare)
    else Spend(l, hold.bucket, if k in table then table[k].actual else hold.cost)
  }

  predicate SubHolds<B(==)>(some: map<Key, Hold<B>>, all: map<Key, Hold<B>>) {
    forall k | k in some :: k in all && some[k] == all[k]
  }

  lemma ClosedAgain<B>(l: Ledger<B>, l': Ledger<B>)
    requires Closed(l)
    requires forall b | b in l.heap :: PointsTo(l'.heap, l.heap[b].key, b)
    requires forall k | k in l'.live :: PointsTo(l'.heap, k, l'.live[k])
    requires forall t | t in l'.tickets :: t in l.tickets && SubHolds(l'.tickets[t], l.tickets[t])
    ensures Closed(l')
  {
    forall t | t in l'.tickets ensures HoldsClosed(l'.heap, l'.tickets[t]) {
      assert HoldsClosed(l.heap, l.tickets[t]);
    }
  }

  lemma ConfirmClosed<B>(l: Ledger<B>, t: nat, k: Key)
    requires Closed(l) && Owns(l, t, k)
    ensures Closed(Confirm(l, t, k)) && Confirm(l, t, k).heap.Keys == l.heap.Keys
  {
    assert HoldsClosed(l.heap, l.tickets[t]);
    ClosedAgain(l, Confirm(l, t, k));
  }

  lemma AccountClosed<B>(l: Ledger<B>, k: Key, hold: Hold<B>, table: map<Key, Settlement>, now: int, spare: B)
    requires Closed(l) && (hold.bucket.Some? ==> hold.bucket.value in l.heap) && spare !in l.heap
    ensures Closed(Account(l, k, hold, table, now, spare))
    ensures Account(l, k, hold, table, now, spare).heap.Keys <= l.heap.Keys + {spare}
  {
    ClosedAgain(l, Account(l, k, hold, table, now, spare));
  }

  /** One turn of the settlement loop. */
  function SettleKey<B>(l: Ledger<B>, t: nat, k: Key, table: map<Key, Settlement>, now: int, spare: B): (r: Ledger<B>)
    requires Closed(l) && Owns(l, t, k) && spare !in l.heap
    ensures Closed(r) && r.heap.Keys <= l.heap.Keys + {spare}
    ensures r.tickets == l.tickets[t := l.tickets[t] - {k}] && r.nextTicketId == l.nextTicketId
  {
    assert HoldsClosed(l.heap, l.tickets[t]);
    ConfirmClosed(l, t, k);
    AccountClosed(Confirm(l, t, k), k, l.tickets[t][k], table, now, spare);
    Account(Confirm(l, t, k), k, l.tickets[t][k], table, now, spare)
  }

  predicate Distinct<T(==)>(s: seq<T>) {
    forall i, j | 0 <= i < j < |s| :: s[i] != s[j]
  }

  /** An order in which a loop may visit the keys of a map. */
  predicate Visits<V>(order: seq<Key>, m: map<Key, V>) {
    Distinct(order) && (set k | k in order) == m.Keys
  }

  predicate Unused<B>(l: Ledger<B>, spares: seq<B>) {
    Distinct(spares) && forall i | 0 <= i < |spares| :: spares[i] !in l.heap
  }

  function Remaining<B>(holds: map<Key, Hold<B>>, done: seq<Key>): map<Key, Hold<B>> {
    map k | k in holds && k !in done :: holds[k]
  }

  predicate CanSettle<B>(l: Ledger<B>, t: nat, order: seq<Key>, spares: seq<B>) {
    && Closed(l) && t in l.tickets && |spares| == |order|
    && Distinct(order) && (forall k | k in order :: k in l.tickets[t])
    && Unused(l, spares)
  }

  lemma CanSettleFront<B>(l: Ledger<B>, t: nat, order: seq<Key>, spares: seq<B>)
    requires CanSettle(l, t, order, spares) && order != []
    ensures var n := |order| - 1;
      && CanSettle(l, t, order[..n], spares[..n])
      && order[n] in Remaining(l.tickets[t], order[..n])
      && Remaining(l.tickets[t], order[..n]) - {order[n]} == Remaining(l.tickets[t], order)
      && spares[n] !in l.heap && spares[n] !in spares[..n]
  {
  }

  /** The settlement loop, over the keys of the ticket in the given order. */
  function SettleKeys<B>(l: Ledger<B>, t: nat, order: seq<Key>, table: map<Key, Settlement>, now: int,
                         spares: seq<B>): (r: Ledger<B>)
    requires CanSettle(l, t, order, spares)
    ensures Closed(r) && r.tickets == l.tickets[t := Remaining(l.tickets[t], order)]
    ensures r.nextTicketId == l.nextTicketId && forall b | b in r.heap :: b in l.heap || b in spares
    decreases |order|
  {
    if order == [] then assert Remaining(l.tickets[t], []) == l.tickets[t]; l
    else
      var n := |order| - 1;
      CanSettleFront(l, t, order, spares);
      var m := SettleKeys(l, t, order[..n], table, now, spares[..n]);
      assert m.tickets[t := m.tickets[t] - {order[n]}] == l.tickets[t := Remaining(l.tickets[t], order)];
      SettleKey(m, t, order[n], table, now, spares[n])
  }

  predicate Accepts<B>(l: Ledger<B>, t: nat, ss: seq<Settlement>) {
    t != 0 && WellFormed(ss) && t in l.tickets && forall s | s in ss :: s.key in l.tickets[t]
  }

  /** `order` is the order in which the loop visits the ticket's keys; `spares` are new objects. */
  function Reconcile<B>(l: Ledger<B>, t: nat, ss: seq<Settlement>, now: int, order: seq<Key>,
                        spares: seq<B>): (Ledger<B>, bool)
    requires Closed(l)
    requires Accepts(l, t, ss) ==> CanSettle(l, t, order, spares) && Visits(order, l.tickets[t])
  {
    if t == 0 || !WellFormed(ss) then (l, false)
    else
      var p := Purge(l, now);
      if !Accepts(p, t, ss) then (p, false)
      else (SettleKeys(p, t, order, ByKey(ss), now, spares).(tickets := l.tickets - {t}), true)
  }
}
