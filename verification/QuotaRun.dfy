/**
 Whole runs of the ledger: any interleaving of its critical sections, by any number of callers.
 Besides the ledger a run carries an audit, which records the reservations that were admitted over
 budget and the bucket objects on which such a reservation was later reconciled.
 */
module QuotaRun {
  import opened Base
  import opened QuotaSpec
  import opened QuotaInvariant

  datatype Step<B> =
    | DoObserve(key: Key, observation: Observation, now: int, spare: B)
    | DoSnapshot(key: Key, now: int)
    | DoKeys(now: int)
    | DoReserve(reservations: seq<Reservation>, now: int)
    | DoRelease(ticket: nat, now: int)
    | DoReconcile(ticket: nat, settlements: seq<Settlement>, now: int, order: seq<Key>, spares: seq<B>)

  /** New bucket objects are new and a loop visits each key once; nothing else restricts a caller. */
  predicate Enabled<B>(l: Ledger<B>, s: Step<B>) {
    Closed(l) &&
    match s
    case DoObserve(_, _, _, spare) => spare !in l.heap
    case DoReconcile(t, ss, _, order, spares) =>
      Accepts(l, t, ss) ==> CanSettle(l, t, order, spares) && Visits(order, l.tickets[t])
    case _ => true
  }

  function Apply<B>(l: Ledger<B>, s: Step<B>): Ledger<B>
    requires Enabled(l, s)
  {
    match s
    case DoObserve(k, o, now, spare) => Observe(l, k, o, now, spare).0
    case DoSnapshot(k, now) => Snapshot(l, k, now).0
    case DoKeys(now) => Purge(l, now)
    case DoReserve(rs, now) => ReserveAll(l, rs, now).0
    case DoRelease(t, now) => Release(l, t, now).0
    case DoReconcile(t, ss, now, order, spares) => Reconcile(l, t, ss, now, order, spares).0
  }

  /** Does this step consume ticket `t`? */
  predicate Consumes<B>(l: Ledger<B>, s: Step<B>, t: nat)
    requires Enabled(l, s)
  {
    match s
    case DoRelease(u, now) => u == t && Release(l, u, now).1
    case DoReconcile(u, ss, now, order, spares) => u == t && Reconcile(l, u, ss, now, order, spares).1
    case _ => false
  }

  ghost predicate IsRun<B>(states: seq<Ledger<B>>, steps: seq<Step<B>>) {
    && |states| == |steps| + 1
    && states[0] == Empty()
    && forall i | 0 <= i < |steps| :: Enabled(states[i], steps[i]) && states[i + 1] == Apply(states[i], steps[i])
  }

  lemma StepKeeps<B>(l: Ledger<B>, s: Step<B>)
    requires Inv(l) && Enabled(l, s)
    ensures Inv(Apply(l, s))
  {
    match s
    case DoObserve(k, o, now, spare) => ObserveKeeps(l, k, o, now, spare);
    case DoSnapshot(k, now) => SnapshotKeeps(l, k, now);
    case DoKeys(now) => PurgeKeeps(l, now);
    case DoReserve(rs, now) => ReserveKeeps(l, rs, now);
    case DoRelease(t, now) => ReleaseKeeps(l, t, now);
    case DoReconcile(t, ss, now, order, spares) => ReconcileKeeps(l, t, ss, now, order, spares);
  }

  /** In every reachable state the bookkeeping is exact on every bucket object. */
  lemma {:induction false} ReservedIsExact<B>(states: seq<Ledger<B>>, steps: seq<Step<B>>, i: nat)
    requires IsRun(states, steps) && i < |states|
    ensures Inv(states[i])
    ensures forall b | b in states[i].heap ::
      states[i].heap[b].reserved == Held(states[i].tickets, states[i].heap[b].key, b)
  {
    if i > 0 {
      ReservedIsExact(states, steps, i - 1);
      StepKeeps(states[i - 1], steps[i - 1]);
    }
  }

  // ---- tickets are one-shot ----

  lemma ReserveTickets<B>(l: Ledger<B>, rs: seq<Reservation>, now: int)
    requires Closed(l)
    ensures var (l', t) := ReserveAll(l, rs, now);
      if t == None then l'.tickets == l.tickets && l'.nextTicketId == l.nextTicketId
      else
        && t == Some(l.nextTicketId + 1) && l'.nextTicketId == l.nextTicketId + 1 && l'.nextTicketId in l'.tickets
        && l'.tickets == l.tickets[l'.nextTicketId := l'.tickets[l'.nextTicketId]]
  {
    var p := Purge(l, now);
    if ReserveAll(l, rs, now).1.Some? {
      assert Commit(p, Amounts(rs)).tickets == l.tickets[l.nextTicketId + 1 := HoldsFor(p, Amounts(rs))];
    }
  }

  /** How a step changes the ticket table: only the next id is added, and only consumption removes. */
  lemma StepTickets<B>(l: Ledger<B>, s: Step<B>, t: nat)
    requires Closed(l) && TicketsOk(l) && Enabled(l, s)
    ensures l.nextTicketId <= Apply(l, s).nextTicketId
    ensures t in Apply(l, s).tickets && t !in l.tickets ==> t == l.nextTicketId + 1 == Apply(l, s).nextTicketId
    ensures t in l.tickets && !Consumes(l, s, t) ==>
      t in Apply(l, s).tickets && Apply(l, s).tickets[t] == l.tickets[t]
    ensures Consumes(l, s, t) ==> t in l.tickets && t !in Apply(l, s).tickets
  {
    match s
    case DoObserve(_, _, _, _) =>
    case DoSnapshot(_, _) =>
    case DoKeys(_) =>
    case DoReserve(rs, now) =>
      hide ReserveAll;
      ReserveTickets(l, rs, now);
    case DoRelease(_, _) =>
    case DoReconcile(_, _, _, _, _) =>
  }

  lemma GoneStaysGone<B>(l: Ledger<B>, s: Step<B>, t: nat)
    requires Inv(l) && Enabled(l, s) && t <= l.nextTicketId && t !in l.tickets
    ensures t <= Apply(l, s).nextTicketId && t !in Apply(l, s).tickets
  {
    StepTickets(l, s, t);
  }

  lemma {:induction false} ConsumedStaysGone<B>(states: seq<Ledger<B>>, steps: seq<Step<B>>, t: nat, i: nat, j: nat)
    requires IsRun(states, steps) && i <= j < |states|
    requires t <= states[i].nextTicketId && t !in states[i].tickets
    ensures t <= states[j].nextTicketId && t !in states[j].tickets
    decreases j
  {
    hide Inv, Enabled, Apply;
    if i < j {
      ConsumedStaysGone(states, steps, t, i, j - 1);
      ReservedIsExact(states, steps, j - 1);
      GoneStaysGone(states[j - 1], steps[j - 1], t);
    }
  }

  /** Over any run a ticket is released or reconciled at most once. */
  lemma TicketConsumedOnce<B>(states: seq<Ledger<B>>, steps: seq<Step<B>>, t: nat, i: nat, j: nat)
    requires IsRun(states, steps) && i < |steps| && j < |steps|
    requires Consumes(states[i], steps[i], t) && Consumes(states[j], steps[j], t)
    ensures i == j
  {
    var a, b := Min(i, j), Max(i, j);
    if a < b {
      ReservedIsExact(states, steps, a);
      StepTickets(states[a], steps[a], t);
      ConsumedStaysGone(states, steps, t, a + 1, b);
      ReservedIsExact(states, steps, b);
      StepTickets(states[b], steps[b], t);
    }
  }

  /** A duplicate, unknown or malformed cleanup touches no bucket and no ticket; it may only purge. */
  lemma RefusedCleanupChangesNoHold<B>(l: Ledger<B>, s: Step<B>)
    requires Inv(l) && Enabled(l, s) && (s.DoRelease? || s.DoReconcile?)
    requires !Consumes(l, s, s.ticket)
    ensures Apply(l, s).heap == l.heap && Apply(l, s).tickets == l.tickets
    ensures Apply(l, s) == l || Apply(l, s) == Purge(l, s.now)
  {
  }

  /** The cleanup is turned away before the ledger looks at the clock. */
  predicate Malformed<B>(s: Step<B>)
    requires s.DoRelease? || s.DoReconcile?
  {
    s.ticket == 0 || (s.DoReconcile? && !WellFormed(s.settlements))
  }

  /** A refused cleanup leaves the whole ledger alone exactly if it is malformed or no live bucket has expired. */
  lemma RefusedCleanupChangesNothingIff<B>(l: Ledger<B>, s: Step<B>)
    requires Inv(l) && Enabled(l, s) && (s.DoRelease? || s.DoReconcile?)
    requires !Consumes(l, s, s.ticket)
    ensures Apply(l, s) == l <==>
      Malformed(s) || forall k | k in l.live :: !Past(l.heap[l.live[k]].observation, s.now)
    ensures Apply(l, s) == if Malformed(s) then l else Purge(l, s.now)
  {
    hide Exact, TicketsOk, BucketOk, SettleKeys, WellFormed, FreeAll;
    if forall k | k in l.live :: !Past(l.heap[l.live[k]].observation, s.now) {
      assert Purge(l, s.now).live == l.live;
    } else {
      var k :| k in l.live && Past(l.heap[l.live[k]].observation, s.now);
      assert k !in Purge(l, s.now).live;
    }
  }

  /** A run in which a refused release, of a ticket never issued, drops a bucket that has expired. */
  lemma RefusedReleaseMayPurge()
    ensures var k := Key("groq", "model", "m", "requests", "minute");
      var steps: seq<Step<nat>> :=
        [DoObserve(k, Observation(5, 5, 10, ProviderHeader, Authoritative, 1), 1, 0), DoRelease(7, 20)];
      exists states: seq<Ledger<nat>> ::
        && IsRun(states, steps) && !Consumes(states[1], steps[1], 7)
        && k in states[1].live && k !in states[2].live
  {
    var k := Key("groq", "model", "m", "requests", "minute");
    var steps: seq<Step<nat>> :=
      [DoObserve(k, Observation(5, 5, 10, ProviderHeader, Authoritative, 1), 1, 0), DoRelease(7, 20)];
    var l0: Ledger<nat> := Empty();
    var l1 := Apply(l0, steps[0]);
    assert l1.heap[0].observation.resetAt == 10 && l1.live[k] == 0 && l1.tickets == map[];
    assert Enabled(l1, steps[1]);
    var l2 := Apply(l1, steps[1]);
    var states := [l0, l1, l2];
    assert IsRun(states, steps) && !Consumes(states[1], steps[1], 7) && k in states[1].live && k !in states[2].live;
  }

  // ---- reservations ----

  /** The charged keys whose bucket does not cover the request. */
  function OverKeys<B>(l: Ledger<B>, amounts: map<Key, Amount>): set<Key>
    requires Closed(l)
  {
    set k | k in amounts && k in l.live && !InBudget(l.heap[l.live[k]], amounts[k])
  }

  /** A refused reservation reserves nothing. */
  lemma RefusalReservesNothing<B>(l: Ledger<B>, rs: seq<Reservation>, now: int)
    requires Inv(l) && ReserveAll(l, rs, now).1 == None
    ensures var l' := ReserveAll(l, rs, now).0;
      l'.heap == l.heap && l'.tickets == l.tickets && l'.nextTicketId == l.nextTicketId
  {
  }

  /** Charging does not overflow, and ends over budget if and only if it used the exception. */
  lemma ChargeLive(x: Bucket, cost: Amount)
    requires BucketOk(x) && 0 < cost && (InBudget(x, cost) || ProbeAllowed(x))
    ensures Wrap64(x.reserved + cost) == x.reserved + cost
    ensures InBudget(x, cost) <==> x.reserved + cost <= x.observation.remaining
  {
  }

  /**
   A granted reservation reserves everything: the new ticket holds exactly the requested total of
   each charged key, on the object that was live, and the 64-bit sum does not overflow. The bucket
   ends up over budget if and only if the key went through the bootstrap exception.
   */
  lemma GrantReservesAll<B>(l: Ledger<B>, rs: seq<Reservation>, now: int, k: Key)
    requires Inv(l) && ReserveAll(l, rs, now).1.Some? && k in Charged(rs)
    ensures var l', p := ReserveAll(l, rs, now).0, Purge(l, now);
            var id := ReserveAll(l, rs, now).1.value;
      && id !in l.tickets && l'.tickets == l.tickets[id := HoldsFor(p, Amounts(rs))]
      && l'.tickets[id][k].cost == Total(rs, k)
      && (k in p.live ==>
            var x, y := l.heap[p.live[k]], l'.heap[p.live[k]];
            && y.reserved == x.reserved + Total(rs, k) <= MAX64
            && (k in OverKeys(p, Amounts(rs)) <==> y.reserved > y.observation.remaining))
  {
    hide Exact;
    AmountsOk(rs);
    var p := Purge(l, now);
    if k in p.live {
      assert Admits(p, k, Amounts(rs)[k]);
      ChargeLive(p.heap[p.live[k]], Amounts(rs)[k]);
      assert ReserveAll(l, rs, now).0.heap[p.live[k]] == Charge(p, Amounts(rs), p.live[k]);
    }
  }

  // ---- the bootstrap probe, over whole runs ----

  /** `over`: outstanding over-budget holds, by ticket and key. `spent`: objects on which one was reconciled. */
  datatype Audit<!B(==)> = Audit(over: set<(nat, Key)>, spent: multiset<B>)

  /** The object a ticket holds under a key. */
  function BucketOf<B>(l: Ledger<B>, e: (nat, Key)): Option<B> {
    if e.0 in l.tickets && e.1 in l.tickets[e.0] then l.tickets[e.0][e.1].bucket else None
  }

  function Entries(t: nat, keys: set<Key>): set<(nat, Key)> {
    set k | k in keys :: (t, k)
  }

  function Others(over: set<(nat, Key)>, t: nat): set<(nat, Key)> {
    set e | e in over && e.0 != t
  }

  /** The objects on which ticket `t` has over-budget holds. */
  function Probed<B>(l: Ledger<B>, over: set<(nat, Key)>, t: nat): set<B> {
    set e | e in over && e.0 == t && BucketOf(l, e).Some? :: BucketOf(l, e).value
  }

  function NextAudit<B>(l: Ledger<B>, a: Audit<B>, s: Step<B>): Audit<B>
    requires Enabled(l, s)
  {
    match s
    case DoReserve(rs, now) =>
      var r := ReserveAll(l, rs, now).1;
      if r == None then a
      else a.(over := a.over + Entries(r.value, OverKeys(Purge(l, now), Amounts(rs))))
    case DoRelease(t, _) =>
      if Consumes(l, s, t) then a.(over := Others(a.over, t)) else a
    case DoReconcile(t, _, _, _, _) =>
      if Consumes(l, s, t) then Audit(Others(a.over, t), a.spent + multiset(Probed(l, a.over, t))) else a
    case _ => a
  }

  /** At most one over-budget hold in flight and at most one reconciled per object, and never both. */
  ghost predicate AuditOk<B>(l: Ledger<B>, a: Audit<B>) {
    && (forall e | e in a.over :: BucketOf(l, e).Some? && BucketOf(l, e).value !in a.spent)
    && (forall e, f | e in a.over && f in a.over && BucketOf(l, e) == BucketOf(l, f) :: e == f)
    && (forall b | b in a.spent :: a.spent[b] == 1 && b in l.heap && l.heap[b].probeSettled)
  }

  lemma SettleKeyProbe<B>(l: Ledger<B>, t: nat, k: Key, table: map<Key, Settlement>, now: int, spare: B, b: B)
    requires Closed(l) && Owns(l, t, k) && spare !in l.heap && b in l.heap
    ensures b in SettleKey(l, t, k, table, now, spare).heap
    ensures l.heap[b].probeSettled || HoldsOn(l.tickets[t], k, b) ==>
      SettleKey(l, t, k, table, now, spare).heap[b].probeSettled
  {
  }

  /** Settlement never clears a probe flag... */
  lemma {:induction false} SettleKeysSticky<B>(l: Ledger<B>, t: nat, order: seq<Key>, table: map<Key, Settlement>,
                                               now: int, spares: seq<B>, b: B)
    requires CanSettle(l, t, order, spares) && b in l.heap
    ensures b in SettleKeys(l, t, order, table, now, spares).heap
    ensures l.heap[b].probeSettled ==> SettleKeys(l, t, order, table, now, spares).heap[b].probeSettled
    decreases |order|
  {
    if order != [] {
      var n := |order| - 1;
      CanSettleFront(l, t, order, spares);
      var m := SettleKeys(l, t, order[..n], table, now, spares[..n]);
      SettleKeysSticky(l, t, order[..n], table, now, spares[..n], b);
      SettleKeyProbe(m, t, order[n], table, now, spares[n], b);
    }
  }

  /** The last turn of the settlement loop, seen from the ledger before it. */
  lemma SettleLast<B>(l: Ledger<B>, t: nat, order: seq<Key>, table: map<Key, Settlement>, now: int, spares: seq<B>)
    requires CanSettle(l, t, order, spares) && order != []
    ensures |spares| == |order|
    ensures var n := |order| - 1;
      && CanSettle(l, t, order[..n], spares[..n])
      && var m := SettleKeys(l, t, order[..n], table, now, spares[..n]);
      && Closed(m) && Owns(m, t, order[n]) && spares[n] !in m.heap
      && m.tickets[t][order[n]] == l.tickets[t][order[n]]
      && SettleKeys(l, t, order, table, now, spares) == SettleKey(m, t, order[n], table, now, spares[n])
  {
    hide SettleKey, Closed;
    CanSettleFront(l, t, order, spares);
  }

  /** ... and sets it on every object the ticket held. */
  lemma {:induction false} SettleKeysProbe<B>(l: Ledger<B>, t: nat, order: seq<Key>, table: map<Key, Settlement>,
                                              now: int, spares: seq<B>, i: nat, b: B)
    requires CanSettle(l, t, order, spares) && b in l.heap && i < |order| && HoldsOn(l.tickets[t], order[i], b)
    ensures b in SettleKeys(l, t, order, table, now, spares).heap
    ensures SettleKeys(l, t, order, table, now, spares).heap[b].probeSettled
    decreases |order|
  {
    hide SettleKeys, SettleKey, CanSettle, Closed;
    var n := |order| - 1;
    SettleLast(l, t, order, table, now, spares);
    var m := SettleKeys(l, t, order[..n], table, now, spares[..n]);
    SettleKeysSticky(l, t, order[..n], table, now, spares[..n], b);
    if i < n {
      SettleKeysProbe(l, t, order[..n], table, now, spares[..n], i, b);
    }
    SettleKeyProbe(m, t, order[n], table, now, spares[n], b);
  }

  lemma SettledProbeSticks<B>(l: Ledger<B>, s: Step<B>, b: B)
    requires Enabled(l, s) && b in l.heap && l.heap[b].probeSettled
    ensures b in Apply(l, s).heap && Apply(l, s).heap[b].probeSettled
  {
    match s
    case DoObserve(_, _, _, _) =>
    case DoSnapshot(_, _) =>
    case DoKeys(_) =>
    case DoReserve(_, _) =>
    case DoRelease(_, _) =>
    case DoReconcile(t, ss, now, order, spares) =>
      if Accepts(l, t, ss) {
        SettleKeysSticky(Purge(l, now), t, order, ByKey(ss), now, spares, b);
      }
  }

  /** Dropping entries, leaving the others' tickets alone and never unsettling a probe, is harmless. */
  lemma AuditShrinks<B>(l: Ledger<B>, l': Ledger<B>, a: Audit<B>, over': set<(nat, Key)>)
    requires AuditOk(l, a) && over' <= a.over
    requires forall e | e in over' :: BucketOf(l', e) == BucketOf(l, e)
    requires forall b | b in a.spent :: b in l'.heap && l'.heap[b].probeSettled
    ensures AuditOk(l', Audit(over', a.spent))
  {
  }

  lemma StepBuckets<B>(l: Ledger<B>, s: Step<B>, e: (nat, Key))
    requires Inv(l) && Enabled(l, s) && BucketOf(l, e).Some? && !Consumes(l, s, e.0)
    ensures BucketOf(Apply(l, s), e) == BucketOf(l, e)
  {
    StepTickets(l, s, e.0);
  }

  /** A step keeps the audit of every ticket it does not consume. */
  lemma RestKeepsAudit<B>(l: Ledger<B>, a: Audit<B>, s: Step<B>, over': set<(nat, Key)>)
    requires Inv(l) && AuditOk(l, a) && Enabled(l, s) && over' <= a.over
    requires forall e | e in over' :: !Consumes(l, s, e.0)
    ensures AuditOk(Apply(l, s), Audit(over', a.spent))
  {
    forall e | e in over' ensures BucketOf(Apply(l, s), e) == BucketOf(l, e) {
      StepBuckets(l, s, e);
    }
    forall b | b in a.spent ensures b in Apply(l, s).heap && Apply(l, s).heap[b].probeSettled {
      SettledProbeSticks(l, s, b);
    }
    AuditShrinks(l, Apply(l, s), a, over');
  }

  lemma ReconcileSettles<B>(l: Ledger<B>, s: Step<B>, e: (nat, Key))
    requires Closed(l) && Enabled(l, s) && s.DoReconcile? && Consumes(l, s, s.ticket)
    requires e.0 == s.ticket && BucketOf(l, e).Some?
    ensures BucketOf(l, e).value in Apply(l, s).heap && Apply(l, s).heap[BucketOf(l, e).value].probeSettled
  {
    var b := BucketOf(l, e).value;
    assert HoldsClosed(l.heap, l.tickets[e.0]) && HoldsOn(l.tickets[e.0], e.1, b);
    var i :| 0 <= i < |s.order| && s.order[i] == e.1;
    SettleKeysProbe(Purge(l, s.now), s.ticket, s.order, ByKey(s.settlements), s.now, s.spares, i, b);
  }

  lemma AuditSpends<B>(l: Ledger<B>, l': Ledger<B>, a: Audit<B>, t: nat)
    requires AuditOk(l, a) && AuditOk(l', Audit(Others(a.over, t), a.spent))
    requires forall e | e in Others(a.over, t) :: BucketOf(l', e) == BucketOf(l, e)
    requires forall b | b in Probed(l, a.over, t) :: b in l'.heap && l'.heap[b].probeSettled
    ensures AuditOk(l', Audit(Others(a.over, t), a.spent + multiset(Probed(l, a.over, t))))
  {
    forall b | b in Probed(l, a.over, t) ensures b !in a.spent {}
  }

  lemma ReconcileKeepsAudit<B>(l: Ledger<B>, a: Audit<B>, s: Step<B>)
    requires Inv(l) && AuditOk(l, a) && Enabled(l, s) && s.DoReconcile? && Consumes(l, s, s.ticket)
    ensures AuditOk(Apply(l, s), NextAudit(l, a, s))
  {
    var t := s.ticket;
    RestKeepsAudit(l, a, s, Others(a.over, t));
    forall e | e in Others(a.over, t) ensures BucketOf(Apply(l, s), e) == BucketOf(l, e) {
      StepBuckets(l, s, e);
    }
    forall b | b in Probed(l, a.over, t) ensures b in Apply(l, s).heap && Apply(l, s).heap[b].probeSettled {
      var e :| e in a.over && e.0 == t && BucketOf(l, e) == Some(b);
      ReconcileSettles(l, s, e);
    }
    AuditSpends(l, Apply(l, s), a, t);
  }

  /** An object admitted by exception carries no hold at all and has never been settled. */
  lemma ExceptionIsUnused<B>(l: Ledger<B>, k: Key, cost: Amount, e: (nat, Key))
    requires Inv(l) && k in l.live && Admits(l, k, cost) && !InBudget(l.heap[l.live[k]], cost)
    ensures BucketOf(l, e) != Some(l.live[k]) && !l.heap[l.live[k]].probeSettled
  {
    if BucketOf(l, e) == Some(l.live[k]) {
      HoldWithinReserved(l, e.0, e.1);
    }
  }

  /** A new ticket may add over-budget entries on objects that carry none and never had one reconciled. */
  lemma AuditGrows<B>(l: Ledger<B>, l': Ledger<B>, a: Audit<B>, id: nat, added: set<Key>)
    requires AuditOk(l, a) && AuditOk(l', a)
    requires forall e | e in a.over :: e.0 != id && BucketOf(l', e) == BucketOf(l, e)
    requires forall k | k in added :: BucketOf(l', (id, k)).Some? && BucketOf(l', (id, k)).value !in a.spent
    requires forall k, e | k in added && e in a.over :: BucketOf(l', (id, k)) != BucketOf(l, e)
    requires forall j, k | j in added && k in added && BucketOf(l', (id, j)) == BucketOf(l', (id, k)) :: j == k
    ensures AuditOk(l', a.(over := a.over + Entries(id, added)))
  {
  }

  lemma OverHold<B>(p: Ledger<B>, amounts: map<Key, Amount>, k: Key)
    requires Closed(p) && k in OverKeys(p, amounts)
    ensures BucketOf(Commit(p, amounts), (p.nextTicketId + 1, k)) == Some(p.live[k]) && PointsTo(p.heap, k, p.live[k])
  {
  }

  lemma CommitKeepsAudit<B>(p: Ledger<B>, a: Audit<B>, amounts: map<Key, Amount>)
    requires Inv(p) && AuditOk(p, a) && AuditOk(Commit(p, amounts), a)
    requires forall k | k in amounts :: Admits(p, k, amounts[k])
    ensures AuditOk(Commit(p, amounts), a.(over := a.over + Entries(p.nextTicketId + 1, OverKeys(p, amounts))))
  {
    var id, added := p.nextTicketId + 1, OverKeys(p, amounts);
    forall k | k in added
      ensures BucketOf(Commit(p, amounts), (id, k)) == Some(p.live[k]) && PointsTo(p.heap, k, p.live[k])
    {
      OverHold(p, amounts, k);
    }
    forall k, e | k in added && e in a.over ensures BucketOf(p, e) != Some(p.live[k]) {
      ExceptionIsUnused(p, k, amounts[k], e);
    }
    forall k | k in added ensures p.live[k] !in a.spent {
      ExceptionIsUnused(p, k, amounts[k], (0, k));
    }
    AuditGrows(p, Commit(p, amounts), a, id, added);
  }

  lemma ReserveIsCommit<B>(l: Ledger<B>, a: Audit<B>, s: Step<B>)
    requires Closed(l) && s.DoReserve? && ReserveAll(l, s.reservations, s.now).1.Some?
    ensures Apply(l, s) == Commit(Purge(l, s.now), Amounts(s.reservations))
    ensures NextAudit(l, a, s) ==
            a.(over := a.over + Entries(l.nextTicketId + 1, OverKeys(Purge(l, s.now), Amounts(s.reservations))))
    ensures forall k | k in Amounts(s.reservations) :: Admits(Purge(l, s.now), k, Amounts(s.reservations)[k])
  {
  }

  lemma PurgeKeepsAudit<B>(l: Ledger<B>, a: Audit<B>, now: int)
    requires Inv(l) && AuditOk(l, a)
    ensures Inv(Purge(l, now)) && AuditOk(Purge(l, now), a)
  {
    PurgeKeeps(l, now);
    RestKeepsAudit(l, a, DoKeys(now), a.over);
  }

  lemma ReserveKeepsAudit<B>(l: Ledger<B>, a: Audit<B>, s: Step<B>)
    requires Inv(l) && AuditOk(l, a) && s.DoReserve? && ReserveAll(l, s.reservations, s.now).1.Some?
    ensures AuditOk(Apply(l, s), NextAudit(l, a, s))
  {
    hide AuditOk, Exact, TicketsOk;
    ReserveIsCommit(l, a, s);
    PurgeKeepsAudit(l, a, s.now);
    RestKeepsAudit(l, a, s, a.over);
    CommitKeepsAudit(Purge(l, s.now), a, Amounts(s.reservations));
  }

  lemma AuditKeeps<B>(l: Ledger<B>, a: Audit<B>, s: Step<B>)
    requires Inv(l) && AuditOk(l, a) && Enabled(l, s)
    ensures AuditOk(Apply(l, s), NextAudit(l, a, s))
  {
    if s.DoReserve? && ReserveAll(l, s.reservations, s.now).1.Some? {
      ReserveKeepsAudit(l, a, s);
    } else if s.DoReconcile? && Consumes(l, s, s.ticket) {
      ReconcileKeepsAudit(l, a, s);
    } else {
      assert NextAudit(l, a, s).spent == a.spent;
      RestKeepsAudit(l, a, s, NextAudit(l, a, s).over);
    }
  }

  ghost predicate IsAuditedRun<B>(states: seq<Ledger<B>>, audits: seq<Audit<B>>, steps: seq<Step<B>>) {
    && IsRun(states, steps)
    && |audits| == |states|
    && audits[0] == Audit({}, multiset{})
    && forall i | 0 <= i < |steps| :: audits[i + 1] == NextAudit(states[i], audits[i], steps[i])
  }

  /**
   Over any run, at any moment, a bucket object has at most one over-budget reservation in flight
   and at most one that was ever reconciled, and never both.
   */
  lemma {:induction false} OneProbePerBucket<B>(states: seq<Ledger<B>>, audits: seq<Audit<B>>, steps: seq<Step<B>>,
                                                i: nat)
    requires IsAuditedRun(states, audits, steps) && i < |states|
    ensures AuditOk(states[i], audits[i])
  {
    if i > 0 {
      OneProbePerBucket(states, audits, steps, i - 1);
      ReservedIsExact(states, steps, i - 1);
      AuditKeeps(states[i - 1], audits[i - 1], steps[i - 1]);
    }
  }
}
