/**
 One request at the shared ledger. Between any two of its own critical sections every other caller
 may take any number of ledger steps; a script says which. Handles are unforgeable, so the others
 never present a ticket that was issued to this request.
 */
module QuotaDesk {
  import opened Base
  import opened QuotaSpec
  import opened QuotaInvariant
  import opened QuotaRouting
  import opened QuotaPlanner
  import QuotaEffects
  import QuotaRun

  // ---- settlements from what a reply reports ----

  /** One bucket as a provider reports it: both numbers were parsed as non-negative. */
  datatype Fact = Fact(key: Key, limit: Amount, remaining: Amount, resetAt: int, source: Source)

  /** A minute bucket reported without a reset is given the next full minute. */
  function Reported(f: Fact, now: int): Observation {
    var reset := if f.resetAt == 0 && f.key.window == "minute" then NextMinute(now) else f.resetAt;
    Observation(f.limit, f.remaining, reset, f.source, Authoritative, now)
  }

  /** The last report on each key counts. */
  function Reports(facts: seq<Fact>, now: int): map<Key, Observation> {
    if facts == [] then map[]
    else
      var f := facts[|facts| - 1];
      Reports(facts[..|facts| - 1], now)[f.key := Reported(f, now)]
  }

  function ActualOn(e: Estimate, k: Key, tokens: Int64): Int64 {
    if k.dimension != "tokens" then e.requests else if tokens <= 0 then e.tokens else tokens
  }

  function SettlementFor(k: Key, e: Estimate, tokens: Int64, reports: map<Key, Observation>): Settlement {
    Settlement(k, ActualOn(e, k, tokens), if k in reports then Some(reports[k]) else None)
  }

  function Settlements(keys: seq<Key>, e: Estimate, tokens: Int64, reports: map<Key,
                       Observation>): (ss: seq<Settlement>)
    ensures |ss| == |keys| && forall i | 0 <= i < |keys| :: ss[i] == SettlementFor(keys[i], e, tokens, reports)
  {
    seq(|keys|, i requires 0 <= i < |keys| => SettlementFor(keys[i], e, tokens, reports))
  }

  lemma {:induction false} ReportsNonNegative(facts: seq<Fact>, now: int, k: Key)
    requires k in Reports(facts, now)
    ensures Reports(facts, now)[k].limit >= 0 && Reports(facts, now)[k].remaining >= 0
  {
    if k != facts[|facts| - 1].key {
      ReportsNonNegative(facts[..|facts| - 1], now, k);
    }
  }

  /** No usage to commit on any held key is negative. */
  predicate Payable(holds: map<Key, Hold<nat>>, e: Estimate, tokens: Int64) {
    forall k | k in holds :: ActualOn(e, k, tokens) >= 0
  }

  /** The ledger accepts a settlement built this way exactly when nothing in it is negative. */
  lemma SettlementAcceptedIff(l: Ledger<nat>, t: nat, keys: seq<Key>, e: Estimate, tokens: Int64, facts: seq<Fact>,
                              now: int)
    requires Inv(l) && t in l.tickets && Visits(keys, l.tickets[t])
    ensures Accepts(l, t, Settlements(keys, e, tokens, Reports(facts, now))) <==> Payable(l.tickets[t], e, tokens)
  {
    var ss := Settlements(keys, e, tokens, Reports(facts, now));
    var holds := l.tickets[t];
    forall i | 0 <= i < |keys| ensures SettlementOk(ss[i]) <==> ActualOn(e, keys[i], tokens) >= 0 {
      assert keys[i] in holds.Keys;
      if keys[i] in Reports(facts, now) {
        ReportsNonNegative(facts, now, keys[i]);
      }
    }
    if Payable(holds, e, tokens) {
      forall i | 0 <= i < |keys| ensures SettlementOk(ss[i]) && ss[i].key in holds {
        assert keys[i] in holds.Keys;
      }
    } else {
      var k :| k in holds && ActualOn(e, k, tokens) < 0;
      assert k in holds.Keys;
      var i :| 0 <= i < |keys| && keys[i] == k;
      assert !SettlementOk(ss[i]);
    }
  }

  /** The report that counts for a key: the last one on it. */
  ghost predicate LastOn(facts: seq<Fact>, k: Key, f: Fact) {
    exists i :: 0 <= i < |facts| && facts[i] == f && f.key == k && forall j | i < j < |facts| :: facts[j].key != k
  }

  lemma {:induction false} ReportsAre(facts: seq<Fact>, now: int, k: Key)
    ensures k in Reports(facts, now) <==> exists i :: 0 <= i < |facts| && facts[i].key == k
    ensures forall f | LastOn(facts, k, f) :: k in Reports(facts, now) && Reports(facts, now)[k] == Reported(f, now)
  {
    if facts != [] {
      var n := |facts| - 1;
      ReportsAre(facts[..n], now, k);
      if facts[n].key != k {
        forall f | LastOn(facts, k, f) ensures LastOn(facts[..n], k, f) {
          var i :| 0 <= i < |facts| && facts[i] == f && f.key == k && forall j | i < j < |facts| :: facts[j].key != k;
          assert facts[..n][i] == f;
        }
        if i :| 0 <= i < |facts| && facts[i].key == k {
          assert facts[..n][i].key == k;
        }
      }
    }
  }

  /** The next full minute is the first one after now. */
  lemma NextMinuteIsFirst(now: int)
    ensures now < NextMinute(now) <= now + MINUTE && NextMinute(now) % MINUTE == 0
  {
  }

  /** What a provider reports counts as confirmed from now on; a minute bucket without a reset ends with its minute. */
  lemma ReportedMeans(f: Fact, now: int)
    ensures var o := Reported(f, now);
      && o.limit == f.limit && o.remaining == f.remaining && o.source == f.source
      && o.confidence == Authoritative && o.observedAt == now
      && (f.resetAt != 0 || f.key.window != "minute" ==> o.resetAt == f.resetAt)
      && (f.resetAt == 0 && f.key.window == "minute" ==> now < o.resetAt <= now + MINUTE && o.resetAt % MINUTE == 0)
  {
    NextMinuteIsFirst(now);
    hide NextMinute;
  }

  // ---- the other callers ----

  /** Time passes and the others take these steps. */
  datatype Pause = Pause(ticks: nat, steps: seq<QuotaRun.Step<nat>>)

  function Above(next: nat, ids: seq<nat>): (r: nat)
    ensures next <= r && forall b | b in ids :: b < r
  {
    if ids == [] then next
    else
      var n := |ids| - 1;
      assert forall b | b in ids :: b == ids[n] || b in ids[..n];
      var r := Above(next, ids[..n]);
      if ids[n] < r then r else ids[n] + 1
  }

  function Spares(s: QuotaRun.Step<nat>): seq<nat> {
    match s
    case DoObserve(_, _, _, spare) => [spare]
    case DoReconcile(_, _, _, _, spares) => spares
    case _ => []
  }

  /** A step another caller can take: it holds none of this request's tickets. */
  predicate Theirs(l: Ledger<nat>, s: QuotaRun.Step<nat>, mine: set<nat>) {
    QuotaRun.Enabled(l, s) && (s.DoRelease? || s.DoReconcile? ==> s.ticket !in mine)
  }

  function Other(s: Store, step: QuotaRun.Step<nat>, mine: set<nat>): Store {
    if Theirs(s.ledger, step, mine)
    then Store(QuotaRun.Apply(s.ledger, step), Above(s.next, Spares(step)))
    else s
  }

  /** The request's own tickets: outstanding in both or in neither, with the same holds. */
  ghost predicate SameHolds(l: Ledger<nat>, l': Ledger<nat>, mine: set<nat>) {
    forall t | t in mine ::
      (t in l.tickets <==> t in l'.tickets) && (t in l.tickets ==> l'.tickets[t] == l.tickets[t])
  }

  lemma SameHoldsRefl(l: Ledger<nat>, mine: set<nat>)
    ensures SameHolds(l, l, mine)
  {
  }

  lemma SameHoldsTrans(l: Ledger<nat>, l': Ledger<nat>, l'': Ledger<nat>, mine: set<nat>, mine': set<nat>)
    requires SameHolds(l, l', mine) && SameHolds(l', l'', mine') && mine <= mine'
    ensures SameHolds(l, l'', mine)
  {
  }

  ghost predicate Issued(l: Ledger<nat>, mine: set<nat>) {
    forall t | t in mine :: t <= l.nextTicketId
  }

  lemma ApplyHeap(l: Ledger<nat>, s: QuotaRun.Step<nat>)
    requires QuotaRun.Enabled(l, s)
    ensures forall b | b in QuotaRun.Apply(l, s).heap :: b in l.heap || b in Spares(s)
  {
    match s
    case DoObserve(_, _, _, _) =>
    case DoSnapshot(_, _) =>
    case DoKeys(_) =>
    case DoReserve(_, _) =>
    case DoRelease(_, _) =>
    case DoReconcile(_, _, _, _, _) =>
  }

  lemma OtherKeeps(s: Store, step: QuotaRun.Step<nat>, mine: set<nat>)
    requires Sound(s) && Issued(s.ledger, mine)
    ensures Sound(Other(s, step, mine)) && Issued(Other(s, step, mine).ledger, mine)
    ensures SameHolds(s.ledger, Other(s, step, mine).ledger, mine)
  {
    hide QuotaRun.Apply, QuotaRun.Enabled;
    if Theirs(s.ledger, step, mine) {
      TheirsKeeps(s, step, mine);
    }
  }

  lemma TheirsKeeps(s: Store, step: QuotaRun.Step<nat>, mine: set<nat>)
    requires Sound(s) && Issued(s.ledger, mine) && Theirs(s.ledger, step, mine)
    ensures Sound(Other(s, step, mine)) && Issued(Other(s, step, mine).ledger, mine)
    ensures SameHolds(s.ledger, Other(s, step, mine).ledger, mine)
  {
    hide QuotaRun.Apply, Exact, TicketsOk, BucketOk;
    QuotaRun.StepKeeps(s.ledger, step);
    ApplyHeap(s.ledger, step);
    QuotaRun.StepTickets(s.ledger, step, 0);
    forall t | t in mine
      ensures (t in s.ledger.tickets <==> t in QuotaRun.Apply(s.ledger, step).tickets)
      ensures t in s.ledger.tickets ==> QuotaRun.Apply(s.ledger, step).tickets[t] == s.ledger.tickets[t]
    {
      QuotaRun.StepTickets(s.ledger, step, t);
    }
  }

  // ---- what the request's own sections do to its tickets ----

  /** Looking and observing keep the ledger sound and every ticket as it is. */
  lemma SectionKeeps(s: Store, k: Key, o: Observation, now: int)
    requires Sound(s)
    ensures Closed(s.ledger) && Sound(Peeked(s, k, now)) && Sound(Observing(s, k, o, now))
    ensures Peeked(s, k, now).ledger.tickets == s.ledger.tickets
    ensures Peeked(s, k, now).ledger.nextTicketId == s.ledger.nextTicketId
    ensures Observing(s, k, o, now).ledger.tickets == s.ledger.tickets
    ensures Observing(s, k, o, now).ledger.nextTicketId == s.ledger.nextTicketId
  {
    hide Exact, TicketsOk, BucketOk;
    PeekedSound(s, k, now);
    ObservingSound(s, k, o, now);
  }

  lemma PurgeSound(s: Store, now: int)
    requires Sound(s)
    ensures Closed(s.ledger) && Sound(s.(ledger := Purge(s.ledger, now)))
  {
    hide Exact, TicketsOk, BucketOk;
    PurgeKeeps(s.ledger, now);
  }

  /** Every hold costs what the estimate says for its key: its tokens, or else its requests. */
  predicate Priced(holds: map<Key, Hold<nat>>, e: Estimate) {
    forall k | k in holds :: holds[k].cost == (if k.dimension == "tokens" then e.tokens else e.requests) > 0
  }

  lemma ListedIsSimple(l: Ledger<nat>, cfg: Settings, r: Route, fingerprint: string, e: Estimate, rs: seq<Reservation>)
    requires Inv(l) && Lists(l, cfg, r, fingerprint, e, rs)
    ensures Simple(rs)
    ensures forall i | 0 <= i < |rs| :: rs[i].cost == CostOn(ProviderEstimate(cfg, r, e), rs[i].key)
  {
    hide Concerns, ProviderEstimate, CostOn;
  }

  lemma ReservedPriced(l: Ledger<nat>, rs: seq<Reservation>, now: int, e: Estimate)
    requires Inv(l) && Simple(rs) && forall i | 0 <= i < |rs| :: rs[i].cost == CostOn(e, rs[i].key)
    ensures Inv(ReserveAll(l, rs, now).0)
    ensures ReserveAll(l, rs, now).1.Some? ==> l.nextTicketId < ReserveAll(l, rs, now).1.value
    ensures var (l', t) := ReserveAll(l, rs, now);
      && l.nextTicketId <= l'.nextTicketId && l'.heap.Keys == l.heap.Keys
      && (t.None? ==> l'.tickets == l.tickets)
      && (t.Some? ==> t.value == l'.nextTicketId && t.value in l'.tickets)
      && (t.Some? ==> l'.tickets == l.tickets[t.value := l'.tickets[t.value]] && Priced(l'.tickets[t.value], e))
  {
    hide Exact, BucketOk;
    ReserveKeeps(l, rs, now);
    SimpleAcceptable(rs);
    forall k | k in Amounts(rs) ensures Amounts(rs)[k] == CostOn(e, k) && CostOn(e, k) > 0 {
      var i :| 0 <= i < |rs| && rs[i].cost != 0 && rs[i].key == k;
    }
  }

  function Fresh(next: nat, n: nat): (ids: seq<nat>)
    ensures |ids| == n && forall i | 0 <= i < n :: ids[i] == next + i
  {
    seq(n, i => next + i)
  }

  /** The reconciling section, visiting the ticket's keys in the given order. */
  function Settling(s: Store, t: nat, ss: seq<Settlement>, now: int, order: seq<Key>): (Store, bool)
    requires Closed(s.ledger)
    requires Accepts(s.ledger, t, ss) ==>
      CanSettle(s.ledger, t, order, Fresh(s.next, |order|)) && Visits(order, s.ledger.tickets[t])
  {
    var (l, ok) := Reconcile(s.ledger, t, ss, now, order, Fresh(s.next, |order|));
    (Store(l, s.next + |order|), ok)
  }

  /** An order for the loop: the ticket's keys, or nothing when the ticket is gone. */
  ghost predicate Orders(l: Ledger<nat>, t: nat, order: seq<Key>) {
    if t in l.tickets then Visits(order, l.tickets[t]) else order == []
  }

  lemma OrderIsFit(s: Store, t: nat, order: seq<Key>)
    requires Sound(s) && t in s.ledger.tickets && Visits(order, s.ledger.tickets[t])
    ensures CanSettle(s.ledger, t, order, Fresh(s.next, |order|))
  {
    hide Exact, TicketsOk, BucketOk;
    var holds := s.ledger.tickets[t];
    forall k | k in order ensures k in holds {
      assert k in holds.Keys;
    }
  }

  lemma SettlingKeeps(s: Store, t: nat, ss: seq<Settlement>, now: int, order: seq<Key>)
    requires Sound(s) && Orders(s.ledger, t, order)
    ensures Accepts(s.ledger, t, ss) ==>
      CanSettle(s.ledger, t, order, Fresh(s.next, |order|)) && Visits(order, s.ledger.tickets[t])
    ensures Sound(Settling(s, t, ss, now, order).0)
    ensures Settling(s, t, ss, now, order).1 <==> Accepts(s.ledger, t, ss)
    ensures Settling(s, t, ss, now, order).0.ledger.tickets ==
      if Accepts(s.ledger, t, ss) then s.ledger.tickets - {t} else s.ledger.tickets
    ensures Settling(s, t, ss, now, order).0.ledger.nextTicketId == s.ledger.nextTicketId
  {
    hide Exact, TicketsOk, BucketOk;
    if t in s.ledger.tickets {
      OrderIsFit(s, t, order);
    }
    ReconcileKeeps(s.ledger, t, ss, now, order, Fresh(s.next, |order|));
  }

  /** The settlement built from a reply is accepted, and names each held key once. */
  lemma SettlementFits(s: Store, t: nat, keys: seq<Key>, e: Estimate, tokens: Int64, facts: seq<Fact>, now: int, k: Key)
    requires Sound(s) && t in s.ledger.tickets && Visits(keys, s.ledger.tickets[t])
    requires Payable(s.ledger.tickets[t], e, tokens) && k in s.ledger.tickets[t]
    ensures var ss := Settlements(keys, e, tokens, Reports(facts, now));
      && Accepts(s.ledger, t, ss) && CanSettle(s.ledger, t, keys, Fresh(s.next, |keys|))
      && SettlementFor(k, e, tokens, Reports(facts, now)) in ss
  {
    hide Exact, TicketsOk, BucketOk, Reports, SettlementFor;
    SettlementAcceptedIff(s.ledger, t, keys, e, tokens, facts, now);
    OrderIsFit(s, t, keys);
    assert k in s.ledger.tickets[t].Keys;
    var i :| 0 <= i < |keys| && keys[i] == k;
    assert Settlements(keys, e, tokens, Reports(facts, now))[i] == SettlementFor(k, e, tokens, Reports(facts, now));
  }

  /**
   What a settled request costs. Its hold is given back on the object it was taken on. If the reply says nothing
   about the key, that object loses the usage: one request, or the tokens the reply counts, or the estimate
   if it counts none.
   */
  lemma SettlingCosts(s: Store, t: nat, keys: seq<Key>, e: Estimate, tokens: Int64, facts: seq<Fact>, now: int, k: Key,
                      b: nat)
    requires Sound(s) && t in s.ledger.tickets && Visits(keys, s.ledger.tickets[t])
    requires Payable(s.ledger.tickets[t], e, tokens)
    requires k in s.ledger.tickets[t] && s.ledger.tickets[t][k].bucket == Some(b)
    ensures var ss := Settlements(keys, e, tokens, Reports(facts, now));
      && Accepts(s.ledger, t, ss) && CanSettle(s.ledger, t, keys, Fresh(s.next, |keys|))
      && var (s', ok) := Settling(s, t, ss, now, keys);
      && ok && b in s.ledger.heap && b in s'.ledger.heap
      && var x, y := s.ledger.heap[b], s'.ledger.heap[b];
      && y.reserved == x.reserved - s.ledger.tickets[t][k].cost && y.probeSettled
      && ((forall i | 0 <= i < |facts| :: facts[i].key != k) ==>
            var usage := if k.dimension != "tokens" then e.requests else if tokens > 0 then tokens else e.tokens;
            && y.observation.remaining == Max(0, x.observation.remaining - usage)
            && y.observation == x.observation.(remaining := y.observation.remaining))
  {
    SettlementFits(s, t, keys, e, tokens, facts, now, k);
    ReportsAre(facts, now, k);
    hide Exact, TicketsOk, BucketOk, Reports, Settlements, Payable, CanSettle, Visits, Accepts, Reconcile;
    var (l, ss, spares) := (s.ledger, Settlements(keys, e, tokens, Reports(facts, now)), Fresh(s.next, |keys|));
    var x := SettlementFor(k, e, tokens, Reports(facts, now));
    QuotaEffects.ReconcileCommits(l, t, ss, now, keys, spares, k, Some(x), b);
  }

  /** What it reports: the last report on a key is what the key's live bucket holds from then on. */
  lemma SettlingReports(s: Store, t: nat, keys: seq<Key>, e: Estimate, tokens: Int64, facts: seq<Fact>, now: int,
                        k: Key, f: Fact)
    requires Sound(s) && t in s.ledger.tickets && Visits(keys, s.ledger.tickets[t])
    requires Payable(s.ledger.tickets[t], e, tokens) && k in s.ledger.tickets[t] && LastOn(facts, k, f)
    ensures var ss := Settlements(keys, e, tokens, Reports(facts, now));
      && Accepts(s.ledger, t, ss) && CanSettle(s.ledger, t, keys, Fresh(s.next, |keys|))
      && var (l, o) := (Settling(s, t, ss, now, keys).0.ledger, Reported(f, now));
      && (k in l.live <==> o.resetAt == 0 || now < o.resetAt)
      && (k in l.live ==> l.live[k] in l.heap && QuotaEffects.Keeps(l.heap[l.live[k]].observation, o, now))
  {
    SettlementFits(s, t, keys, e, tokens, facts, now, k);
    ReportsAre(facts, now, k);
    hide Exact, TicketsOk, BucketOk, Reports, Settlements, Payable, CanSettle, Visits, Accepts, Reconcile, Reported;
    hide QuotaEffects.Keeps, QuotaEffects.Shows;
    var (l, ss, spares) := (s.ledger, Settlements(keys, e, tokens, Reports(facts, now)), Fresh(s.next, |keys|));
    QuotaEffects.ReconcileReports(l, t, ss, now, keys, spares, SettlementFor(k, e, tokens, Reports(facts, now)));
  }

  lemma ReleasingKeeps(s: Store, t: nat, now: int)
    requires Sound(s)
    ensures Sound(s.(ledger := Release(s.ledger, t, now).0))
    ensures Release(s.ledger, t, now).0.tickets == s.ledger.tickets - {t}
    ensures Release(s.ledger, t, now).0.nextTicketId == s.ledger.nextTicketId
  {
    hide Exact, BucketOk;
    ReleaseKeeps(s.ledger, t, now);
  }

  lemma SettleAccepted(l: Ledger<nat>, t: nat, keys: seq<Key>, e: Estimate, tokens: Int64, facts: seq<Fact>, now: int)
    requires Inv(l) && Orders(l, t, keys)
    ensures Accepts(l, t, Settlements(keys, e, tokens, Reports(facts, now))) <==>
      t in l.tickets && Payable(l.tickets[t], e, tokens)
  {
    hide Exact, TicketsOk, BucketOk, Payable, Accepts;
    if t in l.tickets {
      SettlementAcceptedIff(l, t, keys, e, tokens, facts, now);
    } else {
      GoneIsRefused(l, t, Settlements(keys, e, tokens, Reports(facts, now)));
    }
  }

  lemma GoneIsRefused(l: Ledger<nat>, t: nat, ss: seq<Settlement>)
    requires t !in l.tickets
    ensures !Accepts(l, t, ss)
  {
  }

  method KeysOf(holds: map<Key, Hold<nat>>) returns (keys: seq<Key>)
    ensures Visits(keys, holds)
  {
    keys := [];
    var todo := holds.Keys;
    while todo != {}
      invariant todo <= holds.Keys && Distinct(keys)
      invariant (set k | k in keys) == holds.Keys - todo
      decreases todo
    {
      var k :| k in todo;
      ghost var before := keys;
      keys := keys + [k];
      todo := todo - {k};
      assert (set j | j in keys) == (set j | j in before) + {k};
    }
  }

  predicate Fitting(s: Store, x: Reservation, now: int) {
    Closed(s.ledger) && Passes(Peek(s, x.key, now), x.cost)
  }

  /** The answer is what the looks showed: all fit, or the last one does not. */
  ghost predicate Judged(ok: bool, rs: seq<Reservation>, seen: seq<Store>, now: int) {
    && |seen| <= |rs| && (ok ==> |seen| == |rs|) && (!ok ==> seen != [])
    && forall j | 0 <= j < |seen| :: Fitting(seen[j], rs[j], now) <==> ok || j < |seen| - 1
  }

  /** The usage a settlement is built from. */
  datatype Bill = Bill(estimate: Estimate, tokens: Int64, facts: seq<Fact>)

  /** The store after recording the reports one by one, undisturbed. */
  ghost function Observed(s: Store, facts: seq<Fact>, now: int): (r: Store)
    requires Sound(s)
    ensures Sound(r)
  {
    if facts == [] then s
    else
      var f := facts[|facts| - 1];
      var before := Observed(s, facts[..|facts| - 1], now);
      ObservingSound(before, f.key, Reported(f, now), now);
      Observing(before, f.key, Reported(f, now), now)
  }

  /** The quota side of the service as one request uses it. */
  class Desk {
    const planner: Planner
    var clock: int
    var script: seq<Pause>
    var mine: set<nat>
    ghost var released: set<nat>
    ghost var settled: set<nat>
    ghost var bills: map<nat, Bill>   // what each settled ticket was settled with

    constructor (planner: Planner, clock: int, script: seq<Pause>)
      requires Sound(planner.store)
      ensures Valid() && this.planner == planner && this.clock == clock && this.script == script && mine == {}
    {
      this.planner, this.clock, this.script, mine := planner, clock, script, {};
      released, settled, bills := {}, {}, map[];
    }

    /** Each ticket issued to the request is outstanding, was released unused, or was settled: one of the three. */
    ghost predicate Valid()
      reads this, planner
    {
      && Sound(planner.store) && Issued(planner.store.ledger, mine)
      && released !! settled && released <= mine && settled <= mine
      && forall t | t in mine :: t in planner.store.ledger.tickets <==> t !in released && t !in settled
    }

    /** The tickets issued to this request that are still outstanding. */
    ghost function Open(): set<nat>
      reads this, planner
    {
      set t | t in mine && t in planner.store.ledger.tickets
    }

    ghost function Tickets(): map<nat, map<Key, Hold<nat>>>
      reads this, planner
    {
      planner.store.ledger.tickets
    }

    /** Time passes; the others work. */
    method Now() returns (now: int)
      requires Valid()
      modifies this`clock, this`script, planner`store
      ensures Valid() && old(clock) <= clock == now
      ensures SameHolds(old(planner.store.ledger), planner.store.ledger, mine)
      ensures old(script) == [] ==> script == [] && planner.store == old(planner.store)
    {
      if script != [] {
        var pause := script[0];
        script := script[1..];
        clock := clock + pause.ticks;
        for i := 0 to |pause.steps|
          invariant Sound(planner.store) && Issued(planner.store.ledger, mine) && old(clock) <= clock
          invariant SameHolds(old(planner.store.ledger), planner.store.ledger, mine)
        {
          hide Inv, QuotaRun.Apply, QuotaRun.Enabled;
          OtherKeeps(planner.store, pause.steps[i], mine);
          planner.store := Other(planner.store, pause.steps[i], mine);
        }
      }
      now := clock;
    }

    /**
     Claims quota for one attempt: refused while the model cools down, otherwise decided by the
     ledger `at` on the buckets listed in `plan`.
     */
    method Reserve(r: Route, fingerprint: string, e: Estimate, now: int)
      returns (t: Option<nat>, ghost plan: Store, ghost rs: seq<Reservation>, ghost at: Store)
      requires Valid()
      modifies this`clock, this`script, this`mine, planner`store
      ensures Valid() && old(clock) <= clock
      ensures SameHolds(old(planner.store.ledger), planner.store.ledger, old(mine))
      ensures t.None? ==> mine == old(mine)
      ensures t.Some? ==> t.value !in old(mine) && mine == old(mine) + {t.value}
      ensures t.Some? ==> t.value in Tickets() && Priced(Tickets()[t.value], ProviderEstimate(planner.cfg, r, e))
      ensures !Cooled(planner.cooldowns, planner.cfg, r, now) ==> t == None
      ensures Cooled(planner.cooldowns, planner.cfg, r, now) ==>
        && Lists(plan.ledger, planner.cfg, r, fingerprint, e, rs) && Closed(at.ledger)
        && Sound(plan)
        && (old(script) == [] ==>
              at == plan == Planned(old(planner.store), planner.cfg, r, fingerprint, now))
        && (planner.store.ledger, t) == ReserveAll(at.ledger, rs, now)
    {
      if !Cooled(planner.cooldowns, planner.cfg, r, now) {
        return None, planner.store, [], planner.store;
      }
      t, plan, rs, at := Take(r, fingerprint, e, now);
    }

    /** Lists the attempt's buckets and, with others at work in between, claims them all or nothing. */
    method Take(r: Route, fingerprint: string, e: Estimate, now: int)
      returns (t: Option<nat>, ghost plan: Store, ghost rs: seq<Reservation>, ghost at: Store)
      requires Valid()
      modifies this`clock, this`script, this`mine, planner`store
      ensures Valid() && old(clock) <= clock
      ensures SameHolds(old(planner.store.ledger), planner.store.ledger, old(mine))
      ensures t.None? ==> mine == old(mine)
      ensures t.Some? ==> t.value !in old(mine) && mine == old(mine) + {t.value}
      ensures t.Some? ==> t.value in Tickets() && Priced(Tickets()[t.value], ProviderEstimate(planner.cfg, r, e))
      ensures Sound(plan) && Lists(plan.ledger, planner.cfg, r, fingerprint, e, rs) && Closed(at.ledger)
      ensures old(script) == [] ==> at == plan == Planned(old(planner.store), planner.cfg, r, fingerprint, now)
      ensures (planner.store.ledger, t) == ReserveAll(at.ledger, rs, now)
    {
      var list := List(r, fingerprint, e, now);
      plan, rs := planner.store, list;
      var _ := Now();
      at := planner.store;
      ListedIsSimple(plan.ledger, planner.cfg, r, fingerprint, e, list);
      t := Claim(list, ProviderEstimate(planner.cfg, r, e), now);
    }

    /**
     The fit test on the shared ledger: looks at each listed bucket in its own section, `seen` being the
     store at each look, and stops at the first that does not fit.
     */
    method Fits(r: Route, fingerprint: string, e: Estimate, now: int)
      returns (ok: bool, ghost plan: Store, ghost rs: seq<Reservation>, ghost seen: seq<Store>)
      requires Valid()
      modifies this`clock, this`script, planner`store
      ensures Valid() && old(clock) <= clock
      ensures SameHolds(old(planner.store.ledger), planner.store.ledger, mine)
      ensures Sound(plan) && Lists(plan.ledger, planner.cfg, r, fingerprint, e, rs) && Judged(ok, rs, seen, now)
      ensures old(script) == [] ==>
        && script == [] && plan == Planned(old(planner.store), planner.cfg, r, fingerprint, now)
        && (ok <==> CanFit(plan, rs, now))
    {
      hide Inv, Lists, Passes, Snapshot;
      var list := List(r, fingerprint, e, now);
      plan, rs, seen := planner.store, list, [];
      SoundIsClosed(plan);
      for i := 0 to |list|
        invariant Valid() && old(clock) <= clock && Closed(plan.ledger)
        invariant SameHolds(old(planner.store.ledger), planner.store.ledger, mine)
        invariant |seen| == i && forall j | 0 <= j < i :: Fitting(seen[j], list[j], now)
        invariant old(script) == [] ==> script == [] && planner.store == Look(plan, list[..i], now)
        invariant old(script) == [] ==> forall j | 0 <= j < i :: Fitting(plan, list[j], now)
      {
        ghost var before := planner.store;
        LookOneMore(plan, list, i, now);
        var fits := InspectOne(list[i], now);
        seen := seen + [before];
        if !fits {
          return false, plan, rs, seen;
        }
        var _ := Now();
      }
      ok := true;
    }

    method InspectOne(x: Reservation, now: int) returns (fits: bool)
      requires Valid()
      modifies planner`store
      ensures Valid() && SameHolds(old(planner.store.ledger), planner.store.ledger, mine)
      ensures Closed(old(planner.store).ledger) && planner.store == Peeked(old(planner.store), x.key, now)
      ensures fits <==> Fitting(old(planner.store), x, now)
    {
      hide Exact, TicketsOk, BucketOk, Passes;
      SectionKeeps(planner.store, x.key, Observation(0, 0, 0, Config, Estimated, 0), now);
      fits := Passes(Peek(planner.store, x.key, now), x.cost);
      planner.store := Peeked(planner.store, x.key, now);
    }

    /** Installs one published limit where nothing is known: a look and, later, an observation. */
    method InstallDefault(d: Default, now: int)
      requires Valid()
      modifies this`clock, this`script, planner`store
      ensures Valid() && old(clock) <= clock
      ensures SameHolds(old(planner.store.ledger), planner.store.ledger, mine)
      ensures old(script) == [] ==> script == [] && planner.store == ObserveIfUnknown(old(planner.store), d, now)
    {
      hide Inv, Snapshot, Observe;
      if d.limit <= 0 {
        return;
      }
      var o := Observation(d.limit, d.limit, d.reset, Config, Estimated, now);
      SectionKeeps(planner.store, d.key, o, now);
      var view := Peek(planner.store, d.key, now);
      planner.store := Peeked(planner.store, d.key, now);
      var _ := Now();
      if view.None? {
        SectionKeeps(planner.store, d.key, o, now);
        planner.store := Observing(planner.store, d.key, o, now);
      }
    }

    method InstallDefaults(ds: seq<Default>, now: int)
      requires Valid()
      modifies this`clock, this`script, planner`store
      ensures Valid() && old(clock) <= clock
      ensures SameHolds(old(planner.store.ledger), planner.store.ledger, mine)
      ensures old(script) == [] ==> script == [] && planner.store == Bootstrap(old(planner.store), ds, now)
    {
      hide Inv, ObserveIfUnknown;
      for i := 0 to |ds|
        invariant Valid() && old(clock) <= clock
        invariant SameHolds(old(planner.store.ledger), planner.store.ledger, mine)
        invariant old(script) == [] ==> script == [] && planner.store == Bootstrap(old(planner.store), ds[..i], now)
      {
        assert ds[..i + 1][..i] == ds[..i];
        InstallDefault(ds[i], now);
        var _ := Now();
      }
      assert ds[..|ds|] == ds;
    }

    /** Lists what an attempt would reserve, in the ledger as it is once its published limits are in place. */
    method List(r: Route, fingerprint: string, e: Estimate, now: int) returns (rs: seq<Reservation>)
      requires Valid()
      modifies this`clock, this`script, planner`store
      ensures Valid() && old(clock) <= clock
      ensures SameHolds(old(planner.store.ledger), planner.store.ledger, mine)
      ensures old(script) == [] ==>
        script == [] && planner.store == Planned(old(planner.store), planner.cfg, r, fingerprint, now)
      ensures Lists(planner.store.ledger, planner.cfg, r, fingerprint, e, rs)
    {
      hide Inv, Lists, Bootstrap;
      InstallDefaults(Defaults(planner.cfg, r, fingerprint, now), now);
      PurgeSound(planner.store, now);
      planner.store := planner.store.(ledger := Purge(planner.store.ledger, now));
      rs := ListBuckets(planner.store.ledger.live.Keys, planner.cfg, r, fingerprint, e);
    }

    method Claim(rs: seq<Reservation>, ghost e: Estimate, now: int) returns (t: Option<nat>)
      requires Valid() && Simple(rs) && forall i | 0 <= i < |rs| :: rs[i].cost == CostOn(e, rs[i].key)
      modifies this`mine, planner`store
      ensures Valid()
      ensures (planner.store.ledger, t) == ReserveAll(old(planner.store.ledger), rs, now)
      ensures SameHolds(old(planner.store.ledger), planner.store.ledger, old(mine))
      ensures t.None? ==> mine == old(mine)
      ensures t.Some? ==> t.value !in old(mine) && mine == old(mine) + {t.value}
      ensures t.Some? ==> t.value in Tickets() && Priced(Tickets()[t.value], e)
    {
      hide Exact, TicketsOk, BucketOk, ReserveAll, Simple, Priced;
      ReservedPriced(planner.store.ledger, rs, now, e);
      var (l, id) := ReserveAll(planner.store.ledger, rs, now);
      planner.store := planner.store.(ledger := l);
      t := id;
      if t.Some? {
        mine := mine + {t.value};
      }
    }

    method Release(t: nat, now: int)
      requires Valid()
      modifies this`released, planner`store
      ensures released == old(released) + (if t in old(Open()) then {t} else {})
      ensures Valid() && t !in Tickets() && SameHolds(old(planner.store.ledger), planner.store.ledger, mine - {t})
      ensures planner.store.ledger == QuotaSpec.Release(old(planner.store.ledger), t, now).0
    {
      hide Exact, TicketsOk, BucketOk, QuotaSpec.Release;
      ReleasingKeeps(planner.store, t, now);
      released := released + (if t in Open() then {t} else {});
      planner.store := planner.store.(ledger := QuotaSpec.Release(planner.store.ledger, t, now).0);
    }

    /** Records the provider's reports, each in its own section. */
    method ObserveFacts(facts: seq<Fact>, now: int)
      requires Valid()
      modifies this`clock, this`script, planner`store
      ensures Valid() && old(clock) <= clock
      ensures SameHolds(old(planner.store.ledger), planner.store.ledger, mine)
      ensures old(script) == [] ==> script == [] && planner.store == Observed(old(planner.store), facts, now)
    {
      hide Inv, Observing, Reported;
      for i := 0 to |facts|
        invariant Valid() && old(clock) <= clock
        invariant SameHolds(old(planner.store.ledger), planner.store.ledger, mine)
        invariant old(script) == [] ==> script == [] && planner.store == Observed(old(planner.store), facts[..i], now)
      {
        assert facts[..i + 1][..i] == facts[..i];
        ObserveFact(facts[i], now);
        var _ := Now();
      }
      assert facts[..|facts|] == facts;
    }

    method ObserveFact(f: Fact, now: int)
      requires Valid()
      modifies planner`store
      ensures Valid() && SameHolds(old(planner.store.ledger), planner.store.ledger, mine)
      ensures planner.store == Observing(old(planner.store), f.key, Reported(f, now), now)
    {
      hide Exact, TicketsOk, BucketOk, Reported;
      ObservingSound(planner.store, f.key, Reported(f, now), now);
      planner.store := Observing(planner.store, f.key, Reported(f, now), now);
    }

    /**
     Settles a ticket from what the reply reported: the ledger `at` reconciles it, and it does so
     exactly when the ticket is outstanding and nothing to commit is negative.
     */
    method Settle(t: nat, e: Estimate, tokens: Int64, facts: seq<Fact>, now: int)
      returns (ok: bool, ghost at: Store, ghost keys: seq<Key>)
      requires Valid() && t in mine
      modifies this`clock, this`script, this`settled, this`bills, planner`store
      ensures settled == old(settled) + (if ok then {t} else {})
      ensures bills == if ok then old(bills)[t := Bill(e, tokens, facts)] else old(bills)
      ensures Valid() && old(clock) <= clock
      ensures SameHolds(old(planner.store.ledger), planner.store.ledger, mine - {t})
      ensures ok <==> t in old(Tickets()) && Payable(old(Tickets())[t], e, tokens)
      ensures ok ==> t !in Tickets()
      ensures !ok ==> SameHolds(old(planner.store.ledger), planner.store.ledger, mine)
      ensures Sound(at) && Orders(at.ledger, t, keys)
      ensures old(script) == [] ==> at == Observed(old(planner.store), facts, now)
      ensures var ss := Settlements(keys, e, tokens, Reports(facts, now));
        && (Accepts(at.ledger, t, ss) ==>
             CanSettle(at.ledger, t, keys, Fresh(at.next, |keys|)) && Visits(keys, at.ledger.tickets[t]))
        && (planner.store, ok) == Settling(at, t, ss, now, keys)
    {
      hide Inv, Settling, Payable, Accepts, Settlements, Reports, Visits, CanSettle;
      ObserveFacts(facts, now);
      var list := [];
      if t in planner.store.ledger.tickets {
        list := KeysOf(planner.store.ledger.tickets[t]);
      }
      ghost var seen := planner.store.ledger;
      var _ := Now();
      at, keys := planner.store, list;
      ok := Reconciling(t, list, e, tokens, facts, now);
    }

    method Reconciling(t: nat, keys: seq<Key>, e: Estimate, tokens: Int64, facts: seq<Fact>, now: int)
      returns (ok: bool)
      requires Valid() && t in mine && Orders(planner.store.ledger, t, keys)
      modifies this`settled, this`bills, planner`store
      ensures settled == old(settled) + (if ok then {t} else {})
      ensures bills == if ok then old(bills)[t := Bill(e, tokens, facts)] else old(bills)
      ensures Valid() && SameHolds(old(planner.store.ledger), planner.store.ledger, mine - {t})
      ensures ok <==> t in old(Tickets()) && Payable(old(Tickets())[t], e, tokens)
      ensures ok ==> t !in Tickets()
      ensures !ok ==> SameHolds(old(planner.store.ledger), planner.store.ledger, mine)
      ensures var ss := Settlements(keys, e, tokens, Reports(facts, now));
        && (Accepts(old(planner.store).ledger, t, ss) ==>
             && CanSettle(old(planner.store).ledger, t, keys, Fresh(old(planner.store).next, |keys|))
             && Visits(keys, old(planner.store).ledger.tickets[t]))
        && (planner.store, ok) == Settling(old(planner.store), t, ss, now, keys)
    {
      hide Exact, TicketsOk, BucketOk, Settling, Payable, Accepts, Settlements, Reports, Visits, CanSettle;
      var ss := Settlements(keys, e, tokens, Reports(facts, now));
      SettleAccepted(planner.store.ledger, t, keys, e, tokens, facts, now);
      SettlingKeeps(planner.store, t, ss, now, keys);
      var (s, done) := Settling(planner.store, t, ss, now, keys);
      planner.store := s;
      ok := done;
      if ok {
        settled, bills := settled + {t}, bills[t := Bill(e, tokens, facts)];
      }
    }
  }
}
