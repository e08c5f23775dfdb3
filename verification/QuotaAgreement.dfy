/**
 When the planner's fit test and the ledger's answer are the same, over whole runs. Reports and published
 limits always give a minute bucket a reset, and so does a file saved from a ledger in which all have one;
 only a restored file that says otherwise can make the two answers differ.
 */
module QuotaAgreement {
  import opened Base
  import opened Text
  import opened QuotaSpec
  import opened QuotaInvariant
  import opened QuotaRouting
  import opened QuotaDesk
  import QuotaEffects
  import QuotaRun

  predicate DatedAt(k: Key, o: Observation) {
    k.window == "minute" ==> o.resetAt != 0
  }

  predicate DatedTable(table: map<Key, Settlement>) {
    forall k | k in table && table[k].observation.Some? :: DatedAt(k, table[k].observation.value)
  }

  /** A step that reports minute buckets only together with a reset. */
  predicate Dated(s: QuotaRun.Step<nat>) {
    match s
    case DoObserve(k, o, _, _) => DatedAt(k, o)
    case DoReconcile(_, ss, _, _, _) =>
      forall i | 0 <= i < |ss| && ss[i].observation.Some? :: DatedAt(ss[i].key, ss[i].observation.value)
    case _ => true
  }

  /** Whatever a reply reports, and whatever default is installed, is dated. */
  lemma ReportedIsDated(f: Fact, now: int)
    requires now >= 0
    ensures DatedAt(f.key, Reported(f, now))
  {
    NextMinuteIsLater(now);
  }

  lemma NextMinuteIsLater(now: int)
    requires now >= 0
    ensures NextMinute(now) > now
  {
  }

  lemma DefaultsAreDated(cfg: Settings, r: Route, fingerprint: string, now: int, i: nat)
    requires now >= 0 && i < |Defaults(cfg, r, fingerprint, now)|
    ensures Defaults(cfg, r, fingerprint, now)[i].key.window == "minute" ==>
      Defaults(cfg, r, fingerprint, now)[i].reset > now
  {
    hide NextMinute, IsFree, ScopeOf;
    NextMinuteIsLater(now);
  }

  // ---- every step keeps it ----

  /** Live minute buckets have a reset, stated object by object. */
  ghost predicate AllDated(l: Ledger<nat>) {
    forall b | b in l.heap :: DatedAt(l.heap[b].key, l.heap[b].observation)
  }

  lemma AllDatedMinutes(l: Ledger<nat>)
    requires Closed(l) && AllDated(l)
    ensures MinutesReset(l)
  {
    forall k | k in l.live && k.window == "minute" ensures l.heap[l.live[k]].observation.resetAt != 0 {
      assert PointsTo(l.heap, k, l.live[k]);
    }
  }

  lemma InstallDated(l: Ledger<nat>, k: Key, o: Observation, spare: nat)
    requires Closed(l) && AllDated(l) && DatedAt(k, o)
    ensures AllDated(Install(l, k, o, spare))
  {
    if k in l.live {
      assert PointsTo(l.heap, k, l.live[k]);
    }
  }

  lemma SettleKeyDated(l: Ledger<nat>, t: nat, k: Key, table: map<Key, Settlement>, now: int, spare: nat)
    requires Closed(l) && Owns(l, t, k) && spare !in l.heap && AllDated(l) && DatedTable(table)
    ensures AllDated(SettleKey(l, t, k, table, now, spare))
  {
    assert HoldsClosed(l.heap, l.tickets[t]);
    ConfirmClosed(l, t, k);
    var c := Confirm(l, t, k);
    assert AllDated(c);
    if k in table && table[k].observation.Some? {
      InstallDated(c, k, Normalise(table[k].observation.value, now), spare);
    }
  }

  lemma {:induction false} SettleKeysDated(l: Ledger<nat>, t: nat, order: seq<Key>, table: map<Key, Settlement>,
                                           now: int, spares: seq<nat>)
    requires CanSettle(l, t, order, spares) && AllDated(l) && DatedTable(table)
    ensures AllDated(SettleKeys(l, t, order, table, now, spares))
    decreases |order|
  {
    hide AllDated, DatedTable;
    if order != [] {
      var n := |order| - 1;
      CanSettleFront(l, t, order, spares);
      SettleKeysDated(l, t, order[..n], table, now, spares[..n]);
      SettleKeyDated(SettleKeys(l, t, order[..n], table, now, spares[..n]), t, order[n], table, now, spares[n]);
    }
  }

  lemma TableDated(ss: seq<Settlement>)
    requires forall i | 0 <= i < |ss| && ss[i].observation.Some? :: DatedAt(ss[i].key, ss[i].observation.value)
    ensures DatedTable(ByKey(ss))
  {
    ByKeyEntries(ss);
  }

  lemma ReconcileDated(l: Ledger<nat>, t: nat, ss: seq<Settlement>, now: int, order: seq<Key>, spares: seq<nat>)
    requires Inv(l) && AllDated(l)
    requires forall i | 0 <= i < |ss| && ss[i].observation.Some? :: DatedAt(ss[i].key, ss[i].observation.value)
    requires Accepts(l, t, ss) ==> CanSettle(l, t, order, spares) && Visits(order, l.tickets[t])
    ensures AllDated(Reconcile(l, t, ss, now, order, spares).0)
  {
    TableDated(ss);
    if Accepts(l, t, ss) {
      SettleKeysDated(Purge(l, now), t, order, ByKey(ss), now, spares);
    }
  }

  lemma ReserveDated(l: Ledger<nat>, rs: seq<Reservation>, now: int)
    requires Closed(l) && AllDated(l)
    ensures AllDated(ReserveAll(l, rs, now).0)
  {
  }

  lemma StepDated(l: Ledger<nat>, s: QuotaRun.Step<nat>)
    requires Inv(l) && AllDated(l) && QuotaRun.Enabled(l, s) && Dated(s)
    ensures AllDated(QuotaRun.Apply(l, s))
  {
    hide Exact, TicketsOk, BucketOk;
    match s
    case DoObserve(k, o, now, spare) =>
      InstallDated(Purge(l, now), k, Normalise(o, now), spare);
    case DoSnapshot(_, _) =>
    case DoKeys(_) =>
    case DoReserve(rs, now) =>
      ReserveDated(l, rs, now);
    case DoRelease(_, _) =>
    case DoReconcile(t, ss, now, order, spares) =>
      ReconcileDated(l, t, ss, now, order, spares);
  }

  lemma {:induction false} RunDated(states: seq<Ledger<nat>>, steps: seq<QuotaRun.Step<nat>>, i: nat)
    requires QuotaRun.IsRun(states, steps) && i < |states| && forall j | 0 <= j < |steps| :: Dated(steps[j])
    ensures Inv(states[i]) && AllDated(states[i])
  {
    hide Inv, AllDated, QuotaRun.Apply, QuotaRun.Enabled, Dated;
    QuotaRun.ReservedIsExact(states, steps, i);
    if i == 0 {
      assert AllDated(states[0]) by { EmptyDated(); }
    } else {
      RunDated(states, steps, i - 1);
      StepDated(states[i - 1], steps[i - 1]);
    }
  }

  lemma EmptyDated()
    ensures AllDated(Empty())
  {
  }

  /** In every state such a run can reach, "fits" and "will be granted" are the same answer, at any time. */
  lemma FitMeansGranted(states: seq<Ledger<nat>>, steps: seq<QuotaRun.Step<nat>>, i: nat, next: nat,
                        rs: seq<Reservation>, now: int)
    requires QuotaRun.IsRun(states, steps) && i < |states| && forall j | 0 <= j < |steps| :: Dated(steps[j])
    requires Simple(rs) && forall b | b in states[i].heap :: b < next
    ensures Inv(states[i])
    ensures CanFit(Store(states[i], next), rs, now) <==> ReserveAll(states[i], rs, now).1.Some?
  {
    RunDated(states, steps, i);
    AllDatedMinutes(states[i]);
    PlannerAgreesWithLedger(Store(states[i], next), rs, now);
  }

  /**
   Without any condition on the run: in every reachable state the two answers differ exactly if something
   is blocked and all that is blocked are minute buckets without a reset whose minute is over.
   */
  lemma AnswersDifferIff(states: seq<Ledger<nat>>, steps: seq<QuotaRun.Step<nat>>, i: nat, next: nat,
                         rs: seq<Reservation>, now: int)
    requires QuotaRun.IsRun(states, steps) && i < |states|
    requires Simple(rs) && forall b | b in states[i].heap :: b < next
    ensures Inv(states[i])
    ensures CanFit(Store(states[i], next), rs, now) != ReserveAll(states[i], rs, now).1.Some? <==>
      && (exists j :: 0 <= j < |rs| && Blocked(states[i], rs[j], now))
      && (forall j | 0 <= j < |rs| && Blocked(states[i], rs[j], now) :: StaleAt(states[i], rs[j].key, now))
  {
    QuotaRun.ReservedIsExact(states, steps, i);
    PlannerAndLedgerDisagreeIff(Store(states[i], next), rs, now);
  }

  // ---- saved and restored quota ----

  /** One bucket in the score file. */
  datatype Saved = Saved(key: Key, observation: Observation)

  /** What a save writes for a key: the bucket as a snapshot shows it, if it shows one. */
  function Save(l: Ledger<nat>, k: Key, now: int): Option<Saved>
    requires Closed(l)
  {
    match Snapshot(l, k, now).1
    case None => None
    case Some(view) => Some(Saved(k, view.observation))
  }

  /**
   What a restore does with an entry: nothing for an unsupported provider or a reset that has come, else an
   observation.
   */
  function Restore(x: Saved, supported: set<string>, now: int, spare: nat): Option<QuotaRun.Step<nat>> {
    var provider := Lower(Trim(x.key.provider));
    if provider !in supported || Past(x.observation, now) then None
    else Some(QuotaRun.DoObserve(x.key.(provider := provider), x.observation, now, spare))
  }

  /**
   What is saved comes back: restored into a ledger before its reset, a bucket of a supported provider shows the
   same observation again. The names of providers are tidied on the way.
   */
  lemma SavedComesBack(l: Ledger<nat>, k: Key, now: int, supported: set<string>, l': Ledger<nat>, later: int,
                       spare: nat)
    requires Inv(l) && Inv(l') && spare !in l'.heap && Save(l, k, now).Some?
    requires Lower(Trim(k.provider)) == k.provider && k.provider in supported
    requires var o := Save(l, k, now).value.observation;
      o.observedAt != 0 && !Past(o, later) && !Stale(k, o, later)
    ensures var step := Restore(Save(l, k, now).value, supported, later, spare);
      && step.Some? && QuotaRun.Enabled(l', step.value) && Closed(QuotaRun.Apply(l', step.value))
      && var view := Snapshot(QuotaRun.Apply(l', step.value), k, later).1;
      && view.Some? && view.value.observation == l.heap[l.live[k]].observation
  {
    SavedIs(l, k, now);
    hide Exact, TicketsOk, BucketOk, Snapshot, Observe, Save, Lower, Trim;
    var x := Save(l, k, now).value;
    assert x.key.(provider := k.provider) == k;
    ObservedShows(l', k, x.observation, later, spare);
  }

  lemma SavedIs(l: Ledger<nat>, k: Key, now: int)
    requires Inv(l) && Save(l, k, now).Some?
    ensures ValidKey(k) && k in l.live && l.live[k] in l.heap
    ensures Save(l, k, now).value == Saved(k, l.heap[l.live[k]].observation)
    ensures 0 <= l.heap[l.live[k]].observation.remaining <= l.heap[l.live[k]].observation.limit
  {
    hide Exact, TicketsOk;
    assert BucketOk(l.heap[l.live[k]]);
  }

  /** What is observed is what the next look shows. */
  lemma ObservedShows(l: Ledger<nat>, k: Key, o: Observation, now: int, spare: nat)
    requires Inv(l) && spare !in l.heap && ValidKey(k) && 0 <= o.remaining <= o.limit && o.observedAt != 0
    requires !Past(o, now) && !Stale(k, o, now)
    ensures var l' := Observe(l, k, o, now, spare).0;
      Closed(l) && Closed(l') && Snapshot(l', k, now).1.Some? && Snapshot(l', k, now).1.value.observation == o
  {
    hide Exact, TicketsOk;
    ObserveKeeps(l, k, o, now, spare);
    QuotaEffects.ObserveEffect(l, k, o, now, spare);
    hide Observe;
    QuotaEffects.SnapshotEffect(Observe(l, k, o, now, spare).0, k, now);
  }

  /** A file saved from a dated ledger restores dated, whenever and wherever it is read. */
  lemma SavedRestoresDated(l: Ledger<nat>, k: Key, now: int, supported: set<string>, later: int, spare: nat)
    requires Closed(l) && AllDated(l) && Save(l, k, now).Some?
    ensures DatedAt(k, Save(l, k, now).value.observation)
    ensures var step := Restore(Save(l, k, now).value, supported, later, spare);
      step.Some? ==> Dated(step.value)
  {
    assert PointsTo(l.heap, k, l.live[k]);
    RestoredStaysDated(Save(l, k, now).value, supported, later, spare);
  }

  lemma RestoredStaysDated(x: Saved, supported: set<string>, now: int, spare: nat)
    requires DatedAt(x.key, x.observation)
    ensures var step := Restore(x, supported, now, spare); step.Some? ==> Dated(step.value)
  {
  }
}
