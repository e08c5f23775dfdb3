/**
 The planner at work: the loops over an attempt's buckets, and why waiting for the computed time
 really makes the attempt runnable.
 */
module QuotaPlanner {
  import opened Base
  import opened QuotaSpec
  import opened QuotaInvariant
  import opened QuotaRouting

  // ---- cooldowns ----

  function CooldownKey(cfg: Settings, r: Route): string {
    cfg.Provider(r) + "\0" + r.model
  }

  function Until(cooldowns: map<string, int>, key: string): int {
    if key in cooldowns then cooldowns[key] else 0
  }

  predicate Cooled(cooldowns: map<string, int>, cfg: Settings, r: Route, now: int) {
    Until(cooldowns, CooldownKey(cfg, r)) <= now
  }

  function CooldownLeft(cooldowns: map<string, int>, cfg: Settings, r: Route, now: int): int {
    Max(0, Until(cooldowns, CooldownKey(cfg, r)) - now)
  }

  // ---- the wait ----

  predicate Short(view: Option<View>, cost: Int64) {
    view.Some? && view.value.available < cost
  }

  /** How long until one short bucket resets; zero when it is not short or its reset is unknown. */
  function ResetIn(view: Option<View>, cost: Int64, now: int): int {
    if Short(view, cost) && view.value.observation.resetAt > now && view.value.observation.resetAt != 0
    then view.value.observation.resetAt - now else 0
  }

  /** The longest of the cooldown and the resets of the short buckets. */
  function ReadyIn(left: int, s: Store, rs: seq<Reservation>, now: int): int
    requires Closed(s.ledger)
  {
    if rs == [] then left
    else Max(ReadyIn(left, s, rs[..|rs| - 1], now), ResetIn(Peek(s, rs[|rs| - 1].key, now), rs[|rs| - 1].cost, now))
  }

  lemma {:induction false} ReadyInBounds(left: int, s: Store, rs: seq<Reservation>, now: int, i: nat)
    requires Closed(s.ledger)
    ensures left <= ReadyIn(left, s, rs, now)
    ensures i < |rs| ==> ResetIn(Peek(s, rs[i].key, now), rs[i].cost, now) <= ReadyIn(left, s, rs, now)
  {
    if rs != [] {
      ReadyInBounds(left, s, rs[..|rs| - 1], now, i);
    }
  }

  /** The store after listing an attempt's buckets: defaults installed, expired buckets gone. */
  ghost function Planned(s: Store, cfg: Settings, r: Route, fingerprint: string, now: int): (t: Store)
    requires Sound(s)
    ensures Sound(t)
  {
    var b := Bootstrap(s, Defaults(cfg, r, fingerprint, now), now);
    PurgeKeeps(b.ledger, now);
    b.(ledger := Purge(b.ledger, now))
  }

  /**
   `l'` differs from `l` only by dropped buckets and by new ones that still have their probe. Looking,
   listing and installing defaults all do no more than this, at any time.
   */
  ghost predicate Drift(l: Ledger<nat>, l': Ledger<nat>) {
    && Closed(l) && Closed(l')
    && forall k | k in l'.live :: Unchanged(l, l', k) || ProbeAllowed(l'.heap[l'.live[k]])
  }

  predicate Unchanged(l: Ledger<nat>, l': Ledger<nat>, k: Key)
    requires Closed(l) && Closed(l') && k in l'.live
  {
    k in l.live && l'.live[k] == l.live[k] && l'.heap[l'.live[k]] == l.heap[l.live[k]]
  }

  lemma DriftTrans(l: Ledger<nat>, l': Ledger<nat>, l'': Ledger<nat>)
    requires Drift(l, l') && Drift(l', l'')
    ensures Drift(l, l'')
  {
    forall k | k in l''.live ensures Unchanged(l, l'', k) || ProbeAllowed(l''.heap[l''.live[k]]) {
      if Unchanged(l', l'', k) {
        assert k in l'.live;
      }
    }
  }

  lemma DriftPurge(l: Ledger<nat>, now: int)
    requires Closed(l)
    ensures Drift(l, Purge(l, now))
  {
  }

  lemma DriftPeeked(s: Store, k: Key, now: int)
    requires Closed(s.ledger)
    ensures Drift(s.ledger, Peeked(s, k, now).ledger)
  {
  }

  lemma DriftInstall(l: Ledger<nat>, k: Key, o: Observation, spare: nat)
    requires Closed(l) && k !in l.live && spare !in l.heap && o.confidence == Estimated
    ensures Drift(l, Install(l, k, o, spare))
  {
    ClosedAgain(l, Install(l, k, o, spare));
  }

  lemma DriftObserving(s: Store, k: Key, o: Observation, now: int)
    requires Sound(s) && k !in s.ledger.live && o.confidence == Estimated
    ensures Drift(s.ledger, Observing(s, k, o, now).ledger)
  {
    var p := Purge(s.ledger, now);
    DriftPurge(s.ledger, now);
    if ValidKey(k) && o.limit >= 0 && o.remaining >= 0 && !Past(o, now) {
      DriftInstall(p, k, Normalise(o, now), s.next);
      DriftTrans(s.ledger, p, Install(p, k, Normalise(o, now), s.next));
    }
  }

  lemma DriftDefault(s: Store, d: Default, now: int)
    requires Sound(s)
    ensures Drift(s.ledger, ObserveIfUnknown(s, d, now).ledger)
  {
    var p := Peeked(s, d.key, now);
    DriftPeeked(s, d.key, now);
    PeekedSound(s, d.key, now);
    if d.limit > 0 && Peek(s, d.key, now).None? {
      var o := Observation(d.limit, d.limit, d.reset, Config, Estimated, now);
      DriftObserving(p, d.key, o, now);
      DriftTrans(s.ledger, p.ledger, Observing(p, d.key, o, now).ledger);
    }
  }

  lemma {:induction false} DriftBootstrap(s: Store, ds: seq<Default>, now: int)
    requires Sound(s)
    ensures Drift(s.ledger, Bootstrap(s, ds, now).ledger)
  {
    if ds != [] {
      var n := |ds| - 1;
      var p := Bootstrap(s, ds[..n], now);
      DriftBootstrap(s, ds[..n], now);
      DriftDefault(p, ds[n], now);
      DriftTrans(s.ledger, p.ledger, ObserveIfUnknown(p, ds[n], now).ledger);
    }
  }

  lemma DriftPlanned(s: Store, cfg: Settings, r: Route, fingerprint: string, now: int)
    requires Sound(s)
    ensures Drift(s.ledger, Planned(s, cfg, r, fingerprint, now).ledger)
  {
    var b := Bootstrap(s, Defaults(cfg, r, fingerprint, now), now);
    DriftBootstrap(s, Defaults(cfg, r, fingerprint, now), now);
    DriftPurge(b.ledger, now);
    DriftTrans(s.ledger, b.ledger, Purge(b.ledger, now));
  }

  /** A bucket that passed, or whose reset has come, passes at any later time unless something else happened. */
  lemma UnchangedPasses(a: Store, now: int, z: Store, later: int, k: Key, cost: Int64)
    requires Sound(a) && Sound(z) && k in a.ledger.live && k in z.ledger.live && Unchanged(a.ledger, z.ledger, k)
    requires !Past(z.ledger.heap[z.ledger.live[k]].observation, later) && now <= later
    requires Short(Peek(a, k, now), cost) ==> Peek(a, k, now).value.observation.resetAt != 0
    requires now + ResetIn(Peek(a, k, now), cost, now) <= later
    ensures Passes(Peek(z, k, later), cost)
  {
    var x := a.ledger.heap[a.ledger.live[k]];
    assert !Past(x.observation, now);
    if Stale(k, x.observation, now) {
      assert now / MINUTE <= later / MINUTE;
      assert Stale(k, x.observation, later);
    }
  }

  lemma ProbePasses(p: Store, k: Key, cost: Int64, now: int)
    requires Closed(p.ledger) && k in p.ledger.live && ProbeAllowed(p.ledger.heap[p.ledger.live[k]])
    ensures Passes(Peek(p, k, now), cost)
  {
  }

  /**
   The computed wait is sound. Let `a` be the planned store of an attempt at `now`, with a known reset
   on each bucket that is short. If nothing but drift happens until `later`, and `later` is at least the
   attempt's readiness after `now`, then at `later` its cooldown is over, the fit test on its freshly
   planned buckets succeeds, and so does the reservation.
   */
  lemma WaitIsSound(cfg: Settings, cooldowns: map<string, int>, r: Route, fingerprint: string, e: Estimate,
                    a: Store, rs: seq<Reservation>, now: int, z: Store, later: int, rs': seq<Reservation>)
    requires Sound(a) && Sound(z) && Drift(a.ledger, z.ledger)
    requires forall k | k in a.ledger.live :: !Past(a.ledger.heap[a.ledger.live[k]].observation, now)
    requires Lists(a.ledger, cfg, r, fingerprint, e, rs)
    requires forall i | 0 <= i < |rs| :: Short(Peek(a, rs[i].key, now), rs[i].cost) ==>
      Peek(a, rs[i].key, now).value.observation.resetAt != 0
    requires now + ReadyIn(CooldownLeft(cooldowns, cfg, r, now), a, rs, now) <= later
    requires Lists(Planned(z, cfg, r, fingerprint, later).ledger, cfg, r, fingerprint, e, rs')
    ensures Cooled(cooldowns, cfg, r, later)
    ensures CanFit(Planned(z, cfg, r, fingerprint, later), rs', later)
    ensures ReserveAll(Look(Planned(z, cfg, r, fingerprint, later), rs', later).ledger, rs', later).1.Some?
  {
    ReadyInBounds(CooldownLeft(cooldowns, cfg, r, now), a, rs, now, 0);
    var p := Planned(z, cfg, r, fingerprint, later);
    DriftPlanned(z, cfg, r, fingerprint, later);
    DriftTrans(a.ledger, z.ledger, p.ledger);
    forall j | 0 <= j < |rs'| ensures Passes(Peek(p, rs'[j].key, later), rs'[j].cost) {
      PlannedPasses(cfg, cooldowns, r, fingerprint, e, a, rs, now, p, later, rs'[j]);
    }
    AnswerAfterLooking(p, rs', later);
  }

  lemma PlannedPasses(cfg: Settings, cooldowns: map<string, int>, r: Route, fingerprint: string, e: Estimate,
                      a: Store, rs: seq<Reservation>, now: int, p: Store, later: int, x: Reservation)
    requires Sound(a) && Sound(p) && Drift(a.ledger, p.ledger) && now <= later
    requires Lists(a.ledger, cfg, r, fingerprint, e, rs)
    requires forall i | 0 <= i < |rs| :: Short(Peek(a, rs[i].key, now), rs[i].cost) ==>
      Peek(a, rs[i].key, now).value.observation.resetAt != 0
    requires now + ReadyIn(CooldownLeft(cooldowns, cfg, r, now), a, rs, now) <= later
    requires x.key in p.ledger.live && !Past(p.ledger.heap[p.ledger.live[x.key]].observation, later)
    requires Concerns(cfg, r, fingerprint, x.key) && x.cost == CostOn(ProviderEstimate(cfg, r, e), x.key) > 0
    ensures Passes(Peek(p, x.key, later), x.cost)
  {
    hide Passes, Peek, Exact, TicketsOk, Concerns;
    if !Unchanged(a.ledger, p.ledger, x.key) {
      ProbePasses(p, x.key, x.cost, later);
    } else {
      var i :| 0 <= i < |rs| && rs[i].key == x.key;
      ReadyInBounds(CooldownLeft(cooldowns, cfg, r, now), a, rs, now, i);
      UnchangedPasses(a, now, p, later, x.key, x.cost);
    }
  }

  // ---- the loops ----

  lemma {:induction false} LookDrifts(s: Store, rs: seq<Reservation>, now: int)
    requires Sound(s)
    ensures Drift(s.ledger, Look(s, rs, now).ledger)
  {
    if rs != [] {
      var n := |rs| - 1;
      LookDrifts(s, rs[..n], now);
      LookSound(s, rs[..n], now);
      DriftPeeked(Look(s, rs[..n], now), rs[n].key, now);
      DriftTrans(s.ledger, Look(s, rs[..n], now).ledger, Look(s, rs, now).ledger);
    }
  }

  lemma LookOneMore(s: Store, rs: seq<Reservation>, i: nat, now: int)
    requires Sound(s) && i < |rs|
    ensures Sound(Look(s, rs[..i], now)) && Sound(Look(s, rs[..i + 1], now))
    ensures Look(s, rs[..i + 1], now) == Peeked(Look(s, rs[..i], now), rs[i].key, now)
    ensures Peek(Look(s, rs[..i], now), rs[i].key, now) == Peek(s, rs[i].key, now)
  {
    LookSound(s, rs[..i], now);
    LookSound(s, rs[..i + 1], now);
    LookShowsTheSame(s, rs[..i], rs[i].key, now);
    assert rs[..i + 1][..i] == rs[..i];
  }

  lemma PeekInRange(s: Store, k: Key, now: int)
    requires Sound(s)
    ensures Peek(s, k, now).Some? ==>
      0 <= Peek(s, k, now).value.available <= Peek(s, k, now).value.observation.limit
  {
    assert k in s.ledger.live ==> BucketOk(s.ledger.heap[s.ledger.live[k]]);
  }

  /** The share of one bucket that would be in use once the cost is taken; one when it does not cover the cost. */
  function Share(view: Option<View>, cost: Int64): real {
    if view.None? || view.value.observation.limit <= 0 then 0.0
    else if view.value.available < cost then 1.0
    else (view.value.observation.limit - (view.value.available - cost)) as real / view.value.observation.limit as real
  }

  /** The share of the tightest bucket. */
  function Tightest(s: Store, rs: seq<Reservation>, now: int): real
    requires Closed(s.ledger)
  {
    if rs == [] then 0.0
    else
      var n := |rs| - 1;
      var before, share := Tightest(s, rs[..n], now), Share(Peek(s, rs[n].key, now), rs[n].cost);
      if share > before then share else before
  }

  lemma ShareInRange(s: Store, r: Reservation, now: int)
    requires Sound(s) && r.cost > 0
    ensures 0.0 <= Share(Peek(s, r.key, now), r.cost) <= 1.0
    ensures Peek(s, r.key, now).Some? ==>
      var view := Peek(s, r.key, now).value;
      Wrap64(view.available - r.cost) == view.available - r.cost &&
      var left := view.available - r.cost;
      left >= 0 ==> Wrap64(view.observation.limit - left) == view.observation.limit - left
  {
    PeekInRange(s, r.key, now);
    var view := Peek(s, r.key, now);
    if view.Some? && view.value.observation.limit > 0 && view.value.available >= r.cost {
      Fraction(view.value.observation.limit - (view.value.available - r.cost), view.value.observation.limit);
    }
  }

  lemma Fraction(used: int, limit: int)
    requires 0 <= used <= limit && 0 < limit
    ensures 0.0 <= used as real / limit as real <= 1.0
  {
  }

  lemma {:induction false} TightestBounds(s: Store, rs: seq<Reservation>, now: int, i: nat)
    requires Sound(s) && forall j | 0 <= j < |rs| :: rs[j].cost > 0
    ensures 0.0 <= Tightest(s, rs, now) <= 1.0
    ensures i < |rs| ==> Share(Peek(s, rs[i].key, now), rs[i].cost) <= Tightest(s, rs, now)
  {
    hide Sound, Peek, Share;
    if rs != [] {
      var n := |rs| - 1;
      TightestBounds(s, rs[..n], now, i);
      assert Closed(s.ledger) by { SoundIsClosed(s); }
      ShareInRange(s, rs[n], now);
    }
  }

  lemma TightestNone(s: Store, now: int)
    requires Closed(s.ledger)
    ensures Tightest(s, [], now) == 0.0
  {
  }

  lemma SoundIsClosed(s: Store)
    requires Sound(s)
    ensures Closed(s.ledger)
  {
  }

  method ListBuckets(live: set<Key>, cfg: Settings, r: Route, fingerprint: string, e: Estimate)
    returns (rs: seq<Reservation>)
    ensures forall l: Ledger<nat> | l.live.Keys == live :: Lists(l, cfg, r, fingerprint, e, rs)
  {
    hide Concerns, ProviderEstimate, CostOn;
    var est := ProviderEstimate(cfg, r, e);
    rs := [];
    var todo := live;
    while todo != {}
      invariant todo <= live
      invariant forall i | 0 <= i < |rs| :: rs[i].key in live && rs[i].key !in todo
      invariant forall i, j | 0 <= i < j < |rs| :: rs[i].key != rs[j].key
      invariant forall i | 0 <= i < |rs| ::
        Concerns(cfg, r, fingerprint, rs[i].key) && rs[i].cost == CostOn(est, rs[i].key) > 0
      invariant forall k | k in live && k !in todo && Concerns(cfg, r, fingerprint, k) && CostOn(est, k) > 0 ::
        exists i :: 0 <= i < |rs| && rs[i].key == k
      decreases todo
    {
      var k :| k in todo;
      todo := todo - {k};
      if Concerns(cfg, r, fingerprint, k) && CostOn(est, k) > 0 {
        ghost var before := rs;
        rs := rs + [Reservation(k, CostOn(est, k))];
        assert rs[|before|].key == k;
        assert forall i | 0 <= i < |before| :: rs[i] == before[i];
      }
    }
  }

  /** `plan` is the store in which an attempt's buckets were listed; since then the ledger only drifted. */
  ghost predicate Asked(plan: Store, s: Store, cfg: Settings, r: Route, fingerprint: string, e: Estimate,
                        rs: seq<Reservation>, now: int)
  {
    && Sound(plan) && Drift(plan.ledger, s.ledger) && Lists(plan.ledger, cfg, r, fingerprint, e, rs)
    && forall k | k in plan.ledger.live :: !Past(plan.ledger.heap[plan.ledger.live[k]].observation, now)
  }

  lemma AskedDrifts(plan: Store, s: Store, s': Store, cfg: Settings, r: Route, fingerprint: string, e: Estimate,
                    rs: seq<Reservation>, now: int)
    requires Asked(plan, s, cfg, r, fingerprint, e, rs, now) && Drift(s.ledger, s'.ledger)
    ensures Asked(plan, s', cfg, r, fingerprint, e, rs, now)
  {
    DriftTrans(plan.ledger, s.ledger, s'.ledger);
  }

  ghost predicate IsReady(ready: int, cooldowns: map<string, int>, cfg: Settings, r: Route, plan: Store,
                          rs: seq<Reservation>, now: int)
  {
    Closed(plan.ledger) && ready == ReadyIn(CooldownLeft(cooldowns, cfg, r, now), plan, rs, now)
  }

  lemma SoonestOfNone()
    ensures IsSoonest(0, [])
  {
  }

  /** The least positive entry, or zero when there is none. */
  ghost predicate IsSoonest(x: int, readies: seq<int>) {
    && (forall i | 0 <= i < |readies| && readies[i] > 0 :: 0 < x <= readies[i])
    && (x == 0 || (x > 0 && x in readies))
  }

  lemma SoonestNext(x: int, readies: seq<int>, ready: int)
    requires IsSoonest(x, readies)
    ensures IsSoonest(if ready > 0 && (x == 0 || ready < x) then ready else x, readies + [ready])
  {
    assert (readies + [ready])[|readies|] == ready;
  }

  /** Each listed bucket that is short says when it resets. */
  predicate KnownResets(plan: Store, rs: seq<Reservation>, now: int) {
    Closed(plan.ledger) &&
    forall i | 0 <= i < |rs| :: Short(Peek(plan, rs[i].key, now), rs[i].cost) ==>
      Peek(plan, rs[i].key, now).value.observation.resetAt != 0
  }

  lemma ReadinessIsSound(cfg: Settings, cooldowns: map<string, int>, r: Route, fingerprint: string, e: Estimate,
                         store: Store,
                         plan: Store, rs: seq<Reservation>, ready: int, now: int, z: Store, rs': seq<Reservation>)
    requires Asked(plan, store, cfg, r, fingerprint, e, rs, now) && IsReady(ready, cooldowns, cfg, r, plan, rs, now)
    requires KnownResets(plan, rs, now) && Sound(z) && Drift(store.ledger, z.ledger)
    requires Lists(Planned(z, cfg, r, fingerprint, now + ready).ledger, cfg, r, fingerprint, e, rs')
    ensures Cooled(cooldowns, cfg, r, now + ready)
    ensures CanFit(Planned(z, cfg, r, fingerprint, now + ready), rs', now + ready)
    ensures var when := now + ready;
      ReserveAll(Look(Planned(z, cfg, r, fingerprint, when), rs', when).ledger, rs', when).1.Some?
  {
    hide Lists, Inv, Drift, Planned, Peek, Short, ReadyIn, CooldownLeft, Cooled, CanFit, ReserveAll, Look;
    DriftTrans(plan.ledger, store.ledger, z.ledger);
    WaitIsSound(cfg, cooldowns, r, fingerprint, e, plan, rs, now, z, now + ready, rs');
  }

  /**
   The wait the planner returns is sound: some attempt attains it, and any that does, with known resets,
   is cooled down, fits and is granted after exactly that wait, if nothing but drift happens until then.
   */
  lemma RetryAfterIsSound(cfg: Settings, cooldowns: map<string, int>, routes: seq<Route>, prints: seq<string>,
                          e: Estimate,
                          store: Store, plans: seq<Store>, lists: seq<seq<Reservation>>, readies: seq<int>,
                          soonest: int, now: int, z: Store)
    requires |plans| == |lists| == |readies| == |routes| == |prints| && IsSoonest(soonest, readies) && soonest > 0
    requires forall i | 0 <= i < |routes| :: Asked(plans[i], store, cfg, routes[i], prints[i], e, lists[i], now)
    requires forall i | 0 <= i < |routes| :: IsReady(readies[i], cooldowns, cfg, routes[i], plans[i], lists[i], now)
    requires Sound(z) && Drift(store.ledger, z.ledger)
    ensures exists i :: 0 <= i < |routes| && readies[i] == soonest
    ensures forall i | 0 <= i < |routes| && readies[i] == soonest && KnownResets(plans[i], lists[i], now) ::
      RunnableAt(cfg, cooldowns, routes[i], prints[i], e, z, now + soonest)
  {
    hide Asked, IsReady, Sound, Drift, Inv, Lists, Planned, Peek, Short, CanFit, ReserveAll, Look;
    forall i | 0 <= i < |routes| && readies[i] == soonest && KnownResets(plans[i], lists[i], now)
      ensures RunnableAt(cfg, cooldowns, routes[i], prints[i], e, z, now + soonest)
    {
      var p := Planned(z, cfg, routes[i], prints[i], now + soonest);
      SoundIsClosed(p);
      forall rs' | Lists(p.ledger, cfg, routes[i], prints[i], e, rs') ensures Grants(p, rs', now + soonest) {
        ReadinessIsSound(cfg, cooldowns, routes[i], prints[i], e, store, plans[i], lists[i], soonest, now, z, rs');
      }
      CooledInTime(cooldowns, cfg, routes[i], plans[i], lists[i], soonest, now);
    }
  }

  lemma CooledInTime(cooldowns: map<string, int>, cfg: Settings, r: Route, plan: Store, rs: seq<Reservation>,
                     ready: int, now: int)
    requires IsReady(ready, cooldowns, cfg, r, plan, rs, now)
    ensures Cooled(cooldowns, cfg, r, now + ready)
  {
    ReadyInBounds(CooldownLeft(cooldowns, cfg, r, now), plan, rs, now, 0);
  }

  /** The fit test and, once the planner has looked, the ledger both say yes. */
  predicate Grants(s: Store, rs: seq<Reservation>, now: int) {
    Closed(s.ledger) && CanFit(s, rs, now) && ReserveAll(Look(s, rs, now).ledger, rs, now).1.Some?
  }

  /** The attempt's cooldown is over and whatever list of its buckets is drawn up, it is granted. */
  ghost predicate RunnableAt(cfg: Settings, cooldowns: map<string, int>, r: Route, fingerprint: string, e: Estimate,
                             z: Store, when: int)
    requires Sound(z)
  {
    && Cooled(cooldowns, cfg, r, when)
    && forall rs | Lists(Planned(z, cfg, r, fingerprint, when).ledger, cfg, r, fingerprint, e, rs) ::
      Grants(Planned(z, cfg, r, fingerprint, when), rs, when)
  }

  class Planner {
    const cfg: Settings
    var store: Store
    var cooldowns: map<string, int>

    constructor (cfg: Settings)
      ensures this.cfg == cfg && store == Store(Empty(), 0) && cooldowns == map[] && Sound(store)
    {
      this.cfg, store, cooldowns := cfg, Store(Empty(), 0), map[];
    }

    /** A cooldown is only ever extended. */
    method SetCooldown(r: Route, duration: int, now: int) returns (applied: int)
      modifies this`cooldowns
      ensures applied == if duration <= 0 then 2_000_000_000 else duration
      ensures Until(cooldowns, CooldownKey(cfg, r)) == Max(Until(old(cooldowns), CooldownKey(cfg, r)), now + applied)
      ensures forall key | key != CooldownKey(cfg, r) :: Until(cooldowns, key) == Until(old(cooldowns), key)
    {
      applied := if duration <= 0 then 2_000_000_000 else duration;
      var key := CooldownKey(cfg, r);
      if now + applied > Until(cooldowns, key) {
        cooldowns := cooldowns[key := now + applied];
      }
    }

    method EnsureBootstrap(ds: seq<Default>, now: int)
      requires Sound(store)
      modifies this`store
      ensures store == Bootstrap(old(store), ds, now)
    {
      for i := 0 to |ds|
        invariant store == Bootstrap(old(store), ds[..i], now)
      {
        assert ds[..i + 1][..i] == ds[..i];
        store := ObserveIfUnknown(store, ds[i], now);
      }
      assert ds[..|ds|] == ds;
    }

    /** Lists what the attempt would reserve, after installing the defaults it lacks. */
    method QuotaReservations(r: Route, fingerprint: string, e: Estimate, now: int) returns (rs: seq<Reservation>)
      requires Sound(store)
      modifies this`store
      ensures store == Planned(old(store), cfg, r, fingerprint, now)
      ensures Lists(store.ledger, cfg, r, fingerprint, e, rs)
    {
      EnsureBootstrap(Defaults(cfg, r, fingerprint, now), now);
      store := store.(ledger := Purge(store.ledger, now));
      rs := ListBuckets(store.ledger.live.Keys, cfg, r, fingerprint, e);
    }

    method QuotaCanFit(r: Route, fingerprint: string, e: Estimate, now: int)
      returns (ok: bool, ghost rs: seq<Reservation>)
      requires Sound(store)
      modifies this`store
      ensures Sound(store)
      ensures Lists(Planned(old(store), cfg, r, fingerprint, now).ledger, cfg, r, fingerprint, e, rs)
      ensures ok <==> CanFit(Planned(old(store), cfg, r, fingerprint, now), rs, now)
      ensures ok ==> store == Look(Planned(old(store), cfg, r, fingerprint, now), rs, now)
    {
      var all := QuotaReservations(r, fingerprint, e, now);
      rs := all;
      ok := Scan(all, now);
    }

    /** Looks at the listed buckets in turn, up to the first that does not fit. */
    method Scan(rs: seq<Reservation>, now: int) returns (ok: bool)
      requires Sound(store)
      modifies this`store
      ensures Sound(store) && (ok <==> CanFit(old(store), rs, now))
      ensures ok ==> store == Look(old(store), rs, now)
    {
      hide Exact, TicketsOk, BucketOk, Passes, Snapshot;
      ghost var p := store;
      for i := 0 to |rs|
        invariant Sound(store) && store == Look(p, rs[..i], now)
        invariant forall j | 0 <= j < i :: Passes(Peek(p, rs[j].key, now), rs[j].cost)
      {
        LookOneMore(p, rs, i, now);
        var view := Peek(store, rs[i].key, now);
        store := Peeked(store, rs[i].key, now);
        if !Passes(view, rs[i].cost) {
          return false;
        }
      }
      assert rs[..|rs|] == rs;
      ok := true;
    }

    /** The share of the tightest bucket that would be in use; `known` if any bucket constrains the attempt. */
    method QuotaPressure(r: Route, fingerprint: string, e: Estimate, now: int)
      returns (pressure: real, known: bool, ghost rs: seq<Reservation>)
      requires Sound(store)
      modifies this`store
      ensures Sound(store) && 0.0 <= pressure <= 1.0
      ensures Lists(Planned(old(store), cfg, r, fingerprint, now).ledger, cfg, r, fingerprint, e, rs)
      ensures known <==> rs != []
      ensures pressure == Tightest(Planned(old(store), cfg, r, fingerprint, now), rs, now)
    {
      hide Concerns, ProviderEstimate, CostOn, Tightest;
      var all := QuotaReservations(r, fingerprint, e, now);
      rs := all;
      if all == [] {
        TightestNone(store, now);
        return 0.0, false, rs;
      }
      known := true;
      pressure := Pressure(all, now);
    }

    method Pressure(rs: seq<Reservation>, now: int) returns (pressure: real)
      requires Sound(store) && forall j | 0 <= j < |rs| :: rs[j].cost > 0
      modifies this`store
      ensures Sound(store) && 0.0 <= pressure <= 1.0 && pressure == Tightest(old(store), rs, now)
    {
      hide Exact, TicketsOk, BucketOk, Snapshot;
      ghost var p := store;
      pressure := 0.0;
      TightestBounds(p, rs, now, 0);
      for i := 0 to |rs|
        invariant Sound(store) && store == Look(p, rs[..i], now)
        invariant pressure == Tightest(p, rs[..i], now)
      {
        LookOneMore(p, rs, i, now);
        ShareInRange(p, rs[i], now);
        assert rs[..i + 1][..i] == rs[..i];
        var view := Peek(store, rs[i].key, now);
        store := Peeked(store, rs[i].key, now);
        if view.None? || view.value.observation.limit <= 0 {
          TightestBounds(p, rs[..i], now, 0);
          continue;
        }
        var left := Wrap64(view.value.available - rs[i].cost);
        if left < 0 {
          TightestBounds(p, rs, now, i);
          return 1.0;
        }
        var used := Wrap64(view.value.observation.limit - left);
        var candidate := used as real / view.value.observation.limit as real;
        if candidate > pressure {
          pressure := candidate;
        }
      }
      assert rs[..|rs|] == rs;
    }

    /** How long until one attempt could run, looking at each of its buckets. */
    method AttemptReadyIn(r: Route, fingerprint: string, e: Estimate, now: int)
      returns (ready: int, ghost plan: Store, ghost rs: seq<Reservation>)
      requires Sound(store)
      modifies this`store
      ensures Sound(store) && Asked(plan, store, cfg, r, fingerprint, e, rs, now)
      ensures Drift(old(store).ledger, store.ledger)
      ensures IsReady(ready, cooldowns, cfg, r, plan, rs, now)
    {
      DriftPlanned(store, cfg, r, fingerprint, now);
      ghost var start := store;
      var all := QuotaReservations(r, fingerprint, e, now);
      plan, rs := store, all;
      ready := Longest(CooldownLeft(cooldowns, cfg, r, now), all, now);
      LookDrifts(plan, rs, now);
      LookSound(plan, rs, now);
      DriftTrans(start.ledger, plan.ledger, store.ledger);
    }

    method Longest(left: int, rs: seq<Reservation>, now: int) returns (ready: int)
      requires Sound(store)
      modifies this`store
      ensures store == Look(old(store), rs, now) && ready == ReadyIn(left, old(store), rs, now)
    {
      hide Exact, TicketsOk, BucketOk, Snapshot;
      ready := left;
      ghost var p := store;
      for i := 0 to |rs|
        invariant Sound(store) && store == Look(p, rs[..i], now) && ready == ReadyIn(left, p, rs[..i], now)
      {
        LookOneMore(p, rs, i, now);
        var view := Peek(store, rs[i].key, now);
        store := Peeked(store, rs[i].key, now);
        var wait := ResetIn(view, rs[i].cost, now);
        assert rs[..i + 1][..i] == rs[..i];
        if wait > ready {
          ready := wait;
        }
      }
      assert rs[..|rs|] == rs;
    }

    /** The wait until the first of the attempts becomes runnable; zero if none is waiting for anything known. */
    method RetryAfter(routes: seq<Route>, prints: seq<string>, e: Estimate, now: int)
      returns (soonest: int, ghost plans: seq<Store>, ghost lists: seq<seq<Reservation>>, ghost readies: seq<int>)
      requires Sound(store) && |prints| == |routes|
      modifies this`store
      ensures Sound(store) && |plans| == |lists| == |readies| == |routes|
      ensures forall i | 0 <= i < |routes| :: Asked(plans[i], store, cfg, routes[i], prints[i], e, lists[i], now)
      ensures forall i | 0 <= i < |routes| :: IsReady(readies[i], cooldowns, cfg, routes[i], plans[i], lists[i], now)
      ensures IsSoonest(soonest, readies)
    {
      hide Asked, IsReady, Sound, IsSoonest;
      soonest, plans, lists, readies := 0, [], [], [];
      assert IsSoonest(0, []) by { SoonestOfNone(); }
      for n := 0 to |routes|
        invariant Sound(store) && |plans| == |lists| == |readies| == n
        invariant forall i | 0 <= i < n :: Asked(plans[i], store, cfg, routes[i], prints[i], e, lists[i], now)
        invariant forall i | 0 <= i < n :: IsReady(readies[i], cooldowns, cfg, routes[i], plans[i], lists[i], now)
        invariant IsSoonest(soonest, readies)
      {
        ghost var before := store;
        var ready; ghost var plan, rs;
        ready, plan, rs := AttemptReadyIn(routes[n], prints[n], e, now);
        forall i | 0 <= i < n ensures Asked(plans[i], store, cfg, routes[i], prints[i], e, lists[i], now) {
          AskedDrifts(plans[i], before, store, cfg, routes[i], prints[i], e, lists[i], now);
        }
        plans, lists := plans + [plan], lists + [rs];
        SoonestNext(soonest, readies, ready);
        readies := readies + [ready];
        if ready > 0 && (soonest == 0 || ready < soonest) {
          soonest := ready;
        }
      }
    }
  }
}
