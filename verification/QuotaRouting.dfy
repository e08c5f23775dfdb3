/**
 The planner's view of the ledger: bootstrap limits, the reservations of an attempt, the fit test,
 quota pressure, cooldowns, and the wait after which a blocked attempt becomes runnable.
 */
module QuotaRouting {
  import opened Base
  import opened Text
  import opened QuotaSpec
  import opened QuotaInvariant

  const DAY: int := 24 * 60 * MINUTE
  const FREE_POOL := "free"

  datatype Route = Route(profile: string, provider: string, model: string)

  datatype Estimate = Estimate(
    requests: Int64, tokens: Int64, inputTokens: Int64, outputTokens: Int64, outputExplicit: bool)

  /** Numeric settings from the environment, and the provider an attempt without one goes to. */
  datatype Settings = Settings(numbers: map<string, Int64>, defaultProvider: string)
  {
    function Int(name: string, fallback: Int64): Int64 {
      if name in numbers then numbers[name] else fallback
    }

    function Provider(r: Route): string {
      if r.provider != "" then r.provider else defaultProvider
    }
  }

  /** The ledger plus a supply of bucket identities: every identity from `next` on is unused. */
  datatype Store = Store(ledger: Ledger<nat>, next: nat)

  ghost predicate Sound(s: Store) {
    Inv(s.ledger) && forall b | b in s.ledger.heap :: b < s.next
  }

  function Observing(s: Store, k: Key, o: Observation, now: int): Store
    requires Closed(s.ledger)
  {
    Store(Observe(s.ledger, k, o, now, s.next).0, s.next + 1)
  }

  function Peek(s: Store, k: Key, now: int): Option<View>
    requires Closed(s.ledger)
  {
    Snapshot(s.ledger, k, now).1
  }

  function Peeked(s: Store, k: Key, now: int): Store
    requires Closed(s.ledger)
  {
    s.(ledger := Snapshot(s.ledger, k, now).0)
  }

  // ---- bootstrap limits ----

  datatype Default = Default(key: Key, limit: Int64, reset: int)

  function NextMinute(now: int): int { (now / MINUTE + 1) * MINUTE }

  function NextUtcDay(now: int): int { (now / DAY + 1) * DAY }

  predicate IsFree(model: string) { HasSuffix(Lower(model), ":free") }

  /** A model is free exactly if its name ends in ":free", in any case of letters. */
  lemma FreeIff(model: string)
    ensures IsFree(model) <==>
      |model| >= 5 && var n := |model| - 5;
      && model[n] == ':' && model[n + 1] in "fF" && model[n + 2] in "rR" && model[n + 3] in "eE" && model[n + 4] in "eE"
  {
    var lower := Lower(model);
    if |model| >= 5 {
      var n := |model| - 5;
      assert lower[n..] == [lower[n], lower[n + 1], lower[n + 2], lower[n + 3], lower[n + 4]];
      assert ":free" == [':', 'f', 'r', 'e', 'e'];
    }
  }

  function ScopeOf(base: string, fingerprint: string): string {
    if fingerprint == "" then base else base + ":" + fingerprint
  }

  /** The published free-tier limits for one route; `fingerprint` identifies its credential. */
  function Defaults(cfg: Settings, r: Route, fingerprint: string, now: int): seq<Default> {
    var p := cfg.Provider(r);
    if r.provider == "openrouter" then
      if !IsFree(r.model) then []
      else
        var scope := ScopeOf("free_pool", fingerprint);
        [Default(Key(p, scope, FREE_POOL, "requests", "day"),
                 cfg.Int("PROXY_OPENROUTER_FREE_RPD", 50), NextUtcDay(now)),
         Default(Key(p, scope, FREE_POOL, "requests", "minute"),
                 cfg.Int("PROXY_OPENROUTER_FREE_RPM", 20), NextMinute(now))]
    else if r.provider == "cerebras" then
      var scope := ScopeOf("model", fingerprint);
      [Default(Key(p, scope, r.model, "requests", "day"), cfg.Int("PROXY_CEREBRAS_RPD", 14400), now + DAY),
       Default(Key(p, scope, r.model, "requests", "minute"), cfg.Int("PROXY_CEREBRAS_RPM", 30), NextMinute(now)),
       Default(Key(p, scope, r.model, "tokens", "minute"), cfg.Int("PROXY_CEREBRAS_TPM", 64000), NextMinute(now)),
       Default(Key(p, scope, r.model, "tokens", "day"), cfg.Int("PROXY_CEREBRAS_TPD", 1000000), now + DAY)]
    else if r.provider == "groq" then
      var small := Contains(Lower(r.model), "llama-3.1-8b");
      var scope := ScopeOf("model", fingerprint);
      [Default(Key(p, scope, r.model, "requests", "day"),
               cfg.Int("PROXY_GROQ_RPD", if small then 14400 else 1000), now + DAY),
       Default(Key(p, scope, r.model, "requests", "minute"),
               cfg.Int("PROXY_GROQ_RPM", 30), NextMinute(now)),
       Default(Key(p, scope, r.model, "tokens", "minute"),
               cfg.Int("PROXY_GROQ_TPM", if small then 6000 else 8000), NextMinute(now)),
       Default(Key(p, scope, r.model, "tokens", "day"),
               cfg.Int("PROXY_GROQ_TPD", if small then 500000 else 200000), now + DAY)]
    else []
  }

  /** A default is installed only where nothing is known. */
  function ObserveIfUnknown(s: Store, d: Default, now: int): Store
    requires Closed(s.ledger)
  {
    if d.limit <= 0 then s
    else if Peek(s, d.key, now).Some? then Peeked(s, d.key, now)
    else Observing(Peeked(s, d.key, now), d.key, Observation(d.limit, d.limit, d.reset, Config, Estimated, now), now)
  }

  lemma PeekedSound(s: Store, k: Key, now: int)
    requires Sound(s)
    ensures Sound(Peeked(s, k, now))
  {
    SnapshotKeeps(s.ledger, k, now);
  }

  lemma ObservingSound(s: Store, k: Key, o: Observation, now: int)
    requires Sound(s)
    ensures Sound(Observing(s, k, o, now))
  {
    ObserveKeeps(s.ledger, k, o, now, s.next);
  }

  lemma ObserveIfUnknownSound(s: Store, d: Default, now: int)
    requires Sound(s)
    ensures Sound(ObserveIfUnknown(s, d, now))
  {
    PeekedSound(s, d.key, now);
    ObservingSound(Peeked(s, d.key, now), d.key, Observation(d.limit, d.limit, d.reset, Config, Estimated, now), now);
  }

  ghost function Bootstrap(s: Store, ds: seq<Default>, now: int): (r: Store)
    requires Sound(s)
    ensures Sound(r)
  {
    if ds == [] then s
    else
      var p := Bootstrap(s, ds[..|ds| - 1], now);
      ObserveIfUnknownSound(p, ds[|ds| - 1], now);
      ObserveIfUnknown(p, ds[|ds| - 1], now)
  }

  // ---- the reservations of an attempt ----

  function ProviderEstimate(cfg: Settings, r: Route, e: Estimate): Estimate {
    if e.outputExplicit || e.inputTokens <= 0 then e
    else
      var out := if r.provider == "cerebras" then cfg.Int("PROXY_CEREBRAS_DEFAULT_MAX_COMPLETION_TOKENS", 32768)
                 else if r.provider == "groq" then cfg.Int("PROXY_GROQ_DEFAULT_MAX_COMPLETION_TOKENS", 4096)
                 else e.outputTokens;
      var out := if out < 0 then 0 else out;
      e.(outputTokens := out, tokens := Wrap64(e.inputTokens + out))
  }

  /** Does this bucket constrain the route? */
  predicate Concerns(cfg: Settings, r: Route, fingerprint: string, k: Key) {
    var free := r.provider == "openrouter" && IsFree(r.model);
    && k.provider == cfg.Provider(r)
    && k.scope == ScopeOf(if free then "free_pool" else "model", fingerprint)
    && (k.modelOrPool == r.model || (free && k.modelOrPool == FREE_POOL))
  }

  function CostOn(e: Estimate, k: Key): Int64 {
    if k.dimension == "tokens" then e.tokens else e.requests
  }

  /** `rs` lists, in some order, one reservation for each live bucket that constrains the route. */
  ghost predicate Lists(l: Ledger<nat>, cfg: Settings, r: Route, fingerprint: string, e: Estimate,
                        rs: seq<Reservation>) {
    && (forall i, j | 0 <= i < j < |rs| :: rs[i].key != rs[j].key)
    && (forall i | 0 <= i < |rs| :: rs[i].key in l.live && Concerns(cfg, r, fingerprint, rs[i].key) &&
                                    rs[i].cost == CostOn(ProviderEstimate(cfg, r, e), rs[i].key) > 0)
    && (forall k | k in l.live && Concerns(cfg, r, fingerprint, k) && CostOn(ProviderEstimate(cfg, r, e), k) > 0 ::
          exists i :: 0 <= i < |rs| && rs[i].key == k)
  }

  // ---- the fit test ----

  predicate Passes(view: Option<View>, cost: Int64) {
    view.Some? ==>
      || view.value.available >= cost
      || (view.value.observation.confidence == Estimated && view.value.reserved == 0 && !view.value.probeSettled)
  }

  predicate CanFit(s: Store, rs: seq<Reservation>, now: int)
    requires Closed(s.ledger)
  {
    forall i | 0 <= i < |rs| :: Passes(Peek(s, rs[i].key, now), rs[i].cost)
  }

  /** Looking at one bucket never changes what looking at any bucket shows. */
  lemma PeekIsStable(s: Store, j: Key, k: Key, now: int)
    requires Closed(s.ledger)
    ensures Closed(Peeked(s, j, now).ledger) && Peek(Peeked(s, j, now), k, now) == Peek(s, k, now)
  {
  }

  /** Asked with positive costs on distinct valid keys, the ledger admits exactly the buckets in budget or on probe. */
  predicate Simple(rs: seq<Reservation>) {
    && (forall i | 0 <= i < |rs| :: ValidKey(rs[i].key) && rs[i].cost > 0)
    && (forall i, j | 0 <= i < j < |rs| :: rs[i].key != rs[j].key)
  }

  lemma {:induction false} SimpleTotal(rs: seq<Reservation>, i: nat)
    requires Simple(rs) && i < |rs|
    ensures Total(rs, rs[i].key) == rs[i].cost
  {
    var n := |rs| - 1;
    if i < n {
      assert rs[..n][i] == rs[i];
      SimpleTotal(rs[..n], i);
    } else {
      SimpleAbsent(rs[..n], rs[n].key);
    }
  }

  lemma {:induction false} SimpleAbsent(rs: seq<Reservation>, k: Key)
    requires forall i | 0 <= i < |rs| :: rs[i].key != k
    ensures Total(rs, k) == 0
  {
    if rs != [] {
      SimpleAbsent(rs[..|rs| - 1], k);
    }
  }

  predicate Blocked(l: Ledger<nat>, r: Reservation, now: int)
    requires Closed(l)
  {
    r.key in Purge(l, now).live && !InBudget(l.heap[l.live[r.key]], r.cost) && !ProbeAllowed(l.heap[l.live[r.key]])
  }

  lemma SimpleAcceptable(rs: seq<Reservation>)
    requires Simple(rs)
    ensures Acceptable(rs)
    ensures forall i | 0 <= i < |rs| :: rs[i].key in Amounts(rs) && Amounts(rs)[rs[i].key] == rs[i].cost
  {
    forall i | 0 <= i < |rs| ensures EntryOk(rs, i) {
      SimpleTotal(rs, i);
    }
    forall i | 0 <= i < |rs| ensures rs[i].key in Amounts(rs) && Amounts(rs)[rs[i].key] == rs[i].cost {
      SimpleTotal(rs, i);
    }
  }

  /** ReserveAll grants exactly when no requested bucket is blocked. */
  lemma GrantIff(l: Ledger<nat>, rs: seq<Reservation>, now: int)
    requires Closed(l) && Simple(rs)
    ensures ReserveAll(l, rs, now).1.Some? <==> forall i | 0 <= i < |rs| :: !Blocked(l, rs[i], now)
  {
    SimpleAcceptable(rs);
    var p := Purge(l, now);
    if forall i | 0 <= i < |rs| :: !Blocked(l, rs[i], now) {
      forall k | k in Amounts(rs) ensures Admits(p, k, Amounts(rs)[k]) {
        var i :| 0 <= i < |rs| && rs[i].key == k;
        assert !Blocked(l, rs[i], now);
      }
    } else {
      var i :| 0 <= i < |rs| && Blocked(l, rs[i], now);
      assert !Admits(p, rs[i].key, Amounts(rs)[rs[i].key]);
    }
  }

  predicate StaleAt(l: Ledger<nat>, k: Key, now: int)
    requires Closed(l)
  {
    k in Purge(l, now).live && Stale(k, l.heap[l.live[k]].observation, now)
  }

  lemma PassesIff(s: Store, r: Reservation, now: int)
    requires Sound(s) && r.cost > 0
    ensures Passes(Peek(s, r.key, now), r.cost) <==> !Blocked(s.ledger, r, now) || StaleAt(s.ledger, r.key, now)
  {
    if r.key in s.ledger.live {
      assert PointsTo(s.ledger.heap, r.key, s.ledger.live[r.key]);
      assert BucketOk(s.ledger.heap[s.ledger.live[r.key]]);
    }
  }

  /**
   The planner promises what the ledger then refuses exactly when something is blocked and every
   blocked bucket is a minute bucket without a reset whose minute is over: looking at such a bucket
   drops it, reserving does not.
   */
  lemma PlannerAndLedgerDisagreeIff(s: Store, rs: seq<Reservation>, now: int)
    requires Sound(s) && Simple(rs)
    ensures ReserveAll(s.ledger, rs, now).1.Some? ==> CanFit(s, rs, now)
    ensures CanFit(s, rs, now) != ReserveAll(s.ledger, rs, now).1.Some? <==>
      && (exists i :: 0 <= i < |rs| && Blocked(s.ledger, rs[i], now))
      && (forall i | 0 <= i < |rs| && Blocked(s.ledger, rs[i], now) :: StaleAt(s.ledger, rs[i].key, now))
  {
    GrantIff(s.ledger, rs, now);
    forall i | 0 <= i < |rs|
      ensures Passes(Peek(s, rs[i].key, now), rs[i].cost) <==>
              !Blocked(s.ledger, rs[i], now) || StaleAt(s.ledger, rs[i].key, now)
    {
      PassesIff(s, rs[i], now);
    }
  }

  const SAMPLE_KEY := Key("groq", "model", "m", "requests", "minute")
  const SPENT := Observation(5, 0, 0, ProviderHeader, Authoritative, 1)

  /** The ledger after one observation of an exhausted minute bucket without a reset. */
  function Undated(): Ledger<nat> {
    Observe(Empty(), SAMPLE_KEY, SPENT, 1, 0).0
  }

  lemma UndatedIs()
    ensures Undated() == Ledger(map[0 := Bucket(SAMPLE_KEY, SPENT, 0, false)], map[SAMPLE_KEY := 0], map[], 0)
  {
    hide HoldsClosed, PointsTo;
  }

  lemma UndatedSound()
    ensures Sound(Store(Undated(), 1))
  {
    EmptyKeeps();
    UndatedIs();
    ObserveKeeps(Empty(), SAMPLE_KEY, SPENT, 1, 0);
    hide Observe, Exact, TicketsOk, Inv, PointsTo, HoldsClosed;
  }

  /** A concrete disagreement: one observation, and one minute later. */
  lemma DisagreementExists()
    ensures var rs := [Reservation(SAMPLE_KEY, 1)];
      && Sound(Store(Undated(), 1)) && Simple(rs)
      && CanFit(Store(Undated(), 1), rs, MINUTE) && ReserveAll(Undated(), rs, MINUTE).1 == None
  {
    UndatedIs();
    UndatedSound();
    hide Undated, Sound, Exact, TicketsOk;
    var s, rs := Store(Undated(), 1), [Reservation(SAMPLE_KEY, 1)];
    assert Closed(s.ledger) by { UndatedIs(); }
    assert Blocked(s.ledger, rs[0], MINUTE);
    PlannerAndLedgerDisagreeIff(s, rs, MINUTE);
    PassesIff(s, rs[0], MINUTE);
  }

  lemma EmptyKeeps()
    ensures Inv(Empty<nat>())
  {
  }

  /** Every minute bucket knows its reset, as the routing layer arranges. */
  predicate MinutesReset(l: Ledger<nat>)
    requires Closed(l)
  {
    forall k | k in l.live && k.window == "minute" :: l.heap[l.live[k]].observation.resetAt != 0
  }

  /** Then the planner and the ledger always agree. */
  lemma PlannerAgreesWithLedger(s: Store, rs: seq<Reservation>, now: int)
    requires Sound(s) && Simple(rs) && MinutesReset(s.ledger)
    ensures CanFit(s, rs, now) <==> ReserveAll(s.ledger, rs, now).1.Some?
  {
    PlannerAndLedgerDisagreeIff(s, rs, now);
  }

  /** The ledger after looking at each requested bucket in turn. */
  function Look(s: Store, rs: seq<Reservation>, now: int): (r: Store)
    requires Closed(s.ledger)
    ensures Closed(r.ledger)
  {
    if rs == [] then s
    else Peeked(Look(s, rs[..|rs| - 1], now), rs[|rs| - 1].key, now)
  }

  lemma {:induction false} LookShowsTheSame(s: Store, rs: seq<Reservation>, k: Key, now: int)
    requires Closed(s.ledger)
    ensures Peek(Look(s, rs, now), k, now) == Peek(s, k, now)
  {
    if rs != [] {
      LookShowsTheSame(s, rs[..|rs| - 1], k, now);
      PeekIsStable(Look(s, rs[..|rs| - 1], now), rs[|rs| - 1].key, k, now);
    }
  }

  lemma {:induction false} LookSound(s: Store, rs: seq<Reservation>, now: int)
    requires Sound(s)
    ensures Sound(Look(s, rs, now))
  {
    if rs != [] {
      LookSound(s, rs[..|rs| - 1], now);
      PeekedSound(Look(s, rs[..|rs| - 1], now), rs[|rs| - 1].key, now);
    }
  }

  lemma PeekedNotStale(s: Store, j: Key, k: Key, now: int)
    requires Closed(s.ledger)
    ensures !StaleAt(Peeked(s, k, now).ledger, k, now)
    ensures !StaleAt(s.ledger, j, now) ==> !StaleAt(Peeked(s, k, now).ledger, j, now)
  {
  }

  lemma {:induction false} LookDropsStale(s: Store, rs: seq<Reservation>, i: nat, now: int)
    requires Closed(s.ledger) && i < |rs|
    ensures !StaleAt(Look(s, rs, now).ledger, rs[i].key, now)
  {
    var n := |rs| - 1;
    PeekedNotStale(Look(s, rs[..n], now), rs[i].key, rs[n].key, now);
    if i < n {
      LookDropsStale(s, rs[..n], i, now);
    }
  }

  /** Once the planner has looked at every bucket, its answer is the ledger's answer. */
  lemma AnswerAfterLooking(s: Store, rs: seq<Reservation>, now: int)
    requires Sound(s) && Simple(rs)
    ensures CanFit(s, rs, now) <==> ReserveAll(Look(s, rs, now).ledger, rs, now).1.Some?
  {
    LookSound(s, rs, now);
    forall i | 0 <= i < |rs|
      ensures Peek(Look(s, rs, now), rs[i].key, now) == Peek(s, rs[i].key, now)
      ensures !StaleAt(Look(s, rs, now).ledger, rs[i].key, now)
    {
      LookShowsTheSame(s, rs, rs[i].key, now);
      LookDropsStale(s, rs, i, now);
    }
    PlannerAndLedgerDisagreeIff(Look(s, rs, now), rs, now);
  }
}
