/**
 Which buckets constrain an attempt, and when it may run: published limits are always in force, nobody else's
 bucket counts, and the computed wait is not longer than it has to be.
 */
module QuotaLimits {
  import opened Base
  import opened QuotaSpec
  import opened QuotaInvariant
  import opened QuotaRouting
  import opened QuotaPlanner

  // ---- published limits are in force ----

  /** A bucket nobody has used, holding a published limit. */
  predicate IsPublished(v: View, d: Default, now: int) {
    && v.observation == Observation(d.limit, d.limit, d.reset, Config, Estimated, now)
    && v.reserved == 0 && v.available == d.limit && !v.probeSettled
  }

  predicate Usable(d: Default, now: int) {
    ValidKey(d.key) && d.limit > 0 && (d.reset == 0 || now < d.reset) && (d.key.window == "minute" ==> d.reset != 0)
  }

  /** Installing a default: what was known stays as it was, what was not known is then the published limit. */
  lemma DefaultEffect(s: Store, d: Default, now: int, k: Key)
    requires Sound(s) && Usable(d, now) && now != 0
    ensures var s' := ObserveIfUnknown(s, d, now);
      && Closed(s'.ledger)
      && (k != d.key ==> Peek(s', k, now) == Peek(s, k, now))
      && (Peek(s, d.key, now).Some? ==> Peek(s', d.key, now) == Peek(s, d.key, now))
      && (Peek(s, d.key, now).None? ==>
            Peek(s', d.key, now).Some? && IsPublished(Peek(s', d.key, now).value, d, now))
  {
    hide Exact, TicketsOk;
    ObserveIfUnknownSound(s, d, now);
    PeekIsStable(s, d.key, k, now);
    PeekIsStable(s, d.key, d.key, now);
    if Peek(s, d.key, now).None? {
      var o := Observation(d.limit, d.limit, d.reset, Config, Estimated, now);
      ObservingShows(Peeked(s, d.key, now), d.key, o, now, k);
    }
  }

  lemma ObservingShows(s: Store, k: Key, o: Observation, now: int, j: Key)
    requires Closed(s.ledger) && s.next !in s.ledger.heap && k !in Purge(s.ledger, now).live
    requires ValidKey(k) && 0 <= o.remaining <= o.limit && !Past(o, now) && o.observedAt == now != 0
    requires k.window == "minute" ==> o.resetAt != 0
    ensures var s' := Observing(s, k, o, now);
      && Closed(s'.ledger) && (j != k ==> Peek(s', j, now) == Peek(s, j, now))
      && Peek(s', k, now) == Some(View(o, 0, o.remaining, false))
  {
    ObservingInstalls(s, k, o, now);
    hide Observing;
    var p, s' := Purge(s.ledger, now), Observing(s, k, o, now);
    assert Closed(s'.ledger) by { ClosedAgain(p, s'.ledger); }
    hide HoldsClosed;
    if j != k {
      if j in s.ledger.live {
        assert PointsTo(s.ledger.heap, j, s.ledger.live[j]);
      }
      hide Closed;
      PeekDepends(s, s', j, now);
    }
  }

  /** What a look shows depends on the key's own unexpired bucket only. */
  lemma PeekDepends(s: Store, s': Store, k: Key, now: int)
    requires Closed(s.ledger) && Closed(s'.ledger)
    requires var l, l' := s.ledger, s'.ledger;
      if k in l.live && !Past(l.heap[l.live[k]].observation, now)
      then k in l'.live && l'.heap[l'.live[k]] == l.heap[l.live[k]]
      else k in l'.live ==> Past(l'.heap[l'.live[k]].observation, now)
    ensures Peek(s', k, now) == Peek(s, k, now)
  {
    hide HoldsClosed, Stale;
  }

  lemma ObservingInstalls(s: Store, k: Key, o: Observation, now: int)
    requires Closed(s.ledger) && s.next !in s.ledger.heap && k !in Purge(s.ledger, now).live
    requires ValidKey(k) && 0 <= o.remaining <= o.limit && !Past(o, now) && o.observedAt == now != 0
    ensures var l, p := Observing(s, k, o, now).ledger, Purge(s.ledger, now);
      l == p.(heap := p.heap[s.next := Bucket(k, o, 0, false)], live := p.live[k := s.next])
  {
  }

  /** Each of a list of defaults for different keys is in force afterwards, and no other bucket is touched. */
  lemma {:induction false} BootstrapEffect(s: Store, ds: seq<Default>, now: int, k: Key)
    requires Sound(s) && now != 0 && forall i | 0 <= i < |ds| :: ds[i].limit > 0 ==> Usable(ds[i], now)
    requires forall i, j | 0 <= i < j < |ds| :: ds[i].key != ds[j].key
    ensures Closed(s.ledger) && Closed(Bootstrap(s, ds, now).ledger)
    ensures (forall i | 0 <= i < |ds| :: ds[i].key != k) || Peek(s, k, now).Some? ==>
      Peek(Bootstrap(s, ds, now), k, now) == Peek(s, k, now)
    ensures forall i | 0 <= i < |ds| && ds[i].key == k && ds[i].limit > 0 && Peek(s, k, now).None? ::
      Peek(Bootstrap(s, ds, now), k, now).Some? &&
      IsPublished(Peek(Bootstrap(s, ds, now), k, now).value, ds[i], now)
  {
    hide Inv, Peek, ObserveIfUnknown, IsPublished;
    SoundIsClosed(s);
    if ds != [] {
      var n := |ds| - 1;
      BootstrapEffect(s, ds[..n], now, k);
      var p := Bootstrap(s, ds[..n], now);
      if ds[n].limit > 0 {
        DefaultEffect(p, ds[n], now, k);
      } else {
        NoLimitNoChange(p, ds[n], now);
      }
      assert forall i | 0 <= i < n :: ds[..n][i] == ds[i];
    }
  }

  lemma NoLimitNoChange(s: Store, d: Default, now: int)
    requires Closed(s.ledger) && d.limit <= 0
    ensures ObserveIfUnknown(s, d, now) == s
  {
  }

  /** Every default of a route is on a bucket that constrains the route, and no two are on the same. */
  lemma DefaultsConstrain(cfg: Settings, r: Route, fingerprint: string, now: int)
    requires now > 0 && r.model != ""
    ensures var ds := Defaults(cfg, r, fingerprint, now);
      && (forall i | 0 <= i < |ds| :: Concerns(cfg, r, fingerprint, ds[i].key))
      && (forall i | 0 <= i < |ds| :: ds[i].limit > 0 ==> Usable(ds[i], now))
      && (forall i, j | 0 <= i < j < |ds| :: ds[i].key != ds[j].key)
  {
    hide IsFree, NextMinute, NextUtcDay, Text.Contains;
    DaysAndMinutes(now);
    ScopesAreNamed(fingerprint);
  }

  lemma DaysAndMinutes(now: int)
    ensures now < NextMinute(now) <= now + MINUTE && NextMinute(now) % MINUTE == 0
    ensures now < NextUtcDay(now) <= now + DAY && NextUtcDay(now) % DAY == 0
  {
  }

  lemma ScopesAreNamed(fingerprint: string)
    ensures ScopeOf("model", fingerprint) != "" && ScopeOf("free_pool", fingerprint) != ""
  {
  }

  /** The windows and dimensions a provider publishes limits for. */
  predicate Publishes(r: Route, dimension: string, window: string) {
    && (window == "minute" || window == "day")
    && (if r.provider == "openrouter" then IsFree(r.model) && dimension == "requests"
        else (r.provider == "cerebras" || r.provider == "groq") && (dimension == "requests" || dimension == "tokens"))
  }

  /** There is a default exactly for each of them. */
  lemma DefaultsCover(cfg: Settings, r: Route, fingerprint: string, now: int, dimension: string, window: string)
    ensures Publishes(r, dimension, window) <==>
      exists i :: 0 <= i < |Defaults(cfg, r, fingerprint, now)| &&
        Defaults(cfg, r, fingerprint, now)[i].key.dimension == dimension &&
        Defaults(cfg, r, fingerprint, now)[i].key.window == window
  {
    hide IsFree, NextMinute, NextUtcDay, Text.Contains, ScopeOf;
    var ds := Defaults(cfg, r, fingerprint, now);
    if Publishes(r, dimension, window) {
      var i := if r.provider == "openrouter" then (if window == "day" then 0 else 1)
               else if dimension == "requests" then (if window == "day" then 0 else 1)
               else if window == "minute" then 2 else 3;
      assert ds[i].key.dimension == dimension && ds[i].key.window == window;
    }
  }

  /**
   A published limit always counts: whatever the ledger knew before, an attempt's list of buckets contains every
   bucket its provider publishes a positive limit for, unless the attempt costs nothing there.
   */
  lemma PublishedLimitsCount(s: Store, cfg: Settings, r: Route, fingerprint: string, e: Estimate, now: int,
                             rs: seq<Reservation>, i: nat)
    requires Sound(s) && now > 0 && r.model != "" && i < |Defaults(cfg, r, fingerprint, now)|
    requires Lists(Planned(s, cfg, r, fingerprint, now).ledger, cfg, r, fingerprint, e, rs)
    requires var d := Defaults(cfg, r, fingerprint, now)[i];
      d.limit > 0 && CostOn(ProviderEstimate(cfg, r, e), d.key) > 0
    ensures exists j :: 0 <= j < |rs| && rs[j].key == Defaults(cfg, r, fingerprint, now)[i].key
  {
    hide Inv, Defaults, Concerns, Usable, ProviderEstimate;
    var ds := Defaults(cfg, r, fingerprint, now);
    DefaultsConstrain(cfg, r, fingerprint, now);
    BootstrapEffect(s, ds, now, ds[i].key);
    ShownIsLive(Bootstrap(s, ds, now), ds[i].key, now);
  }

  lemma ShownIsLive(s: Store, k: Key, now: int)
    requires Closed(s.ledger) && Peek(s, k, now).Some?
    ensures k in Purge(s.ledger, now).live
  {
  }

  // ---- and nobody else's ----

  /**
   Two attempts share a bucket only if they go to the same provider with the same credential, and either to the
   same model or both to its pool of free models.
   */
  lemma BucketsAreApart(cfg: Settings, r: Route, q: Route, f: string, g: string, k: Key)
    requires Concerns(cfg, r, f, k) && Concerns(cfg, q, g, k)
    ensures cfg.Provider(r) == cfg.Provider(q) && f == g
    ensures r.provider == "openrouter" && IsFree(r.model) <==> q.provider == "openrouter" && IsFree(q.model)
    ensures !(r.provider == "openrouter" && IsFree(r.model)) ==> r.model == q.model
  {
    hide IsFree;
    var a := if r.provider == "openrouter" && IsFree(r.model) then "free_pool" else "model";
    var b := if q.provider == "openrouter" && IsFree(q.model) then "free_pool" else "model";
    assert ScopeOf(a, f) == ScopeOf(b, g);
    ScopesAreApart(a, b, f, g);
  }

  lemma ScopesAreApart(a: string, b: string, f: string, g: string)
    requires ScopeOf(a, f) == ScopeOf(b, g) && a in {"model", "free_pool"} && b in {"model", "free_pool"}
    ensures a == b && f == g
  {
    assert "model"[0] != "free_pool"[0];
    assert ScopeOf(a, f)[0] == a[0] && ScopeOf(b, g)[0] == b[0];
    if f != "" && g != "" {
      assert ScopeOf(a, f)[|a| + 1..] == f && ScopeOf(b, g)[|b| + 1..] == g;
    }
  }

  /** Cooldowns are kept apart by provider and model. */
  lemma CooldownsAreApart(cfg: Settings, r: Route, q: Route)
    requires CooldownKey(cfg, r) == CooldownKey(cfg, q)
    requires '\0' !in cfg.Provider(r) && '\0' !in cfg.Provider(q)
    ensures cfg.Provider(r) == cfg.Provider(q) && r.model == q.model
  {
    var (a, b) := (cfg.Provider(r), cfg.Provider(q));
    var key := CooldownKey(cfg, r);
    assert key == a + "\0" + r.model == b + "\0" + q.model;
    assert key[|a|] == '\0' && key[|b|] == '\0';
    assert key[..|a|] == a && key[..|b|] == b;
    assert key[|a| + 1..] == r.model && key[|b| + 1..] == q.model;
  }

  // ---- the wait ----

  /** The bucket does not cover the cost now, and is known to reset at this instant. */
  ghost predicate ShortUntil(plan: Store, x: Reservation, now: int, until: int)
    requires Closed(plan.ledger)
  {
    var v := Peek(plan, x.key, now);
    v.Some? && v.value.available < x.cost && v.value.observation.resetAt == until && until != 0 && now < until
  }

  lemma {:induction false} ReadyIsAttained(left: int, s: Store, rs: seq<Reservation>, now: int)
    requires Closed(s.ledger) && left >= 0
    ensures ReadyIn(left, s, rs, now) == left ||
      exists i :: 0 <= i < |rs| && ShortUntil(s, rs[i], now, now + ReadyIn(left, s, rs, now))
  {
    hide Peek;
    if rs != [] {
      var n := |rs| - 1;
      ReadyIsAttained(left, s, rs[..n], now);
      var before := ReadyIn(left, s, rs[..n], now);
      if ReadyIn(left, s, rs, now) == before && before != left {
        var i :| 0 <= i < n && ShortUntil(s, rs[..n][i], now, now + before);
        assert ShortUntil(s, rs[i], now, now + before);
      } else if ReadyIn(left, s, rs, now) != before {
        assert ShortUntil(s, rs[n], now, now + ReadyIn(left, s, rs, now));
      }
    }
  }

  /**
   What an attempt's wait is: zero, or the end of its cooldown, or the reset of a bucket that is short; and it
   comes before none of those.
   */
  lemma ReadyMeans(ready: int, cooldowns: map<string, int>, cfg: Settings, r: Route, plan: Store, rs: seq<Reservation>,
                   now: int)
    requires IsReady(ready, cooldowns, cfg, r, plan, rs, now)
    ensures ready >= 0 && now + ready >= Until(cooldowns, CooldownKey(cfg, r))
    ensures forall i, until | 0 <= i < |rs| && ShortUntil(plan, rs[i], now, until) :: until <= now + ready
    ensures ready == 0 || now + ready == Until(cooldowns, CooldownKey(cfg, r)) ||
      exists i :: 0 <= i < |rs| && ShortUntil(plan, rs[i], now, now + ready)
  {
    var left := CooldownLeft(cooldowns, cfg, r, now);
    ReadyIsAttained(left, plan, rs, now);
    ReadyInBounds(left, plan, rs, now, 0);
    forall i, until | 0 <= i < |rs| && ShortUntil(plan, rs[i], now, until) ensures until <= now + ready {
      ReadyInBounds(left, plan, rs, now, i);
    }
  }

  /** A bucket that is short until its reset stays short until then, if nothing happens to it. */
  lemma StaysShort(plan: Store, x: Reservation, now: int, until: int, when: int)
    requires Sound(plan) && ShortUntil(plan, x, now, until) && now <= when < until
    ensures Short(Peek(plan, x.key, when), x.cost)
  {
  }

  /**
   No longer than it has to be: before the wait is over the attempt is still cooling down, or one of its buckets
   still does not cover it, as long as nothing else happens.
   */
  lemma WaitIsTight(ready: int, cooldowns: map<string, int>, cfg: Settings, r: Route, plan: Store, rs: seq<Reservation>,
                    now: int, when: int)
    requires Sound(plan) && IsReady(ready, cooldowns, cfg, r, plan, rs, now) && now <= when < now + ready
    ensures !Cooled(cooldowns, cfg, r, when) || exists i ::
      0 <= i < |rs| && Short(Peek(plan, rs[i].key, when), rs[i].cost)
  {
    hide Inv, Peek;
    ReadyMeans(ready, cooldowns, cfg, r, plan, rs, now);
    if now + ready != Until(cooldowns, CooldownKey(cfg, r)) {
      var i :| 0 <= i < |rs| && ShortUntil(plan, rs[i], now, now + ready);
      StaysShort(plan, rs[i], now, now + ready, when);
    }
  }

  /** The planner's answer is tight in the same way: before it, no attempt that has to wait is ready. */
  lemma RetryAfterIsTight(cfg: Settings, cooldowns: map<string, int>, routes: seq<Route>, plans: seq<Store>,
                          lists: seq<seq<Reservation>>, readies: seq<int>, soonest: int, now: int, when: int, i: nat)
    requires |plans| == |lists| == |readies| == |routes| && IsSoonest(soonest, readies) && i < |routes|
    requires Sound(plans[i]) && IsReady(readies[i], cooldowns, cfg, routes[i], plans[i], lists[i], now)
    requires readies[i] != 0 && now <= when < now + soonest
    ensures !Cooled(cooldowns, cfg, routes[i], when) ||
      exists j :: 0 <= j < |lists[i]| && Short(Peek(plans[i], lists[i][j].key, when), lists[i][j].cost)
  {
    hide Inv, Peek;
    ReadyMeans(readies[i], cooldowns, cfg, routes[i], plans[i], lists[i], now);
    WaitIsTight(readies[i], cooldowns, cfg, routes[i], plans[i], lists[i], now, when);
  }

  // ---- pressure ----

  lemma Undivide(a: int, b: int)
    requires b > 0
    ensures a as real / b as real * b as real == a as real
  {
  }

  /** A bucket's share: everything if it does not cover the cost, else the part of the limit in use once it is taken. */
  lemma ShareMeans(view: Option<View>, cost: Int64)
    ensures view.None? || view.value.observation.limit <= 0 ==> Share(view, cost) == 0.0
    ensures view.Some? && view.value.observation.limit > 0 ==>
      var limit, available := view.value.observation.limit, view.value.available;
      Share(view, cost) * limit as real == (if available < cost then limit else limit - available + cost) as real
  {
    if view.Some? && view.value.observation.limit > 0 {
      Undivide(view.value.observation.limit - (view.value.available - cost), view.value.observation.limit);
    }
  }

  /** The pressure is the largest share of a listed bucket, and zero if there is none. */
  lemma {:induction false} TightestIsLargest(s: Store, rs: seq<Reservation>, now: int)
    requires Sound(s) && forall j | 0 <= j < |rs| :: rs[j].cost > 0
    ensures Closed(s.ledger)
    ensures forall i | 0 <= i < |rs| :: Share(Peek(s, rs[i].key, now), rs[i].cost) <= Tightest(s, rs, now)
    ensures Tightest(s, rs, now) == 0.0 ||
      exists i :: 0 <= i < |rs| && Tightest(s, rs, now) == Share(Peek(s, rs[i].key, now), rs[i].cost)
  {
    hide Sound, Peek, Share;
    SoundIsClosed(s);
    forall i | 0 <= i < |rs| ensures Share(Peek(s, rs[i].key, now), rs[i].cost) <= Tightest(s, rs, now) {
      TightestBounds(s, rs, now, i);
    }
    if rs != [] {
      var n := |rs| - 1;
      TightestIsLargest(s, rs[..n], now);
      if i :| 0 <= i < n && Tightest(s, rs[..n], now) == Share(Peek(s, rs[..n][i].key, now), rs[..n][i].cost) {
        assert rs[..n][i] == rs[i];
      }
    }
  }
}
