/**
 * Circuit breakers of models and providers: the state of one circuit as a
 * function of the calls made on it, what every history of calls keeps, and the
 * table of circuits the router updates in place.
 */
module Breaker {
  import opened Base
  import opened Scoring

  const DEFAULT_PROBE := 45_000_000_000

  /** Thresholds and cooldowns that apply to an attempt. */
  datatype Policy = Policy(threshold: int, cooldown: int)

  /** An attempt's own positive values win over the service's. */
  function Override(service: Policy, own: Policy): Policy {
    Policy(if own.threshold > 0 then own.threshold else service.threshold,
           if own.cooldown > 0 then own.cooldown else service.cooldown)
  }

  function Known(c: Option<State>): State {
    if c.Some? then c.value else NEW
  }

  function ProbeTtl(timeout: int): (ttl: int)
    ensures ttl > 0 && (timeout > 0 ==> ttl == timeout)
  {
    if timeout <= 0 then DEFAULT_PROBE else timeout
  }

  predicate Closed(c: Option<State>) {
    c.None? || c.value.openUntil == 0
  }

  /** The read section decides closed and cooling circuits by itself. */
  function Peek(c: Option<State>, now: int): Option<bool> {
    if Closed(c) then Some(true)
    else if now < c.value.openUntil then Some(false)
    else None
  }

  /** The write section re-checks everything and claims the probe of a half-open circuit. */
  function Claim(c: Option<State>, now: int, ttl: int): (Option<State>, bool) {
    if Closed(c) then (c, true)
    else if now < c.value.openUntil || now < c.value.probeUntil then (c, false)
    else (Some(c.value.(probeUntil := now + ttl)), true)
  }

  function Admitted(c: Option<State>, now: int, later: int, ttl: int): (Option<State>, bool) {
    var seen := Peek(c, now);
    if seen.Some? then (c, seen.value) else Claim(c, later, ttl)
  }

  /**
   Who is let in: everyone while the circuit is closed, nobody while its window lasts, and then only one who finds no
   unexpired claim, and leaves one of its own. Nothing else about the circuit changes.
   */
  lemma StartIff(c: Option<State>, now: int, later: int, ttl: int)
    requires now <= later
    ensures var (after, ok) := Admitted(c, now, later, ttl);
      && (ok <==> c.None? || c.value.openUntil == 0 || (c.value.openUntil <= now && c.value.probeUntil <= later))
      && (ok && c.Some? && c.value.openUntil != 0 ==> after == Some(c.value.(probeUntil := later + ttl)))
      && (!ok || c.None? || c.value.openUntil == 0 ==> after == c)
  {
  }

  function Wait(policy: Policy, retryAfter: int): int {
    Max(policy.cooldown, retryAfter)
  }

  /** A circuit whose window has passed starts counting again. */
  function Rearmed(st: State, now: int): State {
    if st.openUntil != 0 && now > st.openUntil then st.(failures := 0, openUntil := 0) else st
  }

  /** One more failure; `at` is the instant from which a window is measured. */
  function Failed(c: Option<State>, policy: Policy, opens: bool, retryAfter: int, now: int, at: int): State {
    var st := Rearmed(Known(c), now);
    var hit := st.(failures := st.failures + 1, probeUntil := 0);
    if opens || hit.failures >= policy.threshold then
      hit.(openUntil := Max(hit.openUntil, at + Wait(policy, retryAfter)))
    else hit
  }

  function Resolved(c: Option<State>): State {
    Known(c).(failures := 0, openUntil := 0, probeUntil := 0)
  }

  function Served(c: Option<State>): State {
    var st := Resolved(c);
    st.(successes := st.successes + 1)
  }

  /** A provider's claim is given up without an outcome: the window and the count stay. */
  function Released(c: Option<State>): Option<State> {
    if c.None? then None else Some(c.value.(probeUntil := 0))
  }

  function Succeeded(c: Option<State>, env: Env): State
    requires Window(env)
  {
    var st := Resolved(c);
    Reward(st.(successes := st.successes + 1), env)
  }

  function Penalised(c: Option<State>, status: int, env: Env): State
    requires Window(env)
  {
    Punish(Known(c).(probeUntil := 0), status, env)
  }

  // ---- Histories of one circuit ----

  /**
   The calls made on a model's circuit or a provider's. Only providers open at once (`opens`) on
   one failure, release a claim without an outcome, or count a success without scoring it (`Serve`).
   */
  datatype Call =
    | Start(now: int, later: int)
    | Fail(now: int, later: int, cooldown: int, retryAfter: int, opens: bool)
    | Release
    | Resolve
    | Serve
    | Succeed(env: Env)
    | Penalise(status: int, env: Env)

  ghost predicate Sane(x: Call) {
    match x
    case Start(now, later) => 0 < now <= later
    case Fail(now, later, cooldown, retryAfter, _) =>
      0 < now <= later && later + Max(cooldown, retryAfter) > 0
    case Release => true
    case Resolve => true
    case Serve => true
    case Succeed(env) => Window(env)
    case Penalise(_, env) => Window(env)
  }

  ghost predicate SaneAll(xs: seq<Call>) {
    forall i :: 0 <= i < |xs| ==> Sane(xs[i])
  }

  function Next(c: Option<State>, x: Call, threshold: int, ttl: int): Option<State>
    requires Sane(x)
  {
    match x
    case Start(now, later) => Admitted(c, now, later, ttl).0
    case Fail(now, later, cooldown, retryAfter, opens) =>
      Some(Failed(c, Policy(threshold, cooldown), opens, retryAfter, now, later))
    case Release => Released(c)
    case Resolve => Some(Resolved(c))
    case Serve => Some(Served(c))
    case Succeed(env) => Some(Succeeded(c, env))
    case Penalise(status, env) => Some(Penalised(c, status, env))
  }

  function Run(c: Option<State>, xs: seq<Call>, threshold: int, ttl: int): Option<State>
    requires SaneAll(xs)
  {
    if xs == [] then c else Next(Run(c, xs[..|xs| - 1], threshold, ttl), xs[|xs| - 1], threshold, ttl)
  }

  /** The circuit carries a window exactly when it has counted enough failures. */
  ghost predicate OpenIffEnough(c: Option<State>, threshold: int) {
    Known(c).openUntil != 0 <==> Known(c).failures >= threshold
  }

  ghost predicate NoneOpensAtOnce(xs: seq<Call>) {
    forall i :: 0 <= i < |xs| ==> xs[i].Fail? ==> !xs[i].opens
  }

  /**
   Enough failures always leave a window; a window always has a failure behind it; and without
   immediate openings it has a full threshold of them.
   */
  lemma {:induction false} RunOpensAtThreshold(xs: seq<Call>, threshold: int, ttl: int)
    requires SaneAll(xs) && threshold >= 1
    ensures var st := Known(Run(None, xs, threshold, ttl));
      (st.failures >= threshold ==> st.openUntil != 0) && (st.openUntil != 0 ==> st.failures >= 1)
    ensures NoneOpensAtOnce(xs) ==> OpenIffEnough(Run(None, xs, threshold, ttl), threshold)
  {
    if xs != [] {
      RunOpensAtThreshold(xs[..|xs| - 1], threshold, ttl);
    }
  }

  /**
   Every history of a model's circuit keeps "a window exactly at the threshold" if and only if the
   threshold is positive, which is what the service's configuration enforces.
   */
  lemma OpensExactlyAtThreshold(threshold: int, ttl: int)
    ensures (forall xs: seq<Call> | SaneAll(xs) && NoneOpensAtOnce(xs) ::
        OpenIffEnough(Run(None, xs, threshold, ttl), threshold))
      <==> threshold >= 1
  {
    if threshold >= 1 {
      forall xs: seq<Call> | SaneAll(xs) && NoneOpensAtOnce(xs)
        ensures OpenIffEnough(Run(None, xs, threshold, ttl), threshold)
      {
        RunOpensAtThreshold(xs, threshold, ttl);
      }
    } else {
      var xs: seq<Call> := [];
      assert SaneAll(xs) && NoneOpensAtOnce(xs) && !OpenIffEnough(Run(None, xs, threshold, ttl), threshold);
    }
  }

  /** No call in the history closes the circuit, and all start no later than the given instant. */
  ghost predicate Unanswered(xs: seq<Call>, until: int) {
    forall i :: 0 <= i < |xs| ==>
      && !xs[i].Resolve? && !xs[i].Serve? && !xs[i].Succeed?
      && (xs[i].Start? ==> xs[i].later <= until)
      && (xs[i].Fail? ==> xs[i].now <= until)
  }

  /** While a window lasts it is never shortened and never lifted. */
  lemma {:induction false} WindowStands(c: Option<State>, xs: seq<Call>, threshold: int, ttl: int, until: int)
    requires SaneAll(xs) && Unanswered(xs, until)
    requires c.Some? && c.value.openUntil != 0 && until <= c.value.openUntil
    ensures Run(c, xs, threshold, ttl).Some?
    ensures Run(c, xs, threshold, ttl).value.openUntil >= c.value.openUntil
    ensures Run(c, xs, threshold, ttl).value.openUntil != 0
  {
    if xs != [] {
      var before := xs[..|xs| - 1];
      assert Unanswered(before, until);
      WindowStands(c, before, threshold, ttl, until);
    }
  }

  /** How many failures the circuit has on its count when another one is about to be added. */
  function Counted(c: Option<State>, now: int): nat {
    if c.None? || (c.value.openUntil != 0 && c.value.openUntil < now) then 0 else c.value.failures
  }

  /**
   A failure that reaches the threshold keeps everyone out for the cooldown and for the upstream's
   Retry-After: whatever other failures and penalties follow, no start is admitted before both are over,
   unless some attempt got a good answer in between. Failures from before a window that has passed do not count.
   */
  lemma RetryAfterIsHonoured(c: Option<State>, policy: Policy, opens: bool, retryAfter: int,
                             now: int, at: int, xs: seq<Call>, ttl: int, when: int, later: int)
    requires Sane(Fail(now, at, policy.cooldown, retryAfter, opens)) && SaneAll(xs)
    requires opens || Counted(c, now) + 1 >= policy.threshold
    requires (when < at + policy.cooldown || when < at + retryAfter) && when <= later
    requires Unanswered(xs, when)
    ensures var hit := Failed(c, policy, opens, retryAfter, now, at);
      && hit.openUntil >= at + policy.cooldown && hit.openUntil >= at + retryAfter
      && (now <= Known(c).openUntil ==> hit.openUntil >= Known(c).openUntil)
      && var seen := Run(Some(hit), xs, policy.threshold, ttl);
         Admitted(seen, when, later, ttl) == (seen, false)
  {
    var hit := Failed(c, policy, opens, retryAfter, now, at);
    WindowStands(Some(hit), xs, policy.threshold, ttl, when);
  }

  // ---- Counting starts again ----

  /** The circuit has nothing against it at `now`: never opened and no failures, or its window has passed. */
  ghost predicate CleanSlate(c: Option<State>, now: int) {
    c.None? || (c.value.openUntil == 0 && c.value.failures == 0) || (c.value.openUntil != 0 && c.value.openUntil < now)
  }

  /**
   A failure adds one to what counts. After a window has passed it is the first again, and opens nothing if
   more than one is needed. The evidence about the model is left alone.
   */
  lemma FailureCounts(c: Option<State>, policy: Policy, opens: bool, retryAfter: int, now: int, at: int)
    ensures var hit := Failed(c, policy, opens, retryAfter, now, at);
      && hit.failures == Counted(c, now) + 1
      && (CleanSlate(c, now) ==> hit.failures == 1 && (!opens && policy.threshold > 1 ==> hit.openUntil == 0))
      && hit.score == Known(c).score && hit.scoredAt == Known(c).scoredAt && hit.scoredCount == Known(c).scoredCount
      && hit.successes == Known(c).successes
  {
  }

  /**
   When a failure opens the circuit, by the attempt's own threshold and cooldown where they are positive and the
   service's otherwise: exactly at the threshold or at once, for the cooldown and the upstream's wait, and never
   for less than is left of a window. Below the threshold a window that still runs is all there is.
   */
  lemma FailureOpens(c: Option<State>, service: Policy, own: Policy, opens: bool, retryAfter: int, now: int, at: int)
    ensures var hit := Failed(c, Override(service, own), opens, retryAfter, now, at);
      var threshold := if own.threshold > 0 then own.threshold else service.threshold;
      var cooldown := if own.cooldown > 0 then own.cooldown else service.cooldown;
      var left := if c.Some? && c.value.openUntil != 0 && now <= c.value.openUntil then c.value.openUntil else 0;
      if opens || Counted(c, now) + 1 >= threshold then
        && hit.openUntil >= at + cooldown && hit.openUntil >= at + retryAfter && hit.openUntil >= left
        && (hit.openUntil == at + cooldown || hit.openUntil == at + retryAfter || hit.openUntil == left)
      else hit.openUntil == left
  {
  }

  /** Failures, penalties, releases and starts only, the failures counted one by one and not before `from`. */
  ghost predicate Losing(xs: seq<Call>, from: int) {
    forall i :: 0 <= i < |xs| ==>
      && !xs[i].Resolve? && !xs[i].Serve? && !xs[i].Succeed?
      && (xs[i].Fail? ==> !xs[i].opens && from <= xs[i].now)
  }

  ghost function FailuresIn(xs: seq<Call>): nat {
    if xs == [] then 0 else FailuresIn(xs[..|xs| - 1]) + (if xs[|xs| - 1].Fail? then 1 else 0)
  }

  /**
   From a clean slate it takes a full threshold of failures to open the circuit: with fewer, however they are
   interleaved with starts and penalties, the count is their number and there is no window but the old one
   that has passed; the failure that completes the threshold opens it.
   */
  lemma {:induction false} TakesAFullThreshold(c: Option<State>, xs: seq<Call>, threshold: int, ttl: int, from: int)
    requires SaneAll(xs) && Losing(xs, from) && CleanSlate(c, from)
    requires FailuresIn(xs) <= threshold
    ensures FailuresIn(xs) == 0 ==>
      Known(Run(c, xs, threshold, ttl)).openUntil == Known(c).openUntil && CleanSlate(Run(c, xs, threshold, ttl), from)
    ensures FailuresIn(xs) > 0 ==>
      var st := Known(Run(c, xs, threshold, ttl));
      st.failures == FailuresIn(xs) && (st.openUntil == 0 <==> FailuresIn(xs) < threshold)
  {
    if xs != [] {
      var n := |xs| - 1;
      assert Losing(xs[..n], from);
      TakesAFullThreshold(c, xs[..n], threshold, ttl, from);
      assert Sane(xs[n]);
    }
  }

  // ---- What a history leaves ----

  ghost function SuccessesIn(xs: seq<Call>): nat {
    if xs == [] then 0
    else SuccessesIn(xs[..|xs| - 1]) + (if xs[|xs| - 1].Serve? || xs[|xs| - 1].Succeed? then 1 else 0)
  }

  lemma {:induction false} SuccessesAreCounted(c: Option<State>, xs: seq<Call>, threshold: int, ttl: int)
    requires SaneAll(xs)
    ensures Known(Run(c, xs, threshold, ttl)).successes == Known(c).successes + SuccessesIn(xs)
  {
    if xs != [] {
      SuccessesAreCounted(c, xs[..|xs| - 1], threshold, ttl);
    }
  }

  /** Call `i` failed and asked for exactly this window. */
  ghost predicate AsksFor(xs: seq<Call>, i: int, until: int) {
    0 <= i < |xs| && xs[i].Fail? && until == xs[i].later + Max(xs[i].cooldown, xs[i].retryAfter)
  }

  /**
   No longer than asked: in every history, a window ends when some failure asked it to, and nothing closed it
   since.
   */
  lemma {:induction false} WindowWasAskedFor(xs: seq<Call>, threshold: int, ttl: int)
    requires SaneAll(xs)
    ensures var until := Known(Run(None, xs, threshold, ttl)).openUntil;
      until != 0 ==> exists i :: AsksFor(xs, i, until) && StaysOpen(xs, i)
  {
    if xs != [] {
      var n := |xs| - 1;
      WindowWasAskedFor(xs[..n], threshold, ttl);
      var was := Known(Run(None, xs[..n], threshold, ttl)).openUntil;
      var until := Known(Run(None, xs, threshold, ttl)).openUntil;
      assert Sane(xs[n]);
      if until != 0 && until == was {
        var i :| AsksFor(xs[..n], i, until) && StaysOpen(xs[..n], i);
        assert AsksFor(xs, i, until) && StaysOpen(xs, i);
      } else if until != 0 {
        assert AsksFor(xs, n, until) && StaysOpen(xs, n);
      }
    }
  }

  /** No call after the i-th closes the circuit. */
  ghost predicate StaysOpen(xs: seq<Call>, i: int) {
    forall j :: i < j < |xs| ==> 0 <= j && !xs[j].Resolve? && !xs[j].Serve? && !xs[j].Succeed?
  }

  // ---- The router's table of circuits ----

  /** Only the named circuit may differ. */
  ghost predicate OnlyAt(was: map<string, State>, now: map<string, State>, k: string) {
    now.Keys <= was.Keys + {k} && was.Keys <= now.Keys &&
    forall j :: j in was && j != k ==> now[j] == was[j]
  }

  lemma OnlyAtTrans(a: map<string, State>, b: map<string, State>, c: map<string, State>, k: string)
    requires OnlyAt(a, b, k) && OnlyAt(b, c, k)
    ensures OnlyAt(a, c, k)
  {
  }

  function At(m: map<string, State>, k: string): Option<State> {
    if k in m then Some(m[k]) else None
  }

  /** The calls one request makes, each with the circuit it is made on. */
  type Log = seq<(string, Call)>

  /** The log grew by one question to circuit `k` and then reports only, at least one if the answer was yes. */
  ghost predicate Diligent(was: Log, now: Log, k: string, admitted: bool) {
    && |was| < |now| && was <= now && now[|was|].0 == k && now[|was|].1.Start?
    && (forall i | |was| < i < |now| :: now[i].0 == k && !now[i].1.Start?)
    && (admitted ==> |was| + 1 < |now|)
  }

  /** What a circuit is told, whatever the time: the calls without their instants. */
  datatype Kind =
    | Ask
    | Strike(cooldown: int, retryAfter: int, opens: bool)
    | GiveUp
    | Clear
    | Answer
    | Win
    | Loss(status: int)

  function KindOf(x: Call): Kind {
    match x
    case Start(_, _) => Ask
    case Fail(_, _, cooldown, retryAfter, opens) => Strike(cooldown, retryAfter, opens)
    case Release => GiveUp
    case Resolve => Clear
    case Serve => Answer
    case Succeed(_) => Win
    case Penalise(status, _) => Loss(status)
  }

  ghost predicate CallsAre(calls: Log, k: string, kinds: seq<Kind>) {
    |calls| == |kinds| && forall i | 0 <= i < |calls| :: calls[i].0 == k && KindOf(calls[i].1) == kinds[i]
  }

  /** The log grew by exactly these calls on circuit `k`. */
  ghost predicate Told(was: Log, now: Log, k: string, kinds: seq<Kind>) {
    was <= now && CallsAre(now[|was|..], k, kinds)
  }

  lemma ToldNothing(log: Log, k: string)
    ensures Told(log, log, k, [])
  {
  }

  lemma ToldOnce(log: Log, k: string, x: Call)
    ensures Told(log, log + [(k, x)], k, [KindOf(x)])
  {
    assert (log + [(k, x)])[|log|..] == [(k, x)];
  }

  lemma CallsThen(a: Log, b: Log, k: string, xs: seq<Kind>, ys: seq<Kind>)
    requires CallsAre(a, k, xs) && CallsAre(b, k, ys)
    ensures CallsAre(a + b, k, xs + ys)
  {
  }

  lemma ToldThen(a: Log, b: Log, c: Log, k: string, xs: seq<Kind>, ys: seq<Kind>)
    requires Told(a, b, k, xs) && Told(b, c, k, ys)
    ensures Told(a, c, k, xs + ys)
  {
    hide CallsAre;
    CallsThen(b[|a|..], c[|b|..], k, xs, ys);
    assert c[|a|..] == b[|a|..] + c[|b|..];
  }

  /** One question and then, if anything, reports. */
  lemma ToldDiligent(was: Log, now: Log, k: string, kinds: seq<Kind>)
    requires Told(was, now, k, kinds) && kinds != [] && kinds[0].Ask?
    requires forall i | 1 <= i < |kinds| :: !kinds[i].Ask?
    ensures Diligent(was, now, k, |kinds| > 1)
  {
    var calls := now[|was|..];
    forall i | |was| <= i < |now| ensures now[i] == calls[i - |was|] {
    }
    assert calls[0] == now[|was|];
  }

  class Circuits {
    var models: map<string, State>
    var providers: map<string, State>
    var scored: int
    ghost var modelLog: Log
    ghost var providerLog: Log
    const service: Policy
    const timeout: int

    constructor (service: Policy, timeout: int)
      ensures models == map[] && providers == map[] && scored == 0 && modelLog == [] && providerLog == []
      ensures this.timeout == timeout
      ensures this.service.threshold == Max(service.threshold, 1) && this.service.cooldown == service.cooldown
    {
      models, providers, scored := map[], map[], 0;
      modelLog, providerLog := [], [];
      this.service := Policy(Max(service.threshold, 1), service.cooldown);
      this.timeout := timeout;
    }

    /** The model's circuit moved as the one call added to the log says. */
    twostate predicate OnModel(k: string, x: Call, threshold: int)
      reads this
    {
      && modelLog == old(modelLog) + [(k, x)]
      && (Sane(x) ==> At(models, k) == Next(At(old(models), k), x, threshold, ProbeTtl(timeout)))
    }

    twostate predicate OnProvider(p: string, x: Call, threshold: int)
      reads this
    {
      && providerLog == old(providerLog) + [(p, x)]
      && (Sane(x) ==> At(providers, p) == Next(At(old(providers), p), x, threshold, ProbeTtl(timeout)))
    }

    method TryStartAttempt(k: string, now: int, later: int) returns (ok: bool)
      modifies this`models, this`modelLog
      ensures (At(models, k), ok) == Admitted(At(old(models), k), now, later, ProbeTtl(timeout))
      ensures OnlyAt(old(models), models, k)
      ensures OnModel(k, Start(now, later), 0)
    {
      modelLog := modelLog + [(k, Start(now, later))];
      if k !in models || models[k].openUntil == 0 {
        return true;
      }
      if now < models[k].openUntil {
        return false;
      }
      if later < models[k].openUntil {
        return false;
      }
      if later < models[k].probeUntil {
        return false;
      }
      models := models[k := models[k].(probeUntil := later + ProbeTtl(timeout))];
      return true;
    }

    method TryStartProvider(p: string, now: int, later: int) returns (ok: bool)
      modifies this`providers, this`providerLog
      ensures (At(providers, p), ok) == Admitted(At(old(providers), p), now, later, ProbeTtl(timeout))
      ensures OnlyAt(old(providers), providers, p)
      ensures OnProvider(p, Start(now, later), 0)
    {
      providerLog := providerLog + [(p, Start(now, later))];
      if p !in providers || providers[p].openUntil == 0 {
        return true;
      }
      if now < providers[p].openUntil {
        return false;
      }
      if later < providers[p].openUntil || later < providers[p].probeUntil {
        return false;
      }
      providers := providers[p := providers[p].(probeUntil := later + ProbeTtl(timeout))];
      return true;
    }

    method RecordFailure(k: string, own: Policy, retryAfter: int, now: int, later: int)
      modifies this`models, this`modelLog
      ensures models == old(models)[k :=
        Failed(At(old(models), k), Override(service, own), false, retryAfter, now, later)]
      ensures var policy := Override(service, own);
        OnModel(k, Fail(now, later, policy.cooldown, retryAfter, false), policy.threshold)
    {
      modelLog := modelLog + [(k, Fail(now, later, Override(service, own).cooldown, retryAfter, false))];
      var st := if k in models then models[k] else NEW;
      if st.openUntil != 0 && now > st.openUntil {
        st := st.(failures := 0, openUntil := 0);
      }
      st := st.(probeUntil := 0, failures := st.failures + 1);
      var threshold := service.threshold;
      var cooldown := service.cooldown;
      if own.threshold > 0 {
        threshold := own.threshold;
      }
      if own.cooldown > 0 {
        cooldown := own.cooldown;
      }
      if retryAfter > cooldown {
        cooldown := retryAfter;
      }
      if st.failures >= threshold {
        var until := later + cooldown;
        if until > st.openUntil {
          st := st.(openUntil := until);
        }
      }
      models := models[k := st];
    }

    method RecordProviderFailure(p: string, own: Policy, immediate: bool, retryAfter: int, now: int)
      modifies this`providers, this`providerLog
      ensures providers == old(providers)[p :=
        Failed(At(old(providers), p), Override(service, own), immediate, retryAfter, now, now)]
      ensures var policy := Override(service, own);
        OnProvider(p, Fail(now, now, policy.cooldown, retryAfter, immediate), policy.threshold)
    {
      providerLog := providerLog + [(p, Fail(now, now, Override(service, own).cooldown, retryAfter, immediate))];
      var st := if p in providers then providers[p] else NEW;
      if st.openUntil != 0 && now > st.openUntil {
        st := st.(failures := 0, openUntil := 0);
      }
      st := st.(probeUntil := 0, failures := st.failures + 1);
      var threshold := service.threshold;
      if own.threshold > 0 {
        threshold := own.threshold;
      }
      if immediate || st.failures >= threshold {
        var cooldown := service.cooldown;
        if own.cooldown > 0 {
          cooldown := own.cooldown;
        }
        if retryAfter > cooldown {
          cooldown := retryAfter;
        }
        var until := now + cooldown;
        if until > st.openUntil {
          st := st.(openUntil := until);
        }
      }
      providers := providers[p := st];
    }

    method ResolveProbe(k: string)
      modifies this`models, this`modelLog
      ensures models == old(models)[k := Resolved(At(old(models), k))]
      ensures OnModel(k, Resolve, 0)
    {
      modelLog := modelLog + [(k, Resolve)];
      var st := if k in models then models[k] else NEW;
      models := models[k := st.(failures := 0, openUntil := 0, probeUntil := 0)];
    }

    method ResolveProviderSuccess(p: string)
      modifies this`providers, this`providerLog
      ensures providers == old(providers)[p := Served(At(old(providers), p))]
      ensures OnProvider(p, Serve, 0)
    {
      providerLog := providerLog + [(p, Serve)];
      var st := if p in providers then providers[p] else NEW;
      providers := providers[p := st.(failures := 0, successes := st.successes + 1, openUntil := 0, probeUntil := 0)];
    }

    method ResolveProviderProbe(p: string)
      modifies this`providers, this`providerLog
      ensures At(providers, p) == Released(At(old(providers), p))
      ensures OnlyAt(old(providers), providers, p)
      ensures OnProvider(p, Release, 0)
    {
      providerLog := providerLog + [(p, Release)];
      if p in providers {
        providers := providers[p := providers[p].(probeUntil := 0)];
      }
    }

    method RecordSuccess(k: string, now: int, duration: int, attempts: int)
      modifies this`models, this`scored, this`modelLog
      ensures scored == old(scored) + 1
      ensures models == old(models)[k := Succeeded(At(old(models), k), NewEnv(now, scored, duration, attempts))]
      ensures OnModel(k, Succeed(NewEnv(now, scored, duration, attempts)), 0)
    {
      hide Reward, Punish;
      scored := scored + 1;
      var env := NewEnv(now, scored, duration, attempts);
      modelLog := modelLog + [(k, Succeed(env))];
      var st := if k in models then models[k] else NEW;
      st := st.(failures := 0, successes := st.successes + 1, openUntil := 0, probeUntil := 0);
      models := models[k := Reward(st, env)];
    }

    method PenalizeScore(k: string, status: int, now: int, duration: int, attempts: int)
      modifies this`models, this`scored, this`modelLog
      ensures scored == old(scored) + 1
      ensures models == old(models)[k := Penalised(At(old(models), k), status, NewEnv(now, scored, duration, attempts))]
      ensures OnModel(k, Penalise(status, NewEnv(now, scored, duration, attempts)), 0)
    {
      hide Reward, Punish;
      scored := scored + 1;
      var env := NewEnv(now, scored, duration, attempts);
      modelLog := modelLog + [(k, Penalise(status, env))];
      var st := if k in models then models[k] else NEW;
      models := models[k := Punish(st.(probeUntil := 0), status, env)];
    }
  }
}
