/**
 The fallback executor at work: one request, its candidates, the shared quota desk and the circuits.
 Upstream replies and the steps of other callers are inputs, so every outcome is covered.
 */
module Fallback {
  import opened Base
  import opened QuotaSpec
  import opened QuotaRouting
  import opened QuotaPlanner
  import opened QuotaDesk
  import opened ChainSpec
  import Scoring
  import Breaker

  /**
   The size of a request body, as the estimate sees it: a body may name its own output limit, which counts
   only when it is not negative; otherwise the configured `standard` output is assumed.
   */
  datatype Size = Size(input: Amount, limit: Option<Amount>, standard: Int64)

  function InputOf(z: Size): Amount {
    if z.input < 1 then 1 else z.input
  }

  function SizeEstimate(z: Size): Estimate {
    var output: Int64 := if z.limit.Some? then z.limit.value else z.standard;
    Estimate(1, Wrap64(InputOf(z) + output), InputOf(z), output, z.limit.Some?)
  }

  datatype Attempt = Attempt(
    route: Route, key: string, policy: Breaker.Policy, fingerprint: string, configured: bool,
    estimate: Estimate, size: Size, ticket: Option<nat>)

  /** The planned estimate if it is usable, otherwise one from the body at hand. */
  function EstimateFor(cfg: Settings, a: Attempt, z: Size): Estimate {
    if a.estimate.requests <= 0 || a.estimate.tokens <= 0
    then ProviderEstimate(cfg, a.route, SizeEstimate(z))
    else a.estimate
  }

  function Routes(attempts: seq<Attempt>): (rs: seq<Route>)
    ensures |rs| == |attempts| && forall i | 0 <= i < |rs| :: rs[i] == attempts[i].route
  {
    seq(|attempts|, i requires 0 <= i < |attempts| => attempts[i].route)
  }

  /** Candidates stay the same except that one without a ticket may be given one. */
  ghost predicate Retains(before: seq<Attempt>, after: seq<Attempt>) {
    && |after| == |before|
    && forall i | 0 <= i < |before| ::
      && after[i] == before[i].(ticket := after[i].ticket)
      && (before[i].ticket.Some? ==> after[i] == before[i])
  }

  lemma RetainsRefl(attempts: seq<Attempt>)
    ensures Retains(attempts, attempts)
  {
  }

  lemma RetainsRoutes(before: seq<Attempt>, after: seq<Attempt>)
    requires Retains(before, after)
    ensures Routes(after) == Routes(before)
  {
  }

  /** The tickets attached to candidates. */
  ghost function Claims(attempts: seq<Attempt>): set<nat> {
    set i | 0 <= i < |attempts| && attempts[i].ticket.Some? :: attempts[i].ticket.value
  }

  lemma OwnClaim(attempts: seq<Attempt>, i: nat)
    requires i < |attempts|
    ensures attempts[i].ticket.Some? ==> attempts[i].ticket.value in Claims(attempts)
  {
  }

  lemma ClaimsAdd(attempts: seq<Attempt>, k: nat, t: nat)
    requires k < |attempts| && attempts[k].ticket == None
    ensures Claims(attempts[k := attempts[k].(ticket := Some(t))]) == Claims(attempts) + {t}
  {
    var more := attempts[k := attempts[k].(ticket := Some(t))];
    assert more[k].ticket == Some(t);
    forall u | u in Claims(attempts) ensures u in Claims(more) {
      var i :| 0 <= i < |attempts| && attempts[i].ticket == Some(u);
      assert more[i].ticket == Some(u);
    }
  }

  // ---- usage ----

  lemma EstimateIdempotent(cfg: Settings, r: Route, e: Estimate)
    ensures ProviderEstimate(cfg, r, ProviderEstimate(cfg, r, e)) == ProviderEstimate(cfg, r, e)
  {
  }

  /** An attempt's own estimate always pays for a reservation it priced. */
  lemma PricedIsPayable(cfg: Settings, a: Attempt, z: Size, holds: map<Key, Hold<nat>>, tokens: Int64)
    requires Priced(holds, ProviderEstimate(cfg, a.route, EstimateFor(cfg, a, z)))
    ensures Payable(holds, EstimateFor(cfg, a, z), tokens)
  {
    EstimateIdempotent(cfg, a.route, SizeEstimate(z));
  }

  /**
   The estimate an attempt goes by: the planned one if it is usable, otherwise one request and the body's own
   input, together with the output it names, or else its provider's default, which is never negative.
   */
  lemma EstimateMeans(cfg: Settings, a: Attempt, z: Size)
    ensures a.estimate.requests > 0 && a.estimate.tokens > 0 ==> EstimateFor(cfg, a, z) == a.estimate
    ensures a.estimate.requests <= 0 || a.estimate.tokens <= 0 ==>
      var e := EstimateFor(cfg, a, z);
      && e.requests == 1 && e.inputTokens == Max(1, z.input) && e.outputExplicit == z.limit.Some?
      && e.outputTokens == (if z.limit.Some? then z.limit.value else
          Max(0, if a.route.provider == "cerebras" then cfg.Int("PROXY_CEREBRAS_DEFAULT_MAX_COMPLETION_TOKENS", 32768)
                 else if a.route.provider == "groq" then cfg.Int("PROXY_GROQ_DEFAULT_MAX_COMPLETION_TOKENS", 4096)
                 else z.standard))
      && e.tokens == Wrap64(e.inputTokens + e.outputTokens)
  {
  }

  /** The output an attempt reckons with: the body's own limit, or its provider's default. */
  function OutputOf(cfg: Settings, r: Route, z: Size): Amount {
    if z.limit.Some? then z.limit.value
    else
      var output := ProviderEstimate(cfg, r, SizeEstimate(z)).outputTokens;
      if output < 0 then 0 else output
  }

  /** The planned estimate is unusable and input and output together exceed 64 bits. */
  predicate Overflows(cfg: Settings, a: Attempt, z: Size) {
    (a.estimate.requests <= 0 || a.estimate.tokens <= 0) && InputOf(z) + OutputOf(cfg, a.route, z) > MAX64
  }

  lemma NegativeIffOverflows(cfg: Settings, a: Attempt, z: Size)
    ensures EstimateFor(cfg, a, z).tokens < 0 <==> Overflows(cfg, a, z)
  {
  }

  /** A settlement is payable unless it commits a token count that overflowed. */
  lemma PayableUnlessOverflow(cfg: Settings, a: Attempt, z: Size, holds: map<Key, Hold<nat>>, tokens: Int64)
    ensures Payable(holds, EstimateFor(cfg, a, z), tokens) <==>
      !((exists k :: k in holds && k.dimension == "tokens") && tokens <= 0 && Overflows(cfg, a, z))
  {
    var e := EstimateFor(cfg, a, z);
    NegativeIffOverflows(cfg, a, z);
    assert e.requests > 0;
    if !Payable(holds, e, tokens) {
      var k :| k in holds && ActualOn(e, k, tokens) < 0;
      assert k in holds && k.dimension == "tokens";
    } else if exists k :: k in holds && k.dimension == "tokens" {
      var k :| k in holds && k.dimension == "tokens";
      assert ActualOn(e, k, tokens) >= 0;
    }
  }

  const TOKENS_KEY := Key("groq", "model", "m", "tokens", "minute")

  /** A ledger that knows only the published token limit of one model, unconfirmed. */
  function Published(): Ledger<nat> {
    Observe(Empty(), TOKENS_KEY, Observation(8000, 8000, MINUTE, Config, Estimated, 1), 1, 0).0
  }

  lemma PublishedIs()
    ensures Published() == Ledger(
      map[0 := Bucket(TOKENS_KEY, Observation(8000, 8000, MINUTE, Config, Estimated, 1), 0, false)],
      map[TOKENS_KEY := 0], map[], 0)
  {
  }

  /** The largest output limit a body can name that floating point keeps exact. */
  const LARGEST_LIMIT: Amount := MAX64 - 1023

  lemma ProbeAdmitsAll(rs: seq<Reservation>)
    requires rs == [Reservation(TOKENS_KEY, MAX64)]
    ensures var (l, t) := ReserveAll(Published(), rs, 2);
      t == Some(1) && l.tickets == map[1 := map[TOKENS_KEY := Hold(MAX64, Some(0))]]
  {
    PublishedIs();
    hide Published;
    OneAmount(TOKENS_KEY, MAX64);
    hide Amounts, Acceptable;
    var p := Purge(Published(), 2);
    assert p.live == map[TOKENS_KEY := 0];
    assert ProbeAllowed(Published().heap[0]);
    assert HoldsFor(p, Amounts(rs)) == map[TOKENS_KEY := Hold(MAX64, Some(0))];
    assert map[][1 := HoldsFor(p, Amounts(rs))] == map[1 := HoldsFor(p, Amounts(rs))];
  }

  lemma OneAmount(k: Key, cost: Amount)
    requires ValidKey(k) && cost > 0
    ensures Acceptable([Reservation(k, cost)]) && Amounts([Reservation(k, cost)]) == map[k := cost]
  {
    var rs := [Reservation(k, cost)];
    assert Simple(rs);
    SimpleAcceptable(rs);
    assert rs[0].key in Amounts(rs) && Amounts(rs)[rs[0].key] == cost;
    forall j | j in Amounts(rs) ensures j == k {
      var i :| 0 <= i < |rs| && rs[i].cost != 0 && rs[i].key == j;
    }
  }

  /**
   A refused settlement. The body the chain planned with still fits 64 bits, and the bootstrap exception
   lets it reserve all its tokens; the body sent with this attempt is one token longer, and its settlement
   is turned down.
   */
  lemma OverflowIsRefused(cfg: Settings, a: Attempt)
    requires a.estimate.tokens <= 0
    ensures var planned, sent := Size(1023, Some(LARGEST_LIMIT), 0), Size(1024, Some(LARGEST_LIMIT), 0);
      var rs := [Reservation(TOKENS_KEY, EstimateFor(cfg, a, planned).tokens)];
      var (l, t) := ReserveAll(Published(), rs, 2);
      && t == Some(1) && 1 in l.tickets && Priced(l.tickets[1], EstimateFor(cfg, a, planned))
      && Overflows(cfg, a, sent) && !Payable(l.tickets[1], EstimateFor(cfg, a, sent), 0)
      && !Accepts(l, 1, Settlements([TOKENS_KEY], EstimateFor(cfg, a, sent), 0, map[]))
  {
    var planned, sent := Size(1023, Some(LARGEST_LIMIT), 0), Size(1024, Some(LARGEST_LIMIT), 0);
    var e, late := EstimateFor(cfg, a, planned), EstimateFor(cfg, a, sent);
    assert e.tokens == MAX64 && late.tokens < 0;
    ProbeAdmitsAll([Reservation(TOKENS_KEY, e.tokens)]);
    hide ReserveAll, Published;
    assert ActualOn(late, TOKENS_KEY, 0) < 0;
    assert !SettlementOk(Settlements([TOKENS_KEY], late, 0, map[])[0]);
  }

  // ---- replies ----

  datatype StreamEnd = Completed | UpstreamFault | ClientGone

  /** What came back. Verdicts of the retry library and of the adapters are part of the input. */
  datatype Reply =
    | NoReply(cancelled: bool, code: int, message: string, eligible: bool, retryable: bool)
    | Refusal(status: int, code: int, eligible: bool, retryable: bool, relayed: bool, incompatible: bool,
              retryAfter: int, poolEmpty: bool, facts: seq<Fact>)
    | Stream(facts: seq<Fact>, timedOut: bool, end: StreamEnd)
    | Truncated
    | Oversize
    | Body(facts: seq<Fact>, tokens: Int64)

  datatype Exchange = Exchange(buildable: bool, unbuilt: Failure, reply: Reply)

  const PLAIN := Failure(0, "", false, false, false, false, false, false, "", 0)

  function Skip(status: int, message: string): Failure {
    PLAIN.(status := status, message := message, retryable := true, skipModel := true)
  }

  function HttpMessage(status: int): string {
    if status == 400 || status == 422 then "request rejected"
    else if status == 401 || status == 403 then "provider authentication failed"
    else if status == 429 then "rate limited"
    else if status == 504 || status == 408 then "timeout"
    else "upstream unavailable"
  }

  /** The provider's capacity refused, not the model. */
  predicate QuotaLimited(x: Reply)
    requires x.Refusal?
  {
    x.status == 429 || x.status == 413
  }

  /** The provider's account refused: credentials or payment. A relayed refusal is someone else's. */
  predicate AccountFailure(x: Reply)
    requires x.Refusal?
  {
    (x.status == 401 || x.status == 403 || x.status == 402) && !x.relayed
  }

  predicate NonModel(x: Reply)
    requires x.Refusal?
  {
    QuotaLimited(x) || AccountFailure(x)
  }

  /** What a refusal tells the chain; `cooldown` is the wait that was set when quota was the reason. */
  function RefusalOf(provider: string, x: Reply, cooldown: int): Failure
    requires x.Refusal?
  {
    PLAIN.(
      status := x.code, message := HttpMessage(x.status), eligible := x.eligible, retryable := x.retryable,
      skipModel := QuotaLimited(x) || x.status == 400 || x.relayed || x.incompatible,
      skipProvider := x.incompatible,
      providerDown := AccountFailure(x) && provider != "openrouter",
      quotaLimited := QuotaLimited(x),
      pool := if QuotaLimited(x) && x.poolEmpty then FREE_POOL else "",
      retryAfter := if QuotaLimited(x) then cooldown else 0)
  }

  /** The refusal concerns one provider: its limits, its account or its schema. */
  predicate OneProviders(provider: string, x: Reply)
    requires x.Refusal?
  {
    || QuotaLimited(x) || x.status == 400 || x.relayed || x.incompatible
    || (AccountFailure(x) && provider != "openrouter")
  }

  /**
   The wait that goes with a refusal: what the upstream asked for, and two seconds if it is quota and it asked
   for none.
   */
  function WaitOf(x: Reply): int
    requires x.Refusal?
  {
    if QuotaLimited(x) && x.retryAfter <= 0 then 2_000_000_000 else x.retryAfter
  }

  /** What the model's circuit is told about a reply. `cooldown` is the attempt's own or the service's. */
  function ToldModel(x: Reply, exit: Exit, cooldown: int): seq<Breaker.Kind> {
    match x
    case NoReply(cancelled, code, _, eligible, _) =>
      if cancelled then [Breaker.Clear] else BlameFor(code, eligible, cooldown, 0)
    case Refusal(_, _, _, _, _, _, _, _, _) =>
      (if QuotaLimited(x) then [Breaker.Clear] else []) + ChargeToModel(x, cooldown)
    case Stream(_, _, end) =>
      [Breaker.Clear] + (if exit.Abandoned? then BlameFor(0, false, cooldown, 0) else EndToModel(end, cooldown))
    case Truncated => BlameFor(502, true, cooldown, 0)
    case Oversize => BlameFor(502, true, cooldown, 0)
    case Body(_, _) => [Breaker.Win]
  }

  function BlameFor(status: int, eligible: bool, cooldown: int, wait: int): seq<Breaker.Kind> {
    [Breaker.Loss(status)] + (if eligible then [Breaker.Strike(cooldown, wait, false)] else [])
  }

  function EndToModel(end: StreamEnd, cooldown: int): seq<Breaker.Kind> {
    match end
    case Completed => [Breaker.Win]
    case UpstreamFault => BlameFor(502, true, cooldown, 0)
    case ClientGone => []
  }

  function EndToProvider(end: StreamEnd): seq<Breaker.Kind> {
    match end
    case Completed => [Breaker.Answer]
    case UpstreamFault => [Breaker.GiveUp]
    case ClientGone => []
  }

  /** What the provider's circuit is told about a reply. */
  function ToldProvider(provider: string, x: Reply, exit: Exit, cooldown: int): seq<Breaker.Kind> {
    match x
    case Refusal(_, _, _, _, _, _, _, _, _) =>
      (if QuotaLimited(x) then [Breaker.GiveUp] else [])
      + ChargeToProvider(AccountFailure(x) && provider != "openrouter", WaitOf(x), cooldown)
    case Stream(_, _, end) => [Breaker.GiveUp] + (if exit.Abandoned? then [] else EndToProvider(end))
    case Body(_, _) => [Breaker.Answer]
    case _ => [Breaker.GiveUp]
  }

  function ChargeToModel(x: Reply, cooldown: int): seq<Breaker.Kind>
    requires x.Refusal?
  {
    (if NonModel(x) then [] else BlameFor(x.code, x.eligible, cooldown, WaitOf(x)))
    + (if NonModel(x) || !x.eligible then [Breaker.Clear] else [])
  }

  function ChargeToProvider(down: bool, wait: int, cooldown: int): seq<Breaker.Kind> {
    if down then [Breaker.Strike(cooldown, wait, true)] else [Breaker.GiveUp]
  }

  /** Nobody asks again, and everybody reports at least once. */
  lemma ReportsFollow(provider: string, x: Reply, exit: Exit, cooldown: int)
    ensures ToldModel(x, exit, cooldown) != [] && forall k | k in ToldModel(x, exit, cooldown) :: !k.Ask?
    ensures ToldProvider(provider, x, exit, cooldown) != []
    ensures forall k | k in ToldProvider(provider, x, exit, cooldown) :: !k.Ask?
  {
  }

  /** A refusal by the provider's limits or by its account, which says nothing about the model. */
  predicate NotTheModel(x: Reply) {
    x.Refusal? && (x.status == 429 || x.status == 413 ||
                   ((x.status == 401 || x.status == 402 || x.status == 403) && !x.relayed))
  }

  /** The model is to blame: it could not be reached, refused, broke off, or kept the client waiting. */
  predicate ModelsFault(x: Reply, exit: Exit) {
    match x
    case NoReply(cancelled, _, _, _, _) => !cancelled
    case Refusal(_, _, _, _, _, _, _, _, _) => !NotTheModel(x)
    case Stream(_, _, end) => exit.Abandoned? || end == UpstreamFault
    case Truncated => true
    case Oversize => true
    case Body(_, _) => false
  }

  /** A stream that was served to its end, or a whole body. */
  predicate Delivered(x: Reply, exit: Exit) {
    x.Body? || (x.Stream? && exit.Streamed? && x.end == Completed)
  }

  /**
   The model's circuit hears of a loss exactly if the model is to blame, and counts a failure exactly if moreover
   the fault is eligible; being slow to start never is one.
   */
  lemma ModelIsBlamedIff(x: Reply, exit: Exit, cooldown: int)
    requires Answers(x, exit)
    ensures var told := ToldModel(x, exit, cooldown);
      && ((exists k :: k in told && k.Loss?) <==> ModelsFault(x, exit))
      && ((exists k :: k in told && k.Strike?) <==>
            ModelsFault(x, exit) && !exit.Abandoned? && (x.NoReply? || x.Refusal? ==> x.eligible))
  {
    hide HttpMessage;
    if ModelsFault(x, exit) {
      FaultsShow(x, exit, cooldown);
    }
  }

  /**
   It hears of a success exactly if something was delivered whole. A failure carries the attempt's cooldown
   and the upstream's wait.
   */
  lemma ModelIsTold(x: Reply, exit: Exit, cooldown: int)
    requires Answers(x, exit)
    ensures var told := ToldModel(x, exit, cooldown);
      && (Breaker.Win in told <==> Delivered(x, exit))
      && (forall k | k in told && k.Strike? ::
            !k.opens && k.cooldown == cooldown && k.retryAfter == if x.Refusal? then x.retryAfter else 0)
      && (forall k | k in told && k.Loss? ::
            k.status == if x.NoReply? || x.Refusal? then x.code else if exit.Abandoned? then 0 else 502)
  {
  }

  /**
   The provider's circuit hears of a success exactly if something was delivered whole, and of a failure exactly if
   its account refused, not one it relays for; that failure opens it at once.
   */
  lemma ProviderIsBlamedIff(provider: string, x: Reply, exit: Exit, cooldown: int)
    requires Answers(x, exit)
    ensures var told := ToldProvider(provider, x, exit, cooldown);
      && (Breaker.Answer in told <==> Delivered(x, exit))
      && ((exists k :: k in told && k.Strike?) <==>
            && x.Refusal? && (x.status == 401 || x.status == 402 || x.status == 403) && !x.relayed
            && provider != "openrouter")
      && (forall k | k in told && k.Strike? :: k.opens && k.cooldown == cooldown && k.retryAfter == x.retryAfter)
  {
    if x.Refusal? {
      var told := ToldProvider(provider, x, exit, cooldown);
      assert told[|told| - 1] in told;
    }
  }

  /** Where in the list the loss stands, and the failure after it if it counts as one. */
  lemma FaultsShow(x: Reply, exit: Exit, cooldown: int)
    requires Answers(x, exit) && ModelsFault(x, exit)
    ensures var told, i := ToldModel(x, exit, cooldown), if x.Stream? then 1 else 0;
      && |told| > i && told[i] in told && told[i].Loss?
      && (!exit.Abandoned? && (x.NoReply? || x.Refusal? ==> x.eligible) ==>
            |told| > i + 1 && told[i + 1] in told && told[i + 1].Strike?)
  {
  }

  /** The usage committed for a request that left: what the body reports, else the estimate. */
  function SentTokens(x: Reply, e: Estimate): Int64 {
    if x.Body? then x.tokens else e.tokens
  }

  function FactsOf(x: Reply): seq<Fact> {
    if x.Refusal? || x.Stream? || x.Body? then x.facts else []
  }

  const CANCELLED := "request cancelled before the upstream responded"
  const LATE := "no stream event within the first-event budget"
  const TRUNCATED := "truncated upstream response"
  const OVERSIZE := "upstream response exceeds the limit"

  /** What the chain is told about a reply; nothing if it was served. */
  function ErrorOf(provider: string, x: Reply, exit: Exit): Option<Failure> {
    match x
    case NoReply(cancelled, code, message, eligible, retryable) =>
      if cancelled then Some(Skip(503, CANCELLED).(retryable := false))
      else Some(PLAIN.(status := code, message := message, eligible := eligible, retryable := retryable))
    case Refusal(_, _, _, _, _, _, _, _, _) => Some(RefusalOf(provider, x, WaitOf(x)))
    case Stream(_, _, _) => if exit.Abandoned? then Some(Skip(503, LATE)) else None
    case Truncated => Some(PLAIN.(status := 502, message := TRUNCATED, retryable := true))
    case Oversize => Some(PLAIN.(status := 502, message := OVERSIZE, retryable := true))
    case Body(_, _) => None
  }

  /** The exit that belongs to a reply. */
  predicate Answers(x: Reply, exit: Exit) {
    match x
    case NoReply(cancelled, _, _, _, _) => exit == if cancelled then Cancelled else Unreached
    case Refusal(_, _, _, _, _, _, _, _, _) => exit == Refused
    case Stream(_, _, _) => exit.Streamed? || exit.Abandoned?
    case Truncated => exit == CutShort
    case Oversize => exit == TooLarge
    case Body(_, _) => exit == Answered
  }

  /** The chain moves on and rules nothing out. */
  predicate SoftSkip(f: Failure) {
    f.skipModel && f.pool == "" && !f.providerDown && !f.skipProvider
  }

  lemma ErrorMeans(provider: string, x: Reply, exit: Exit)
    requires Answers(x, exit)
    ensures ErrorOf(provider, x, exit) == None <==> exit.Streamed? || exit.Answered?
    ensures exit.Abandoned? ==> ErrorOf(provider, x, exit).Some? && SoftSkip(ErrorOf(provider, x, exit).value)
  {
  }

  /** What the chain is told when an attempt is turned away before sending. */
  function TurnedAway(exit: Exit, x: Exchange): Failure {
    if exit.Unbuildable? then x.unbuilt
    else if exit.NoQuota? then Skip(429, "temporarily rate-limited for this model").(quotaLimited := true)
    else Skip(503, "not started")
  }

  /** Being turned away rules nothing out, and the chain goes on, unless the request itself cannot be built. */
  lemma TurnedAwayGoesOn(exit: Exit, x: Exchange, retry: Failure -> bool)
    requires exit in {NotConfigured, ProviderCooling, ProbeBusy, NoQuota}
    ensures GoesOn(TurnedAway(exit, x), retry) && SoftSkip(TurnedAway(exit, x))
    ensures TurnedAway(exit, x).quotaLimited <==> exit.NoQuota?
    ensures TurnedAway(exit, x).status == if exit.NoQuota? then 429 else 503
  {
    hide Gone;
  }

  predicate Sent(exit: Exit) {
    !exit.NotConfigured? && !exit.ProviderCooling? && !exit.ProbeBusy? && !exit.Unbuildable? && !exit.NoQuota?
  }

  /** Both circuits let this attempt in. */
  predicate Admitted(exit: Exit) {
    !exit.NotConfigured? && !exit.ProviderCooling? && !exit.ProbeBusy?
  }

  /** The evidence a circuit holds about its model's reliability. */
  ghost function Evidence(c: Option<Scoring.State>): (real, int, int, nat) {
    var st := Breaker.Known(c);
    (st.score, st.scoredAt, st.scoredCount, st.successes)
  }

  /** Asking a circuit never changes the evidence, and a refusal changes nothing. */
  lemma AdmittedEffects(c: Option<Scoring.State>, now: int, later: int, ttl: int)
    ensures Evidence(Breaker.Admitted(c, now, later, ttl).0) == Evidence(c)
    ensures !Breaker.Admitted(c, now, later, ttl).1 ==> Breaker.Admitted(c, now, later, ttl).0 == c
  {
  }

  ghost predicate DutifulToModel(was: Breaker.Log, now: Breaker.Log, key: string, exit: Exit) {
    if exit.NotConfigured? || exit.ProviderCooling? then now == was
    else Breaker.Diligent(was, now, key, !exit.ProbeBusy?)
  }

  ghost predicate DutifulToProvider(was: Breaker.Log, now: Breaker.Log, provider: string, exit: Exit) {
    if exit.NotConfigured? then now == was else Breaker.Diligent(was, now, provider, !exit.ProviderCooling?)
  }

  lemma SentIsDutiful(m: Breaker.Log, n: Breaker.Log, key: string, p: Breaker.Log, q: Breaker.Log, provider: string,
                      exit: Exit, x: Reply, cooldown: int)
    requires Sent(exit) && Breaker.Told(m, n, key, [Breaker.Ask] + ToldModel(x, exit, cooldown))
    requires Breaker.Told(p, q, provider, [Breaker.Ask] + ToldProvider(provider, x, exit, cooldown))
    ensures DutifulToModel(m, n, key, exit) && DutifulToProvider(p, q, provider, exit)
  {
    ReportsFollow(provider, x, exit, cooldown);
    hide ToldModel, ToldProvider;
    Breaker.ToldDiligent(m, n, key, [Breaker.Ask] + ToldModel(x, exit, cooldown));
    Breaker.ToldDiligent(p, q, provider, [Breaker.Ask] + ToldProvider(provider, x, exit, cooldown));
  }

  /** What the model's circuit is told by an attempt turned away like this; `None` while it is still on its way. */
  function AskedModel(turned: Option<Exit>): seq<Breaker.Kind> {
    match turned
    case None => [Breaker.Ask]
    case Some(NotConfigured) => []
    case Some(ProviderCooling) => []
    case Some(ProbeBusy) => [Breaker.Ask]
    case Some(_) => [Breaker.Ask, Breaker.Clear]
  }

  function AskedProvider(turned: Option<Exit>): seq<Breaker.Kind> {
    match turned
    case None => [Breaker.Ask]
    case Some(NotConfigured) => []
    case Some(ProviderCooling) => [Breaker.Ask]
    case Some(_) => [Breaker.Ask, Breaker.GiveUp]
  }

  lemma AskedIs()
    ensures AskedModel(None) == [Breaker.Ask] && AskedProvider(None) == [Breaker.Ask]
  {
  }

  lemma TurnedAwayIsDutiful(m: Breaker.Log, n: Breaker.Log, key: string, p: Breaker.Log, q: Breaker.Log,
                            provider: string, exit: Exit)
    requires !Sent(exit) && Breaker.Told(m, n, key, AskedModel(Some(exit)))
    requires Breaker.Told(p, q, provider, AskedProvider(Some(exit)))
    ensures DutifulToModel(m, n, key, exit) && DutifulToProvider(p, q, provider, exit)
  {
    if AskedModel(Some(exit)) != [] {
      Breaker.ToldDiligent(m, n, key, AskedModel(Some(exit)));
    }
    if AskedProvider(Some(exit)) != [] {
      Breaker.ToldDiligent(p, q, provider, AskedProvider(Some(exit)));
    }
  }

  lemma ReleasedIsClear(c: Option<Scoring.State>)
    ensures Breaker.Known(Breaker.Released(c)).probeUntil == 0
  {
  }

  // ---- the record ----

  /** The record so far is orderly, and the chain's variables are what it teaches. */
  ghost predicate Recorded(attempts: seq<Attempt>, outs: Outs, trace: seq<Ran>, retry: Failure -> bool) {
    && InRange(Routes(attempts), trace) && Orderly(Routes(attempts), trace, retry)
    && outs == Learned(Routes(attempts), trace)
    && Tied(attempts, trace)
  }

  /** Each executed attempt ran with its candidate's ticket, and a successor that was reserved has one. */
  ghost predicate Tied(attempts: seq<Attempt>, trace: seq<Ran>) {
    forall k | 0 <= k < |trace| ::
      && trace[k].index < |attempts| && trace[k].ticket == attempts[trace[k].index].ticket
      && (trace[k].exit.Abandoned? && trace[k].exit.next.Some? ==>
           trace[k].exit.next.value < |attempts| && attempts[trace[k].exit.next.value].ticket.Some?)
  }

  /** What running one candidate did to the record's view of the chain. */
  ghost predicate Ensues(before: seq<Attempt>, after: seq<Attempt>, o: Outs, mid: Outs, ran: Ran) {
    && Retains(before, after) && ran.index < |before| && ran.ticket == before[ran.index].ticket
    && mid == o.(attempts := o.attempts + ran.refused)
    && (forall k | 0 <= k < |after| && ran.exit != Abandoned(Some(k)) :: after[k] == before[k])
    && (ran.exit.Abandoned? ==> !ran.last && ran.err.Some? && SoftSkip(ran.err.value))
    && (ran.exit.Abandoned? && ran.exit.next.Some? ==>
          IsNext(mid, Routes(after), ran.index, ran.exit.next) && after[ran.exit.next.value].ticket.Some?)
  }

  /** What an executed attempt told the chain is what its exchange says. */
  ghost predicate Hears(provider: string, x: Exchange, ran: Ran) {
    if Sent(ran.exit) then Answers(x.reply, ran.exit) && ran.err == ErrorOf(provider, x.reply, ran.exit)
    else ran.err == Some(TurnedAway(ran.exit, x))
  }

  ghost predicate Heard(routes: seq<Route>, xs: seq<Exchange>, trace: seq<Ran>) {
    && |xs| == |routes|
    && forall k | 0 <= k < |trace| ::
      trace[k].index < |routes| && Hears(routes[trace[k].index].provider, xs[trace[k].index], trace[k])
  }

  lemma NoneHeard(routes: seq<Route>, xs: seq<Exchange>)
    requires |xs| == |routes|
    ensures Heard(routes, xs, [])
  {
  }

  lemma HeardMore(routes: seq<Route>, xs: seq<Exchange>, trace: seq<Ran>, ran: Ran)
    requires Heard(routes, xs, trace) && ran.index < |routes| && Hears(routes[ran.index].provider, xs[ran.index], ran)
    ensures Heard(routes, xs, trace + [ran])
  {
    hide Hears;
  }

  /**
   From replies to what the chain does next. After a schema mismatch, or an account refusal by a provider that
   does not relay, no later attempt goes to that provider; after a quota refusal that empties the free pool none
   goes to one of its free models.
   */
  lemma RefusalsRuleOut(routes: seq<Route>, xs: seq<Exchange>, trace: seq<Ran>, retry: Failure -> bool, i: nat, j: nat)
    requires Orderly(routes, trace, retry) && Heard(routes, xs, trace) && i < j < |trace| && trace[i].exit.Refused?
    ensures trace[i].index < |routes| && trace[j].index < |routes| && xs[trace[i].index].reply.Refusal?
    ensures var (x, r, next) := (xs[trace[i].index].reply, routes[trace[i].index], routes[trace[j].index]);
      && (x.incompatible ==> next.provider != r.provider)
      && ((x.status == 401 || x.status == 402 || x.status == 403) && !x.relayed && r.provider != "openrouter" ==>
            next.provider != r.provider)
      && ((x.status == 429 || x.status == 413) && x.poolEmpty ==> next.provider != r.provider || !IsFree(next.model))
  {
    hide Orderly, IsFree, HttpMessage;
    NeverAfterRuledOut(routes, trace, retry, i, j);
    assert Hears(routes[trace[i].index].provider, xs[trace[i].index], trace[i]);
  }

  /**
   The chain never ends with candidates left on a refusal that concerns one provider: its limits, its account
   unless it is the relay's own, its schema, one it relays, or a bad request.
   */
  lemma RefusalsNeverEndIt(routes: seq<Route>, xs: seq<Exchange>, trace: seq<Ran>, verdict: Verdict,
                           retry: Failure -> bool)
    requires Orderly(routes, trace, retry) && InRange(routes, trace) && Heard(routes, xs, trace)
    requires Right(routes, trace, verdict, retry) && trace != [] && trace[|trace| - 1].exit.Refused?
    ensures var r := routes[trace[|trace| - 1].index]; var x := xs[trace[|trace| - 1].index].reply;
      x.Refusal? &&
      (|| x.status == 400 || x.status == 429 || x.status == 413 || x.relayed || x.incompatible
       || ((x.status == 401 || x.status == 402 || x.status == 403) && r.provider != "openrouter")
       ==> verdict == Exhausted)
  {
    hide Orderly, HttpMessage, NoneIn, Learned, Gone;
    var n := |trace| - 1;
    assert Hears(routes[trace[n].index].provider, xs[trace[n].index], trace[n]);
  }

  lemma IndicesBelow(routes: seq<Route>, trace: seq<Ran>, retry: Failure -> bool, k: nat)
    requires Orderly(routes, trace, retry) && k < |trace|
    ensures trace[k].index < Reached(trace)
  {
    if k < |trace| - 1 {
      InOrderAndOnce(routes, trace, retry, k, |trace| - 1);
    }
  }

  lemma TiedMore(before: seq<Attempt>, after: seq<Attempt>, o: Outs, mid: Outs, trace: seq<Ran>, ran: Ran,
                 retry: Failure -> bool)
    requires Recorded(before, o, trace, retry) && Ensues(before, after, o, mid, ran) && Reached(trace) <= ran.index
    ensures Tied(after, trace + [ran])
  {
    hide Orderly, Out, NoneIn, Learned;
    forall k | 0 <= k < |trace| + 1
      ensures var r := (trace + [ran])[k];
        && r.index < |after| && r.ticket == after[r.index].ticket
        && (r.exit.Abandoned? && r.exit.next.Some? ==>
             r.exit.next.value < |after| && after[r.exit.next.value].ticket.Some?)
    {
      if k < |trace| {
        IndicesBelow(Routes(before), trace, retry, k);
      }
    }
  }

  lemma HandsOverMore(before: seq<Attempt>, after: seq<Attempt>, o: Outs, mid: Outs, trace: seq<Ran>, ran: Ran,
                      retry: Failure -> bool)
    requires Recorded(before, o, trace, retry) && Ensues(before, after, o, mid, ran)
    ensures HandsOver(Routes(after), trace, ran) && Routes(after) == Routes(before)
  {
    hide Orderly, Out, NoneIn, Learned;
    RetainsRoutes(before, after);
  }

  lemma RecordMore(before: seq<Attempt>, after: seq<Attempt>, o: Outs, mid: Outs, trace: seq<Ran>, ran: Ran,
                   retry: Failure -> bool, next: Option<nat>)
    requires Recorded(before, o, trace, retry) && Ensues(before, after, o, mid, ran)
    requires Reached(trace) <= ran.index && NoneIn(o, Routes(before), Reached(trace), ran.index)
    requires !Out(o, Routes(before), ran.index)
    requires IsNext(o, Routes(before), ran.index, next) && ran.last == next.None?
    requires trace != [] ==> trace[|trace| - 1].err.Some? && GoesOn(trace[|trace| - 1].err.value, retry)
    ensures Recorded(after, Learn(o, before[ran.index].route.provider, ran), trace + [ran], retry)
  {
    TiedMore(before, after, o, mid, trace, ran, retry);
    HandsOverMore(before, after, o, mid, trace, ran, retry);
    assert ran.last <==> NoneIn(o, Routes(before), ran.index + 1, |before|) by {
      NextOrNone(o, Routes(before), ran.index, next);
    }
    hide Orderly, Out, NoneIn, Learned, HandsOver, Tied;
    OrderlyExtend(Routes(before), trace, ran, retry);
  }

  /** After an abandoned stream the very next attempt is the reserved candidate, with the reserved ticket. */
  lemma SuccessorRunsWithItsTicket(attempts: seq<Attempt>, outs: Outs, trace: seq<Ran>, retry: Failure -> bool,
                                   verdict: Verdict, k: nat, j: nat)
    requires Recorded(attempts, outs, trace, retry) && Right(Routes(attempts), trace, verdict, retry)
    requires k < |trace| && trace[k].exit == Abandoned(Some(j))
    ensures k + 1 < |trace| && trace[k + 1].index == j && j < |attempts|
    ensures trace[k + 1].ticket == attempts[j].ticket && attempts[j].ticket.Some?
  {
    if k + 1 == |trace| {
      HandoverIsTaken(Routes(attempts), trace, retry, verdict);
    } else {
      HandoverIsNext(Routes(attempts), trace, retry, k);
    }
  }

  lemma LastIs(trace: seq<Ran>, ran: Ran)
    requires trace != [] && trace[|trace| - 1] == ran
    ensures Reached(trace) == ran.index + 1
  {
  }

  lemma EndIsRight(attempts: seq<Attempt>, outs: Outs, trace: seq<Ran>, retry: Failure -> bool, verdict: Verdict)
    requires Recorded(attempts, outs, trace, retry) && Reached(trace) <= |attempts| && verdict != NoExecutor
    requires verdict == Served ==> trace != [] && trace[|trace| - 1].err == None
    requires verdict != Served && trace != [] ==> trace[|trace| - 1].err.Some?
    requires verdict == Terminal ==> trace != [] && !GoesOn(trace[|trace| - 1].err.value, retry)
    requires verdict != Served ==>
      (verdict == Exhausted <==> NoneIn(outs, Routes(attempts), Reached(trace), |attempts|))
    ensures Right(Routes(attempts), trace, verdict, retry)
  {
    hide Orderly, NoneIn, GoesOn, Learned, Tied;
  }

  lemma NothingRan(attempts: seq<Attempt>, retry: Failure -> bool)
    ensures Recorded(attempts, Outs({}, {}, {}), [], retry) && Right(Routes(attempts), [], NoExecutor, retry)
    ensures Reached([]) == 0
  {
    OrderlyNone(Routes(attempts), retry);
  }

  class Chain {
    const desk: Desk
    const circuits: Breaker.Circuits
    const reserves: bool   // a callback can reserve quota for a later candidate
    const budgeted: bool   // waiting for the first stream event is limited
    const base: Size
    const duration: int
    const evidence: int
    var attempts: seq<Attempt>
    var outs: Outs

    constructor (desk: Desk, circuits: Breaker.Circuits, reserves: bool, budgeted: bool, base: Size,
                 duration: int, evidence: int, attempts: seq<Attempt>)
      ensures this.desk == desk && this.circuits == circuits && this.reserves == reserves && this.budgeted == budgeted
      ensures this.attempts == attempts && outs == Outs({}, {}, {})
    {
      this.desk, this.circuits, this.reserves, this.budgeted := desk, circuits, reserves, budgeted;
      this.base, this.duration, this.evidence := base, duration, evidence;
      this.attempts, outs := attempts, Outs({}, {}, {});
    }

    /** Tickets attached to candidates were issued to this request, and no other ticket of it is outstanding. */
    ghost predicate Valid()
      reads this, desk, desk.planner
    {
      && desk.Valid()
      && (forall i | 0 <= i < |attempts| :: attempts[i].ticket.Some? ==> attempts[i].ticket.value in desk.mine)
      && desk.Open() <= Claims(attempts)
    }

    method NextExecutable(i: nat) returns (j: Option<nat>)
      requires i < |attempts|
      ensures IsNext(outs, Routes(attempts), i, j)
    {
      for k := i + 1 to |attempts|
        invariant NoneIn(outs, Routes(attempts), i + 1, k)
      {
        var a := attempts[k];
        if k in outs.attempts {
          continue;
        }
        if a.route.provider in outs.providers {
          continue;
        }
        if IsFree(a.route.model) && PoolKey(a.route.provider, FREE_POOL) in outs.pools {
          continue;
        }
        return Some(k);
      }
      j := None;
    }

    /** Reserves quota for one candidate, if its provider is configured. */
    method ReserveFor(k: nat) returns (t: Option<nat>)
      requires Valid() && k < |attempts|
      modifies desk`clock, desk`script, desk`mine, desk.planner`store
      ensures desk.Valid() && old(desk.mine) <= desk.mine && old(desk.clock) <= desk.clock
      ensures t.None? ==> desk.Open() == old(desk.Open()) && desk.mine == old(desk.mine)
      ensures t.Some? ==> t.value in desk.mine && desk.Open() == old(desk.Open()) + {t.value}
      ensures SameHolds(old(desk.planner.store.ledger), desk.planner.store.ledger, old(desk.mine))
    {
      hide Sound, Issued, Claims, Lists, EstimateFor, ProviderEstimate, Priced, ReserveAll;
      t := None;
      if attempts[k].configured {
        var a := attempts[k];
        var now := desk.Now();
        ghost var plan, rs, at;
        t, plan, rs, at := desk.Reserve(a.route, a.fingerprint, EstimateFor(desk.planner.cfg, a, base), now);
      }
    }

    /**
     Finds the first later candidate whose quota can be had, taking tickets as needed. Candidates whose
     reservation is refused are ruled out on the way.
     */
    method ReserveNext(i: nat) returns (j: Option<nat>)
      requires Valid() && i < |attempts|
      modifies this`attempts, this`outs, desk`clock, desk`script, desk`mine, desk.planner`store
      ensures Valid() && Retains(old(attempts), attempts) && old(desk.mine) <= desk.mine
      ensures old(outs.attempts) <= outs.attempts && outs == old(outs).(attempts := outs.attempts)
      ensures forall k | k in outs.attempts && k !in old(outs.attempts) :: i < k
      ensures IsNext(outs, Routes(attempts), i, j)
      ensures forall k | 0 <= k < |attempts| && j != Some(k) :: attempts[k] == old(attempts)[k]
      ensures j.Some? && reserves ==> attempts[j.value].ticket.Some?
      ensures SameHolds(old(desk.planner.store.ledger), desk.planner.store.ledger, old(desk.mine))
    {
      hide desk.Valid, Claims, SameHolds, IsFree, Retains;
      assert SameHolds(old(desk.planner.store.ledger), desk.planner.store.ledger, old(desk.mine)) by {
        SameHoldsRefl(desk.planner.store.ledger, desk.mine);
      }
      for k := i + 1 to |attempts|
        invariant Valid() && attempts == old(attempts) && old(desk.mine) <= desk.mine
        invariant old(outs.attempts) <= outs.attempts && outs == old(outs).(attempts := outs.attempts)
        invariant forall m | m in outs.attempts && m !in old(outs.attempts) :: i < m < k
        invariant NoneIn(outs, Routes(attempts), i + 1, k)
        invariant SameHolds(old(desk.planner.store.ledger), desk.planner.store.ledger, old(desk.mine))
      {
        var a := attempts[k];
        if k in outs.attempts {
          continue;
        }
        if a.route.provider in outs.providers {
          continue;
        }
        if IsFree(a.route.model) && PoolKey(a.route.provider, FREE_POOL) in outs.pools {
          continue;
        }
        ghost var ledger, mine := desk.planner.store.ledger, desk.mine;
        var ok := Offer(k);
        SameHoldsTrans(old(desk.planner.store.ledger), ledger, desk.planner.store.ledger, old(desk.mine), mine);
        if ok {
          RetainsRoutes(old(attempts), attempts);
          return Some(k);
        }
        RuleOutNext(outs, Routes(attempts), i + 1, k);
        outs := outs.(attempts := outs.attempts + {k});
      }
      assert Retains(old(attempts), attempts) by { RetainsRefl(attempts); }
      j := None;
    }

    /** Makes sure candidate `k` has a ticket, where tickets are used. */
    method Offer(k: nat) returns (ok: bool)
      requires Valid() && k < |attempts|
      modifies this`attempts, desk`clock, desk`script, desk`mine, desk.planner`store
      ensures Valid() && old(desk.mine) <= desk.mine
      ensures ok ==> Retains(old(attempts), attempts) && (reserves ==> attempts[k].ticket.Some?)
      ensures ok ==> forall m | 0 <= m < |attempts| && m != k :: attempts[m] == old(attempts)[m]
      ensures !ok ==> attempts == old(attempts)
      ensures SameHolds(old(desk.planner.store.ledger), desk.planner.store.ledger, old(desk.mine))
    {
      hide desk.Valid;
      ok := true;
      if reserves && attempts[k].ticket.None? {
        var t := ReserveFor(k);
        if t.None? {
          return false;
        }
        ClaimsAdd(attempts, k, t.value);
        attempts := attempts[k := attempts[k].(ticket := t)];
      }
    }

    ghost predicate ProbesClear(a: Attempt)
      reads circuits
    {
      && Breaker.Known(Breaker.At(circuits.models, a.key)).probeUntil == 0
      && Breaker.Known(Breaker.At(circuits.providers, a.route.provider)).probeUntil == 0
    }

    ghost function Model(a: Attempt): Option<Scoring.State>
      reads circuits
    {
      Breaker.At(circuits.models, a.key)
    }

    ghost function Provider(a: Attempt): Option<Scoring.State>
      reads circuits
    {
      Breaker.At(circuits.providers, a.route.provider)
    }

    /** The model's circuit has since been told exactly this by the request, and nobody else's by it. */
    twostate predicate ToModel(a: Attempt, kinds: seq<Breaker.Kind>)
      reads circuits
    {
      Breaker.Told(old(circuits.modelLog), circuits.modelLog, a.key, kinds)
    }

    twostate predicate ToProvider(a: Attempt, kinds: seq<Breaker.Kind>)
      reads circuits
    {
      Breaker.Told(old(circuits.providerLog), circuits.providerLog, a.route.provider, kinds)
    }

    /** The cooldown that applies to an attempt: its own if it is positive, else the service's. */
    function Cool(a: Attempt): int {
      if a.policy.cooldown > 0 then a.policy.cooldown else circuits.service.cooldown
    }

    /** Gives up both claims without a verdict on the model. */
    method Withdraw(a: Attempt)
      modifies circuits`models, circuits`modelLog, circuits`providers, circuits`providerLog
      ensures ProbesClear(a) && Evidence(Model(a)) == old(Evidence(Model(a)))
      ensures Breaker.Closed(Model(a)) && Provider(a) == Breaker.Released(old(Provider(a)))
      ensures Breaker.OnlyAt(old(circuits.models), circuits.models, a.key)
      ensures Breaker.OnlyAt(old(circuits.providers), circuits.providers, a.route.provider)
      ensures ToModel(a, [Breaker.Clear]) && ToProvider(a, [Breaker.GiveUp])
    {
      Breaker.ToldOnce(circuits.modelLog, a.key, Breaker.Resolve);
      Breaker.ToldOnce(circuits.providerLog, a.route.provider, Breaker.Release);
      circuits.ResolveProbe(a.key);
      circuits.ResolveProviderProbe(a.route.provider);
    }

    /** The model is to blame: it loses score and, when eligible, its circuit counts a failure. */
    method Blame(a: Attempt, status: int, eligible: bool, retryAfter: int, now: int, later: int)
      modifies circuits`models, circuits`modelLog, circuits`scored
      ensures Breaker.Known(Model(a)).probeUntil == 0 && circuits.scored == old(circuits.scored) + 1
      ensures Evidence(Model(a)) ==
        var env := Scoring.NewEnv(now, circuits.scored, duration, evidence);
        Evidence(Some(Breaker.Penalised(old(Model(a)), status, env)))
      ensures eligible ==> Breaker.Known(Model(a)).failures >= 1
      ensures !eligible ==> Breaker.Known(Model(a)).failures == old(Breaker.Known(Model(a)).failures)
      ensures !eligible ==> Breaker.Known(Model(a)).openUntil == old(Breaker.Known(Model(a)).openUntil)
      ensures Breaker.OnlyAt(old(circuits.models), circuits.models, a.key)
      ensures ToModel(a, BlameFor(status, eligible, Cool(a), retryAfter))
    {
      circuits.PenalizeScore(a.key, status, now, duration, evidence);
      ghost var log, k := circuits.modelLog, a.key;
      Breaker.ToldOnce(old(circuits.modelLog), k, log[|log| - 1].1);
      if eligible {
        Breaker.ToldOnce(log, k, Breaker.Fail(now, later, Cool(a), retryAfter, false));
        circuits.RecordFailure(a.key, a.policy, retryAfter, now, later);
        Breaker.ToldThen(old(circuits.modelLog), log, circuits.modelLog, k, [Breaker.Loss(status)],
                         [Breaker.Strike(Cool(a), retryAfter, false)]);
      }
    }

    method OnNoReply(a: Attempt, x: Reply, now: int, later: int) returns (err: Failure)
      requires x.NoReply?
      modifies circuits`models, circuits`modelLog, circuits`providers, circuits`providerLog, circuits`scored
      ensures ProbesClear(a)
      ensures x.cancelled ==>
        && err == Skip(503, CANCELLED).(retryable := false)
        && circuits.scored == old(circuits.scored) && Evidence(Model(a)) == old(Evidence(Model(a)))
      ensures !x.cancelled ==>
        && err == PLAIN.(status := x.code, message := x.message, eligible := x.eligible, retryable := x.retryable)
        && circuits.scored == old(circuits.scored) + 1 && (x.eligible ==> Breaker.Known(Model(a)).failures >= 1)
      ensures Provider(a) == Breaker.Released(old(Provider(a)))
      ensures Breaker.OnlyAt(old(circuits.models), circuits.models, a.key)
      ensures Breaker.OnlyAt(old(circuits.providers), circuits.providers, a.route.provider)
      ensures ToModel(a, if x.cancelled then [Breaker.Clear] else BlameFor(x.code, x.eligible, Cool(a), 0))
      ensures ToProvider(a, [Breaker.GiveUp])
    {
      hide Breaker.Told;
      Breaker.ToldOnce(circuits.providerLog, a.route.provider, Breaker.Release);
      if x.cancelled {
        Withdraw(a);
        return Skip(503, CANCELLED).(retryable := false);
      }
      Blame(a, x.code, x.eligible, 0, now, later);
      circuits.ResolveProviderProbe(a.route.provider);
      err := PLAIN.(status := x.code, message := x.message, eligible := x.eligible, retryable := x.retryable);
    }

    /**
     Since then: after a quota refusal, and only then, the model cools down for the wait that goes with it. No
     attempt on its route is let through before that, and no other route's cooldown has changed.
     */
    twostate predicate CoolsFor(a: Attempt, x: Reply, now: int)
      reads desk.planner
    {
      var cfg, before, after := desk.planner.cfg, old(desk.planner.cooldowns), desk.planner.cooldowns;
      if x.Refusal? && QuotaLimited(x) then
        && (forall when | when < now + WaitOf(x) :: !Cooled(after, cfg, a.route, when))
        && (forall when | now + WaitOf(x) <= when ::
              Cooled(after, cfg, a.route, when) <==> Cooled(before, cfg, a.route, when))
        && (forall r: Route, when | CooldownKey(cfg, r) != CooldownKey(cfg, a.route) ::
              Cooled(after, cfg, r, when) <==> Cooled(before, cfg, r, when))
      else after == before
    }

    /** A quota refusal makes the model cool down, for the upstream's own wait if it gave one. */
    method CoolDown(a: Attempt, x: Reply, now: int) returns (wait: int)
      requires Valid() && x.Refusal?
      modifies desk.planner`cooldowns
      ensures Valid()
      ensures wait == WaitOf(x) && CoolsFor(a, x, now)
    {
      hide Sound, Issued;
      wait := x.retryAfter;
      if QuotaLimited(x) {
        wait := desk.planner.SetCooldown(a.route, wait, now);
      }
    }

    /** Quota and account refusals leave the model's record alone; any other one is charged to the model. */
    method OnRefusal(a: Attempt, x: Reply, wait: int, now: int, later: int) returns (err: Failure)
      requires x.Refusal? && wait == WaitOf(x)
      modifies circuits`models, circuits`modelLog, circuits`providers, circuits`providerLog, circuits`scored
      ensures ProbesClear(a)
      ensures err == RefusalOf(a.route.provider, x, wait)
      ensures OneProviders(a.route.provider, x) ==> forall retry: Failure -> bool :: GoesOn(err, retry)
      ensures NonModel(x) ==>
        && circuits.scored == old(circuits.scored) && Evidence(Model(a)) == old(Evidence(Model(a)))
        && Breaker.Closed(Model(a))
      ensures !NonModel(x) ==> circuits.scored == old(circuits.scored) + 1
      ensures !NonModel(x) && x.eligible ==> Breaker.Known(Model(a)).failures >= 1
      ensures !NonModel(x) && !x.eligible ==> Breaker.Closed(Model(a)) && Breaker.Known(Model(a)).failures == 0
      ensures err.providerDown ==> Breaker.Known(Provider(a)).failures >= 1
      ensures err.providerDown && now > 0 && circuits.service.cooldown >= 0 ==> !Breaker.Closed(Provider(a))
      ensures !err.providerDown ==> Provider(a) == Breaker.Released(old(Provider(a)))
      ensures Breaker.OnlyAt(old(circuits.models), circuits.models, a.key)
      ensures Breaker.OnlyAt(old(circuits.providers), circuits.providers, a.route.provider)
      ensures ToModel(a, ToldModel(x, Refused, Cool(a)))
      ensures ToProvider(a, ToldProvider(a.route.provider, x, Refused, Cool(a)))
    {
      hide OneProviders, GoesOn, Evidence, Breaker.Known, Breaker.Closed, Breaker.Told, HttpMessage, BlameFor;
      err := Describe(a.route.provider, x, wait);
      ghost var ms, ps: seq<Breaker.Kind> := [], [];
      Breaker.ToldNothing(circuits.modelLog, a.key);
      Breaker.ToldNothing(circuits.providerLog, a.route.provider);
      if QuotaLimited(x) {
        Withdraw(a);
        ms, ps := [Breaker.Clear], [Breaker.GiveUp];
      }
      ghost var models, providers := circuits.modelLog, circuits.providerLog;
      Charge(a, x, wait, err.providerDown, now, later);
      Breaker.ToldThen(old(circuits.modelLog), models, circuits.modelLog, a.key, ms, ChargeToModel(x, Cool(a)));
      Breaker.ToldThen(old(circuits.providerLog), providers, circuits.providerLog, a.route.provider, ps,
                       ChargeToProvider(err.providerDown, wait, Cool(a)));
      assert ms + ChargeToModel(x, Cool(a)) == ToldModel(x, Refused, Cool(a));
    }

    /** What the chain is told about a refusal. One that concerns one provider never ends the chain. */
    method Describe(provider: string, x: Reply, wait: int) returns (err: Failure)
      requires x.Refusal?
      ensures err == RefusalOf(provider, x, wait)
      ensures OneProviders(provider, x) ==> forall retry: Failure -> bool :: GoesOn(err, retry)
    {
      hide HttpMessage, Gone;
      err := PLAIN.(
        status := x.code, message := HttpMessage(x.status), eligible := x.eligible, retryable := x.retryable);
      if AccountFailure(x) && provider != "openrouter" {
        err := err.(providerDown := true);
      }
      if QuotaLimited(x) {
        err := err.(quotaLimited := true, skipModel := true, retryAfter := wait);
        if x.poolEmpty {
          err := err.(pool := FREE_POOL);
        }
      }
      if x.status == 400 || x.relayed {
        err := err.(skipModel := true);
      }
      if x.incompatible {
        err := err.(skipProvider := true, skipModel := true);
      }
    }

    /** Who pays for a refusal: the model, the provider, or nobody. */
    method Charge(a: Attempt, x: Reply, wait: int, providerDown: bool, now: int, later: int)
      requires x.Refusal? && wait == WaitOf(x)
      modifies circuits`models, circuits`modelLog, circuits`providers, circuits`providerLog, circuits`scored
      ensures ProbesClear(a)
      ensures NonModel(x) ==>
        && circuits.scored == old(circuits.scored) && Evidence(Model(a)) == old(Evidence(Model(a)))
        && Breaker.Closed(Model(a))
      ensures !NonModel(x) ==> circuits.scored == old(circuits.scored) + 1
      ensures !NonModel(x) && x.eligible ==> Breaker.Known(Model(a)).failures >= 1
      ensures !NonModel(x) && !x.eligible ==> Breaker.Closed(Model(a)) && Breaker.Known(Model(a)).failures == 0
      ensures providerDown ==> Breaker.Known(Provider(a)).failures >= 1
      ensures providerDown && now > 0 && circuits.service.cooldown >= 0 ==> !Breaker.Closed(Provider(a))
      ensures !providerDown ==> Provider(a) == Breaker.Released(old(Provider(a)))
      ensures Breaker.OnlyAt(old(circuits.models), circuits.models, a.key)
      ensures Breaker.OnlyAt(old(circuits.providers), circuits.providers, a.route.provider)
      ensures ToModel(a, ChargeToModel(x, Cool(a)))
      ensures ToProvider(a, ChargeToProvider(providerDown, wait, Cool(a)))
    {
      hide Breaker.Next, Breaker.Sane, Breaker.Penalised, Breaker.Failed, Breaker.Told;
      ghost var ms: seq<Breaker.Kind> := [];
      Breaker.ToldNothing(circuits.modelLog, a.key);
      if !NonModel(x) {
        Blame(a, x.code, x.eligible, wait, now, later);
        ms := BlameFor(x.code, x.eligible, Cool(a), wait);
      }
      ChargeProvider(a, wait, providerDown, now);
      if NonModel(x) || !x.eligible {
        ghost var log := circuits.modelLog;
        Breaker.ToldOnce(log, a.key, Breaker.Resolve);
        circuits.ResolveProbe(a.key);
        Breaker.ToldThen(old(circuits.modelLog), log, circuits.modelLog, a.key, ms, [Breaker.Clear]);
        assert ms + [Breaker.Clear] == ChargeToModel(x, Cool(a));
      } else {
        assert ms == ChargeToModel(x, Cool(a));
      }
    }

    /** The provider fails at once, or only gets its claim back. */
    method ChargeProvider(a: Attempt, wait: int, down: bool, now: int)
      modifies circuits`providers, circuits`providerLog
      ensures Breaker.Known(Provider(a)).probeUntil == 0
      ensures down ==> Breaker.Known(Provider(a)).failures >= 1
      ensures down && now > 0 && circuits.service.cooldown >= 0 ==> !Breaker.Closed(Provider(a))
      ensures !down ==> Provider(a) == Breaker.Released(old(Provider(a)))
      ensures Breaker.OnlyAt(old(circuits.providers), circuits.providers, a.route.provider)
      ensures ToProvider(a, ChargeToProvider(down, wait, Cool(a)))
    {
      hide Breaker.Next, Breaker.Sane;
      ghost var log, p := circuits.providerLog, a.route.provider;
      if down {
        Breaker.ToldOnce(log, p, Breaker.Fail(now, now, Cool(a), wait, true));
        circuits.RecordProviderFailure(a.route.provider, a.policy, true, wait, now);
      } else {
        Breaker.ToldOnce(log, p, Breaker.Release);
        circuits.ResolveProviderProbe(a.route.provider);
      }
    }

    /** A body that broke off or is too large. */
    method OnBadBody(a: Attempt, message: string, now: int, later: int) returns (err: Failure)
      modifies circuits`models, circuits`modelLog, circuits`providers, circuits`providerLog, circuits`scored
      ensures ProbesClear(a) && err == PLAIN.(status := 502, message := message, retryable := true)
      ensures circuits.scored == old(circuits.scored) + 1 && Breaker.Known(Model(a)).failures >= 1
      ensures Provider(a) == Breaker.Released(old(Provider(a)))
      ensures Breaker.OnlyAt(old(circuits.models), circuits.models, a.key)
      ensures Breaker.OnlyAt(old(circuits.providers), circuits.providers, a.route.provider)
      ensures ToModel(a, BlameFor(502, true, Cool(a), 0)) && ToProvider(a, [Breaker.GiveUp])
    {
      Blame(a, 502, true, 0, now, later);
      Breaker.ToldOnce(circuits.providerLog, a.route.provider, Breaker.Release);
      circuits.ResolveProviderProbe(a.route.provider);
      err := PLAIN.(status := 502, message := message, retryable := true);
    }

    method OnAnswer(a: Attempt, now: int)
      modifies circuits`models, circuits`modelLog, circuits`providers, circuits`providerLog, circuits`scored
      ensures ProbesClear(a) && circuits.scored == old(circuits.scored) + 1
      ensures Breaker.Closed(Model(a)) && Breaker.Closed(Provider(a))
      ensures Breaker.Known(Model(a)).successes == old(Breaker.Known(Model(a)).successes) + 1
      ensures Breaker.OnlyAt(old(circuits.models), circuits.models, a.key)
      ensures Breaker.OnlyAt(old(circuits.providers), circuits.providers, a.route.provider)
      ensures ToModel(a, [Breaker.Win]) && ToProvider(a, [Breaker.Answer])
    {
      circuits.RecordSuccess(a.key, now, duration, evidence);
      ghost var log := circuits.modelLog;
      Breaker.ToldOnce(old(circuits.modelLog), a.key, log[|log| - 1].1);
      Breaker.ToldOnce(circuits.providerLog, a.route.provider, Breaker.Serve);
      circuits.ResolveProviderSuccess(a.route.provider);
    }

    /** How a stream that was let run affects the circuits. */
    method OnStreamEnd(a: Attempt, end: StreamEnd, now: int, later: int)
      requires ProbesClear(a)
      modifies circuits`models, circuits`modelLog, circuits`providers, circuits`providerLog, circuits`scored
      ensures ProbesClear(a)
      ensures end == Completed ==> Breaker.Known(Model(a)).successes == old(Breaker.Known(Model(a)).successes) + 1
      ensures end == UpstreamFault ==>
        circuits.scored == old(circuits.scored) + 1 && Breaker.Known(Model(a)).failures >= 1
      ensures end == ClientGone ==> Model(a) == old(Model(a)) && circuits.scored == old(circuits.scored)
      ensures Breaker.OnlyAt(old(circuits.models), circuits.models, a.key)
      ensures Breaker.OnlyAt(old(circuits.providers), circuits.providers, a.route.provider)
      ensures ToModel(a, EndToModel(end, Cool(a))) && ToProvider(a, EndToProvider(end))
    {
      hide Breaker.Told;
      Breaker.ToldNothing(circuits.modelLog, a.key);
      Breaker.ToldNothing(circuits.providerLog, a.route.provider);
      match end
      case Completed =>
        OnAnswer(a, now);
      case UpstreamFault =>
        var _ := OnBadBody(a, "stream ended abnormally", now, later);
      case ClientGone =>
    }

    /** Can someone take over from a stream whose first event is late? Quota for it is reserved on the spot. */
    method TakeOver(i: nat, last: bool, late: bool) returns (abandon: bool, next: Option<nat>)
      requires Valid() && i < |attempts|
      modifies this`attempts, this`outs, desk`clock, desk`script, desk`mine, desk.planner`store
      ensures Valid() && Retains(old(attempts), attempts) && old(desk.mine) <= desk.mine
      ensures old(outs.attempts) <= outs.attempts && outs == old(outs).(attempts := outs.attempts)
      ensures forall k | k in outs.attempts && k !in old(outs.attempts) :: i < k
      ensures abandon ==> late && budgeted && !last && (reserves <==> next.Some?)
      ensures abandon && next.Some? ==>
        IsNext(outs, Routes(attempts), i, next) && attempts[next.value].ticket.Some?
      ensures !abandon ==> next == None
      ensures !abandon && late && budgeted && !last ==> NoneIn(outs, Routes(attempts), i + 1, |attempts|)
      ensures !(late && budgeted && !last && reserves) ==> outs == old(outs)
      ensures forall k | 0 <= k < |attempts| && next != Some(k) :: attempts[k] == old(attempts)[k]
      ensures SameHolds(old(desk.planner.store.ledger), desk.planner.store.ledger, old(desk.mine))
    {
      hide desk.Valid, IsNext, NoneIn, Routes, Claims;
      abandon, next := false, None;
      if budgeted && !last && late {
        abandon := true;
        if reserves {
          next := ReserveNext(i);
          NextOrNone(outs, Routes(attempts), i, next);
          abandon := next.Some?;
        }
      }
    }

    /**
     An event stream, already settled. If its first event is late and another candidate can take over
     (with quota reserved for it, where reservations are used) it is abandoned; otherwise it is served.
     */
    method OnStream(i: nat, a: Attempt, last: bool, x: Reply, now: int, later: int)
      returns (err: Option<Failure>, exit: Exit)
      requires Valid() && i < |attempts| && x.Stream?
      modifies this`attempts, this`outs, desk`clock, desk`script, desk`mine, desk.planner`store
      modifies circuits`models, circuits`modelLog, circuits`providers, circuits`providerLog, circuits`scored
      ensures Valid() && ProbesClear(a) && Retains(old(attempts), attempts) && old(desk.mine) <= desk.mine
      ensures old(outs.attempts) <= outs.attempts && outs == old(outs).(attempts := outs.attempts)
      ensures forall k | k in outs.attempts && k !in old(outs.attempts) :: i < k
      ensures exit.Streamed? || exit.Abandoned?
      ensures exit.Abandoned? ==> x.timedOut && budgeted && !last && (reserves <==> exit.next.Some?)
      ensures exit.Abandoned? && exit.next.Some? ==>
        IsNext(outs, Routes(attempts), i, exit.next) && attempts[exit.next.value].ticket.Some?
      ensures exit.Abandoned? ==>
        && err == Some(Skip(503, LATE))
        && circuits.scored == old(circuits.scored) + 1 && Breaker.Closed(Model(a))
      ensures exit.Streamed? ==> err == None
      ensures exit.Streamed? && x.timedOut && budgeted && !last ==>
        NoneIn(outs, Routes(attempts), i + 1, |attempts|)
      ensures exit.Streamed? && x.end == Completed ==>
        Breaker.Known(Model(a)).successes == old(Breaker.Known(Model(a)).successes) + 1
      ensures exit.Streamed? && x.end == ClientGone ==> Evidence(Model(a)) == old(Evidence(Model(a)))
      ensures forall k | 0 <= k < |attempts| && exit != Abandoned(Some(k)) :: attempts[k] == old(attempts)[k]
      ensures !(x.timedOut && budgeted && !last && reserves) ==> outs == old(outs)
      ensures SameHolds(old(desk.planner.store.ledger), desk.planner.store.ledger, old(desk.mine))
      ensures Breaker.OnlyAt(old(circuits.models), circuits.models, a.key)
      ensures Breaker.OnlyAt(old(circuits.providers), circuits.providers, a.route.provider)
      ensures ToModel(a, ToldModel(x, exit, Cool(a)))
      ensures ToProvider(a, ToldProvider(a.route.provider, x, exit, Cool(a)))
    {
      hide desk.Valid, IsNext, NoneIn, Routes, Claims, Retains, SameHolds;
      hide Breaker.Penalised, Breaker.Told, Breaker.Released, Breaker.Next, Breaker.Sane, BlameFor;
      Withdraw(a);
      ghost var models, providers := circuits.modelLog, circuits.providerLog;
      var abandon, next := TakeOver(i, last, x.timedOut);
      if abandon {
        Blame(a, 0, false, 0, now, later);
        Breaker.ToldThen(old(circuits.modelLog), models, circuits.modelLog, a.key, [Breaker.Clear],
                         BlameFor(0, false, Cool(a), 0));
        assert [Breaker.GiveUp] + [] == [Breaker.GiveUp];
        return Some(Skip(503, LATE)), Abandoned(next);
      }
      OnStreamEnd(a, x.end, now, later);
      Breaker.ToldThen(old(circuits.modelLog), models, circuits.modelLog, a.key, [Breaker.Clear],
                       EndToModel(x.end, Cool(a)));
      Breaker.ToldThen(old(circuits.providerLog), providers, circuits.providerLog, a.route.provider, [Breaker.GiveUp],
                       EndToProvider(x.end));
      return None, Streamed;
    }

    // ---- tickets within an attempt ----

    /**
     The ticket an attempt is about to use: its candidate's own, or one reserved on the spot, which is
     then the only outstanding ticket not attached to a candidate and is priced by the attempt itself.
     */
    ghost predicate Using(t: nat, a: Attempt)
      reads this, desk, desk.planner
    {
      && desk.Valid() && t in desk.mine
      && (forall i | 0 <= i < |attempts| :: attempts[i].ticket.Some? ==> attempts[i].ticket.value in desk.mine)
      && desk.Open() <= Claims(attempts) + {t}
      && (t !in Claims(attempts) && t in desk.Tickets() ==>
            Priced(desk.Tickets()[t], ProviderEstimate(desk.planner.cfg, a.route, EstimateOf(a))))
    }

    /** An outstanding ticket that the attempt itself priced. */
    ghost predicate OwnPriced(t: nat, a: Attempt)
      reads desk, desk.planner
    {
      t in desk.Tickets() && Priced(desk.Tickets()[t], ProviderEstimate(desk.planner.cfg, a.route, EstimateOf(a)))
    }

    function EstimateOf(a: Attempt): Estimate
      reads desk.planner
    {
      EstimateFor(desk.planner.cfg, a, a.size)
    }

    ghost predicate Billed(t: nat, a: Attempt, tokens: Int64, facts: seq<Fact>)
      reads desk, desk.planner
    {
      t in desk.bills && desk.bills[t] == Bill(EstimateOf(a), tokens, facts)
    }

    /** The deferred or immediate settlement of the attempt's ticket. */
    method SettleUsed(t: nat, a: Attempt, tokens: Int64, facts: seq<Fact>)
      requires Using(t, a)
      modifies desk`clock, desk`script, desk`settled, desk`bills, desk.planner`store
      ensures Valid()
      ensures old(desk.clock) <= desk.clock
      ensures t in old(desk.Tickets()) ==>
        (Payable(old(desk.Tickets())[t], EstimateOf(a), tokens) <==> t in desk.settled)
      ensures t in old(desk.Tickets()) && t in desk.settled ==> Billed(t, a, tokens, facts)
      ensures old(desk.settled) <= desk.settled <= old(desk.settled) + {t}
    {
      hide Payable, Priced, EstimateFor, ProviderEstimate, Sound, Issued, Orders, Settling;
      var now := desk.Now();
      if t in desk.planner.store.ledger.tickets && t !in Claims(attempts) {
        PricedIsPayable(desk.planner.cfg, a, a.size, desk.Tickets()[t], tokens);
      }
      ghost var at, keys; var ok;
      ok, at, keys := desk.Settle(t, EstimateOf(a), tokens, facts, now);
      forall u | u in desk.Open() ensures u in Claims(attempts) {
        assert u in old(desk.Open());
      }
    }

    /** The deferred release of a ticket whose request never left. */
    method ReleaseUnused(a: Attempt)
      requires Valid() && (a.ticket.Some? ==> a.ticket.value in desk.mine)
      modifies desk`clock, desk`script, desk`released, desk.planner`store
      ensures Valid()
      ensures a.ticket.Some? && a.ticket.value in old(desk.Open()) ==> a.ticket.value in desk.released
      ensures a.ticket.Some? ==> a.ticket.value !in desk.Open()
      ensures old(desk.released) <= desk.released
      ensures forall u | u in old(desk.Open()) && a.ticket != Some(u) :: u in desk.Open()
    {
      hide Sound, Issued;
      if a.ticket.Some? {
        var now := desk.Now();
        desk.Release(a.ticket.value, now);
      }
    }

    // ---- one attempt ----

    /**
     Since then: the ticket was settled, with what the reply says, if its usage is payable; both claims were
     cleared; and each circuit was told what the reply calls for.
     */
    twostate predicate Closes(a: Attempt, t: nat, x: Reply, exit: Exit)
      reads this, desk, desk.planner, circuits
    {
      var tokens := SentTokens(x, EstimateOf(a));
      && ProbesClear(a) && old(desk.settled) <= desk.settled <= old(desk.settled) + {t}
      && (t in old(desk.Tickets()) ==> (Payable(old(desk.Tickets())[t], EstimateOf(a), tokens) <==> t in desk.settled))
      && (t in old(desk.Tickets()) && t in desk.settled ==> Billed(t, a, tokens, FactsOf(x)))
      && Breaker.OnlyAt(old(circuits.models), circuits.models, a.key)
      && Breaker.OnlyAt(old(circuits.providers), circuits.providers, a.route.provider)
      && ToModel(a, ToldModel(x, exit, Cool(a)))
      && ToProvider(a, ToldProvider(a.route.provider, x, exit, Cool(a)))
    }

    /** No usable reply: the blame first, the settlement of the estimate on the way out. */
    method AfterFault(a: Attempt, t: nat, x: Reply) returns (err: Failure, exit: Exit)
      requires Using(t, a) && (x.NoReply? || x.Truncated? || x.Oversize?)
      modifies desk`clock, desk`script, desk`settled, desk`bills, desk.planner`store
      modifies circuits`models, circuits`modelLog, circuits`providers, circuits`providerLog, circuits`scored
      ensures Valid() && Closes(a, t, x, exit) && Some(err) == ErrorOf(a.route.provider, x, exit)
      ensures exit == if x.Truncated? then CutShort else if x.Oversize? then TooLarge
                      else if x.cancelled then Cancelled else Unreached
    {
      hide desk.Valid, Payable, Priced, EstimateFor, ProviderEstimate, Claims, Breaker.Known;
      if x.NoReply? {
        err := OnNoReply(a, x, desk.clock, desk.clock);
        exit := if x.cancelled then Cancelled else Unreached;
      } else {
        var message := if x.Truncated? then TRUNCATED else OVERSIZE;
        err := OnBadBody(a, message, desk.clock, desk.clock);
        exit := if x.Truncated? then CutShort else TooLarge;
      }
      SettleUsed(t, a, EstimateOf(a).tokens, []);
    }

    method AfterRefusal(a: Attempt, t: nat, x: Reply) returns (err: Failure)
      requires Using(t, a) && x.Refusal?
      modifies desk`clock, desk`script, desk`settled, desk`bills, desk.planner
      modifies circuits`models, circuits`modelLog, circuits`providers, circuits`providerLog, circuits`scored
      ensures Valid() && Closes(a, t, x, Refused) && Some(err) == ErrorOf(a.route.provider, x, Refused)
      ensures CoolsFor(a, x, desk.clock)
    {
      hide desk.Valid, Payable, Priced, EstimateFor, ProviderEstimate, Claims, Breaker.Known, NonModel, AccountFailure;
      SettleUsed(t, a, EstimateOf(a).tokens, x.facts);
      var wait := CoolDown(a, x, desk.clock);
      err := OnRefusal(a, x, wait, desk.clock, desk.clock);
    }

    method AfterBody(a: Attempt, t: nat, x: Reply)
      requires Using(t, a) && x.Body?
      modifies desk`clock, desk`script, desk`settled, desk`bills, desk.planner`store
      modifies circuits`models, circuits`modelLog, circuits`providers, circuits`providerLog, circuits`scored
      ensures Valid() && Closes(a, t, x, Answered)
    {
      hide desk.Valid, Payable, Priced, EstimateFor, ProviderEstimate, Claims, Breaker.Known;
      SettleUsed(t, a, x.tokens, x.facts);
      OnAnswer(a, desk.clock);
    }

    /** A reply that is not a stream. */
    method AfterReply(a: Attempt, t: nat, x: Reply) returns (err: Option<Failure>, exit: Exit)
      requires Using(t, a) && !x.Stream?
      modifies desk`clock, desk`script, desk`settled, desk`bills, desk.planner
      modifies circuits`models, circuits`modelLog, circuits`providers, circuits`providerLog, circuits`scored
      ensures Valid() && Answers(x, exit) && err == ErrorOf(a.route.provider, x, exit)
      ensures Closes(a, t, x, exit) && CoolsFor(a, x, desk.clock)
    {
      hide desk.Valid, Payable, Priced, EstimateFor, ProviderEstimate, Claims, Breaker.Known;
      if x.Body? {
        AfterBody(a, t, x);
        err, exit := None, Answered;
      } else if x.Refusal? {
        var f := AfterRefusal(a, t, x);
        err, exit := Some(f), Refused;
      } else {
        var f;
        f, exit := AfterFault(a, t, x);
        err := Some(f);
      }
    }

    /** What an exit says about the candidates: nothing changes but what handing over to a later one takes. */
    twostate predicate Hands(i: nat, last: bool, late: bool, exit: Exit)
      reads this
    {
      && i < |attempts| && Retains(old(attempts), attempts)
      && old(outs.attempts) <= outs.attempts && outs == old(outs).(attempts := outs.attempts)
      && (forall k | k in outs.attempts && k !in old(outs.attempts) :: i < k)
      && (exit.Abandoned? ==> !last && (reserves <==> exit.next.Some?))
      && (exit.Abandoned? && exit.next.Some? ==>
            IsNext(outs, Routes(attempts), i, exit.next) && attempts[exit.next.value].ticket.Some?)
      && (exit.Streamed? && late && budgeted && !last ==> NoneIn(outs, Routes(attempts), i + 1, |attempts|))
      && (forall k | 0 <= k < |attempts| && exit != Abandoned(Some(k)) :: attempts[k] == old(attempts)[k])
    }

    method AfterStream(i: nat, a: Attempt, t: nat, last: bool, x: Reply) returns (err: Option<Failure>, exit: Exit)
      requires Using(t, a) && i < |attempts| && x.Stream?
      modifies this`attempts, this`outs, desk`clock, desk`script, desk`mine, desk`settled, desk`bills
      modifies desk.planner`store
      modifies circuits`models, circuits`modelLog, circuits`providers, circuits`providerLog, circuits`scored
      ensures Valid() && Answers(x, exit) && Hands(i, last, x.timedOut, exit)
      ensures err == ErrorOf(a.route.provider, x, exit)
      ensures Closes(a, t, x, exit) && old(desk.mine) <= desk.mine
    {
      hide desk.Valid, Payable, Priced, EstimateFor, ProviderEstimate, IsNext, NoneIn, Routes, Claims, Breaker.Known;
      SettleUsed(t, a, EstimateOf(a).tokens, x.facts);
      err, exit := OnStream(i, a, last, x, desk.clock, desk.clock);
    }

    /** The request has left with ticket `t`: every reply settles the ticket and clears both claims. */
    method AfterSending(i: nat, a: Attempt, t: nat, last: bool, x: Reply) returns (err: Option<Failure>, exit: Exit)
      requires Using(t, a) && i < |attempts|
      modifies this`attempts, this`outs, desk`clock, desk`script, desk`mine, desk`settled, desk`bills, desk.planner
      modifies circuits`models, circuits`modelLog, circuits`providers, circuits`providerLog, circuits`scored
      ensures Valid() && Sent(exit) && Answers(x, exit) && Hands(i, last, x.Stream? && x.timedOut, exit)
      ensures err == ErrorOf(a.route.provider, x, exit)
      ensures Closes(a, t, x, exit) && CoolsFor(a, x, desk.clock) && old(desk.mine) <= desk.mine
    {
      hide desk.Valid, Payable, Priced, EstimateFor, ProviderEstimate, IsNext, NoneIn, Routes, Claims, Breaker.Known;
      hide RefusalOf, SoftSkip, Closes, ErrorOf, Sound, Cooled, Until;
      if x.Stream? {
        err, exit := AfterStream(i, a, t, last, x);
      } else {
        err, exit := AfterReply(a, t, x);
      }
    }

    twostate predicate Approached(a: Attempt, turned: Option<Exit>)
      reads circuits
    {
      && ToModel(a, AskedModel(turned)) && ToProvider(a, AskedProvider(turned))
      && (turned.Some? ==> !Sent(turned.value))
    }

    /** What each circuit was told by an attempt whose request left. */
    twostate predicate Consulted(a: Attempt, exit: Exit, x: Reply)
      reads circuits
    {
      && ToModel(a, [Breaker.Ask] + ToldModel(x, exit, Cool(a)))
      && ToProvider(a, [Breaker.Ask] + ToldProvider(a.route.provider, x, exit, Cool(a)))
    }

    /** However it ended: one question to each circuit it came to, then reports only, at least one if it was let in. */
    twostate predicate Dutiful(a: Attempt, exit: Exit)
      reads circuits
    {
      && DutifulToModel(old(circuits.modelLog), circuits.modelLog, a.key, exit)
      && DutifulToProvider(old(circuits.providerLog), circuits.providerLog, a.route.provider, exit)
    }

    /** Asks the provider's circuit and then the model's, whose refusal gives the provider's claim back. */
    method AskBoth(a: Attempt, now: int, later: int) returns (turned: Option<Exit>)
      modifies circuits`models, circuits`modelLog, circuits`providers, circuits`providerLog
      ensures turned in {None, Some(ProviderCooling), Some(ProbeBusy)}
      ensures Evidence(Model(a)) == old(Evidence(Model(a)))
      ensures turned == Some(ProviderCooling) ==> Model(a) == old(Model(a)) && Provider(a) == old(Provider(a))
      ensures turned == Some(ProbeBusy) ==>
        Model(a) == old(Model(a)) && Breaker.Known(Provider(a)).probeUntil == 0
      ensures Breaker.OnlyAt(old(circuits.models), circuits.models, a.key)
      ensures Breaker.OnlyAt(old(circuits.providers), circuits.providers, a.route.provider)
      ensures Approached(a, turned)
    {
      hide Evidence, Breaker.Known, Breaker.Released, Breaker.Told, Breaker.Admitted, Breaker.Next, Breaker.Sane;
      ghost var models, providers := circuits.modelLog, circuits.providerLog;
      AdmittedEffects(Model(a), now, later, Breaker.ProbeTtl(circuits.timeout));
      AdmittedEffects(Provider(a), now, later, Breaker.ProbeTtl(circuits.timeout));
      Breaker.ToldNothing(models, a.key);
      Breaker.ToldOnce(models, a.key, Breaker.Start(now, later));
      Breaker.ToldOnce(providers, a.route.provider, Breaker.Start(now, later));
      var ok := circuits.TryStartProvider(a.route.provider, now, later);
      if !ok {
        return Some(ProviderCooling);
      }
      ok := circuits.TryStartAttempt(a.key, now, later);
      if !ok {
        ghost var asked, claimed := circuits.providerLog, Provider(a);
        Breaker.ToldOnce(asked, a.route.provider, Breaker.Release);
        circuits.ResolveProviderProbe(a.route.provider);
        ReleasedIsClear(claimed);
        Breaker.ToldThen(providers, asked, circuits.providerLog, a.route.provider, [Breaker.Ask], [Breaker.GiveUp]);
        assert [Breaker.Ask] + [Breaker.GiveUp] == [Breaker.Ask, Breaker.GiveUp];
        return Some(ProbeBusy);
      }
      turned := None;
    }

    /** Asks both circuits. A model that is being probed by someone else keeps that claim. */
    method Enter(a: Attempt) returns (turned: Option<Exit>)
      requires Valid()
      modifies desk`clock, desk`script, desk.planner`store, circuits`models, circuits`modelLog, circuits`providers
      modifies circuits`providerLog
      ensures Valid() && turned in {None, Some(ProviderCooling), Some(ProbeBusy)}
      ensures Evidence(Model(a)) == old(Evidence(Model(a)))
      ensures turned == Some(ProviderCooling) ==> Model(a) == old(Model(a)) && Provider(a) == old(Provider(a))
      ensures turned == Some(ProbeBusy) ==>
        Model(a) == old(Model(a)) && Breaker.Known(Provider(a)).probeUntil == 0
      ensures SameHolds(old(desk.planner.store.ledger), desk.planner.store.ledger, desk.mine)
      ensures Breaker.OnlyAt(old(circuits.models), circuits.models, a.key)
      ensures Breaker.OnlyAt(old(circuits.providers), circuits.providers, a.route.provider)
      ensures Approached(a, turned)
    {
      hide Sound, Issued, Claims, Evidence, Breaker.Known, Breaker.Told, Breaker.OnlyAt;
      var now := desk.Now();
      var later := desk.Now();
      turned := AskBoth(a, now, later);
    }

    /** The ticket to send with: the candidate's own, or one reserved now. */
    method Ticket(a: Attempt) returns (t: Option<nat>)
      requires Valid() && (a.ticket.Some? ==> a.ticket.value in desk.mine && a.ticket.value in Claims(attempts))
      modifies desk`clock, desk`script, desk`mine, desk.planner`store
      ensures a.ticket.Some? ==> t == a.ticket && Valid() && desk.mine == old(desk.mine)
      ensures t.Some? ==> Using(t.value, a)
      ensures t.Some? && a.ticket.None? ==> OwnPriced(t.value, a)
      ensures t.None? ==> Valid() && desk.mine == old(desk.mine)
      ensures old(desk.mine) <= desk.mine && (a.ticket.None? && t.Some? ==> t.value !in old(desk.mine))
      ensures SameHolds(old(desk.planner.store.ledger), desk.planner.store.ledger, old(desk.mine))
    {
      hide Sound, Issued, EstimateFor, ProviderEstimate, Priced, Lists;
      t := a.ticket;
      if t.None? {
        var now := desk.Now();
        ghost var plan, rs, at;
        t, plan, rs, at := desk.Reserve(a.route, a.fingerprint, EstimateOf(a), now);
        forall u | u in desk.Open() && t != Some(u) ensures u in Claims(attempts) {
          assert u in old(desk.Open());
        }
      }
    }

    /** What holds however an attempt ends before its request leaves. */
    twostate predicate Unsent(a: Attempt, exit: Exit)
      reads this, desk, desk.planner, circuits
    {
      && !Sent(exit) && attempts == old(attempts) && outs == old(outs) && Approached(a, Some(exit))
      && desk.settled == old(desk.settled) && desk.mine == old(desk.mine)
      && (exit.NotConfigured? || exit.ProviderCooling? ==> Model(a) == old(Model(a)) && Provider(a) == old(Provider(a)))
      && (exit.ProbeBusy? ==> Model(a) == old(Model(a)) && Breaker.Known(Provider(a)).probeUntil == 0)
      && (exit.Unbuildable? || exit.NoQuota? ==> ProbesClear(a) && Evidence(Model(a)) == old(Evidence(Model(a))))
      && (exit.NotConfigured? ==> desk.released == old(desk.released))
      && (!exit.NotConfigured? && a.ticket.Some? && a.ticket.value in old(desk.Open()) ==>
            a.ticket.value in desk.released)
      && Breaker.OnlyAt(old(circuits.models), circuits.models, a.key)
      && Breaker.OnlyAt(old(circuits.providers), circuits.providers, a.route.provider)
    }

    method Admission(i: nat) returns (turned: Option<Exit>)
      requires Valid() && i < |attempts|
      modifies desk`clock, desk`script, desk`released, desk.planner`store, circuits`models, circuits`modelLog
      modifies circuits`providers, circuits`providerLog
      ensures Valid() && turned in {None, Some(NotConfigured), Some(ProviderCooling), Some(ProbeBusy)}
      ensures turned.Some? ==> Unsent(attempts[i], turned.value)
      ensures turned.None? ==>
        && Approached(attempts[i], None)
        && desk.released == old(desk.released) && Evidence(Model(attempts[i])) == old(Evidence(Model(attempts[i])))
        && SameHolds(old(desk.planner.store.ledger), desk.planner.store.ledger, desk.mine)
        && Breaker.OnlyAt(old(circuits.models), circuits.models, attempts[i].key)
        && Breaker.OnlyAt(old(circuits.providers), circuits.providers, attempts[i].route.provider)
    {
      hide Sound, Issued, Claims, Breaker.Known, Evidence, Breaker.Told;
      var a := attempts[i];
      Breaker.ToldNothing(circuits.modelLog, a.key);
      Breaker.ToldNothing(circuits.providerLog, a.route.provider);
      if !a.configured {
        return Some(NotConfigured);
      }
      turned := Enter(a);
      if turned.Some? {
        ReleaseUnused(a);
      }
    }

    /** Once both circuits have let the attempt in: build the request and get a ticket. */
    method Equip(i: nat, x: Exchange) returns (turned: Option<Exit>, t: nat)
      requires Valid() && i < |attempts|
      modifies desk`clock, desk`script, desk`mine, desk`released, desk.planner`store
      modifies circuits`models, circuits`modelLog, circuits`providers, circuits`providerLog
      ensures turned in {None, Some(Unbuildable), Some(NoQuota)}
      ensures turned.Some? ==>
        && Valid() && ProbesClear(attempts[i]) && desk.mine == old(desk.mine)
        && ToModel(attempts[i], [Breaker.Clear]) && ToProvider(attempts[i], [Breaker.GiveUp])
        && Evidence(Model(attempts[i])) == old(Evidence(Model(attempts[i])))
        && (attempts[i].ticket.Some? && attempts[i].ticket.value in old(desk.Open()) ==>
              attempts[i].ticket.value in desk.released)
        && Breaker.OnlyAt(old(circuits.models), circuits.models, attempts[i].key)
        && Breaker.OnlyAt(old(circuits.providers), circuits.providers, attempts[i].route.provider)
      ensures turned.None? ==>
        && Using(t, attempts[i]) && desk.released == old(desk.released) && old(desk.mine) <= desk.mine
        && SameHolds(old(desk.planner.store.ledger), desk.planner.store.ledger, old(desk.mine))
        && (attempts[i].ticket.Some? ==> attempts[i].ticket == Some(t))
        && (attempts[i].ticket.None? ==> t !in old(desk.mine) && OwnPriced(t, attempts[i]))
        && circuits.models == old(circuits.models) && circuits.providers == old(circuits.providers)
        && circuits.modelLog == old(circuits.modelLog) && circuits.providerLog == old(circuits.providerLog)
    {
      hide Sound, Issued, Claims, Payable, Priced, EstimateFor, ProviderEstimate, Breaker.Known, Evidence;
      var a := attempts[i];
      if !x.buildable {
        Withdraw(a);
        ReleaseUnused(a);
        return Some(Unbuildable), 0;
      }
      assert a.ticket.Some? ==> a.ticket.value in Claims(attempts) by { OwnClaim(attempts, i); }
      var ticket := Ticket(a);
      if ticket.None? {
        Withdraw(a);
        return Some(NoQuota), 0;
      }
      return None, ticket.value;
    }

    /** Everything up to sending: either the attempt is turned away, or it holds a ticket to send with. */
    method Prepare(i: nat, x: Exchange) returns (err: Failure, turned: Option<Exit>, t: nat)
      requires Valid() && i < |attempts|
      modifies desk`clock, desk`script, desk`mine, desk`released, desk.planner`store
      modifies circuits`models, circuits`modelLog, circuits`providers, circuits`providerLog
      ensures turned.Some? ==> Valid() && Unsent(attempts[i], turned.value)
      ensures turned.None? ==>
        && Using(t, attempts[i]) && desk.released == old(desk.released) && old(desk.mine) <= desk.mine
        && SameHolds(old(desk.planner.store.ledger), desk.planner.store.ledger, old(desk.mine))
        && (attempts[i].ticket.Some? ==> attempts[i].ticket == Some(t))
        && (attempts[i].ticket.None? ==> t !in old(desk.mine) && OwnPriced(t, attempts[i]))
        && Breaker.OnlyAt(old(circuits.models), circuits.models, attempts[i].key)
        && Breaker.OnlyAt(old(circuits.providers), circuits.providers, attempts[i].route.provider)
      ensures turned.None? ==> Approached(attempts[i], None)
      ensures turned.Some? ==> err == TurnedAway(turned.value, x)
    {
      hide Sound, Issued, Claims, Payable, Priced, EstimateFor, ProviderEstimate, Breaker.Known, Evidence;
      hide Breaker.Told, Breaker.OnlyAt;
      t := 0;
      turned := Admission(i);
      if turned.Some? {
        return TurnedAway(turned.value, x), turned, 0;
      }
      ghost var models, providers := circuits.modelLog, circuits.providerLog;
      ghost var (ms, ps) := (circuits.models, circuits.providers);
      turned, t := Equip(i, x);
      if turned.Some? {
        ghost var a := attempts[i];
        assert Approached(a, turned) by {
          Breaker.ToldThen(old(circuits.modelLog), models, circuits.modelLog, a.key, [Breaker.Ask], [Breaker.Clear]);
          Breaker.ToldThen(old(circuits.providerLog), providers, circuits.providerLog, a.route.provider,
                           [Breaker.Ask], [Breaker.GiveUp]);
          assert [Breaker.Ask] + [Breaker.Clear] == [Breaker.Ask, Breaker.Clear];
          assert [Breaker.Ask] + [Breaker.GiveUp] == [Breaker.Ask, Breaker.GiveUp];
        }
        Breaker.OnlyAtTrans(old(circuits.models), ms, circuits.models, a.key);
        Breaker.OnlyAtTrans(old(circuits.providers), ps, circuits.providers, a.route.provider);
      }
      err := if turned.Some? then TurnedAway(turned.value, x) else PLAIN;
    }

    /** Since then: the candidate's own ticket, if outstanding, was settled exactly if its usage is payable. */
    twostate predicate Charged(a: Attempt, tokens: Int64, facts: seq<Fact>)
      reads desk, desk.planner
    {
      a.ticket.Some? && a.ticket.value in old(desk.Open()) ==>
        && (Payable(old(desk.Tickets())[a.ticket.value], EstimateOf(a), tokens) <==> a.ticket.value in desk.settled)
        && (a.ticket.value in desk.settled ==> Billed(a.ticket.value, a, tokens, facts))
    }

    /**
     Since then a request left and was answered by `x`. The exit and the error are the reply's; each circuit was
     told what the reply calls for; a quota refusal has the model cool down; and the ticket the request was sent
     with, its candidate's own or the one reserved for it now, was settled with what the reply says.
     */
    twostate predicate Departed(a: Attempt, x: Reply, exit: Exit, err: Option<Failure>, used: nat)
      reads this, desk, desk.planner, circuits
    {
      var tokens := if x.Body? then x.tokens else EstimateOf(a).tokens;
      var facts := if x.Refusal? || x.Stream? || x.Body? then x.facts else [];
      && Answers(x, exit) && err == ErrorOf(a.route.provider, x, exit)
      && Consulted(a, exit, x) && CoolsFor(a, x, desk.clock) && desk.released == old(desk.released)
      && Charged(a, tokens, facts)
      && (a.ticket.None? ==> used !in old(desk.mine) && used in desk.settled && Billed(used, a, tokens, facts))
    }

    /**
     One attempt, from candidate to outcome. Whatever happens, no ticket taken on the way stays
     outstanding unless it is attached to a candidate, and no claim on a circuit survives.
     */
    method ExecuteAttempt(i: nat, last: bool, x: Exchange) returns (err: Option<Failure>, exit: Exit, ghost used: nat)
      requires Valid() && i < |attempts|
      modifies this`attempts, this`outs, desk, desk.planner
      modifies circuits`models, circuits`modelLog, circuits`providers, circuits`providerLog, circuits`scored
      ensures Valid() && Hands(i, last, x.reply.Stream? && x.reply.timedOut, exit)
      ensures err == None <==> exit.Streamed? || exit.Answered?
      ensures !Sent(exit) ==> Unsent(old(attempts)[i], exit) && err == Some(TurnedAway(exit, x))
      ensures !Sent(exit) ==> desk.planner.cooldowns == old(desk.planner.cooldowns)
      ensures Admitted(exit) ==> ProbesClear(old(attempts)[i])
      ensures Dutiful(old(attempts)[i], exit)
      ensures Sent(exit) ==> Departed(old(attempts)[i], x.reply, exit, err, used)
      ensures exit.Abandoned? ==> err.Some? && SoftSkip(err.value)
      ensures old(desk.mine) <= desk.mine
    {
      hide Sound, Issued, Claims, Payable, Priced, EstimateFor, ProviderEstimate, Breaker.Known, Evidence, IsNext;
      hide NoneIn, Routes, AskedModel, AskedProvider, ToldModel, ToldProvider, ErrorOf, TurnedAway;
      hide Breaker.Told, DutifulToModel, DutifulToProvider, SoftSkip, Answers, Breaker.OnlyAt, Cooled, Until, Retains;
      hide Using;
      var a := attempts[i];
      var f, turned, t := Prepare(i, x);
      used := t;
      if turned.Some? {
        RetainsRefl(attempts);
        TurnedAwayIsDutiful(old(circuits.modelLog), circuits.modelLog, a.key, old(circuits.providerLog),
                            circuits.providerLog, a.route.provider, turned.value);
        return Some(f), turned.value, used;
      }
      if a.ticket.None? {
        PricedIsPayable(desk.planner.cfg, a, a.size, desk.Tickets()[t], SentTokens(x.reply, EstimateOf(a)));
      }
      ghost var models, providers := circuits.modelLog, circuits.providerLog;
      err, exit := AfterSending(i, a, t, last, x.reply);
      AskedIs();
      ErrorMeans(a.route.provider, x.reply, exit);
      Breaker.ToldThen(old(circuits.modelLog), models, circuits.modelLog, a.key, [Breaker.Ask],
                       ToldModel(x.reply, exit, Cool(a)));
      Breaker.ToldThen(old(circuits.providerLog), providers, circuits.providerLog, a.route.provider, [Breaker.Ask],
                       ToldProvider(a.route.provider, x.reply, exit, Cool(a)));
      SentIsDutiful(old(circuits.modelLog), circuits.modelLog, a.key, old(circuits.providerLog), circuits.providerLog,
                    a.route.provider, exit, x.reply, Cool(a));
    }

    // ---- the chain ----

    /** The deferred cleanup: every ticket attached to a candidate is presented once more. */
    method ReleaseAll()
      requires Valid()
      modifies desk`clock, desk`script, desk`released, desk.planner`store
      ensures Valid() && desk.Open() == {}
    {
      hide Sound, Issued;
      for i := 0 to |attempts|
        invariant Valid()
        invariant forall k | 0 <= k < i :: attempts[k].ticket.Some? ==> attempts[k].ticket.value !in desk.Open()
      {
        ReleaseUnused(attempts[i]);
      }
    }

    /** Applies what a failure teaches; returns whether the chain goes on. */
    method Conclude(a: Attempt, f: Failure, retry: Failure -> bool, ghost before: Outs, ghost ran: Ran)
      returns (on: bool)
      requires ran.err == Some(f) && outs == before.(attempts := before.attempts + ran.refused)
      modifies this`outs
      ensures outs == Learn(before, a.route.provider, ran)
      ensures on <==> GoesOn(f, retry)
    {
      hide Gone;
      on := true;
      if f.providerDown {
        outs := outs.(providers := outs.providers + {a.route.provider});
      } else if f.skipProvider {
        outs := outs.(providers := outs.providers + {a.route.provider});
      } else if f.pool != "" {
        outs := outs.(pools := outs.pools + {PoolKey(a.route.provider, f.pool)});
      } else if Gone(f) || f.skipModel {
      } else if !retry(f) {
        on := false;
      }
    }

    /** Runs candidate `i` and extends the record. */
    method RunOne(i: nat, x: Exchange, retry: Failure -> bool, ghost trace: seq<Ran>)
      returns (err: Option<Failure>, on: bool, ghost ran: Ran)
      requires Valid() && i < |attempts| && Recorded(attempts, outs, trace, retry)
      requires NoneIn(outs, Routes(attempts), Reached(trace), i) && Reached(trace) <= i
      requires !Out(outs, Routes(attempts), i)
      requires trace != [] ==> trace[|trace| - 1].err.Some? && GoesOn(trace[|trace| - 1].err.value, retry)
      modifies this`attempts, this`outs, desk, desk.planner
      modifies circuits`models, circuits`modelLog, circuits`providers, circuits`providerLog, circuits`scored
      ensures Valid() && Retains(old(attempts), attempts) && old(desk.mine) <= desk.mine
      ensures ran.index == i && ran.err == err && Recorded(attempts, outs, trace + [ran], retry)
      ensures Hears(old(attempts)[i].route.provider, x, ran)
      ensures err.Some? ==> (on <==> GoesOn(err.value, retry))
    {
      hide Sound, Issued, Claims, Payable, EstimateFor, ProviderEstimate, GoesOn, Gone, Orderly, Fits, HandsOver;
      hide IsNext, NoneIn, Out, ErrorOf, TurnedAway, Answers, Consulted, CoolsFor, Charged, Billed, Dutiful, Unsent;
      var a := attempts[i];
      ghost var before := outs;
      var next := NextExecutable(i);
      var last := next.None?;
      var exit; ghost var used;
      err, exit, used := ExecuteAttempt(i, last, x);
      ran := Ran(i, a.ticket, last, exit, err, outs.attempts - before.attempts);
      on := false;
      RecordMore(old(attempts), attempts, before, outs, trace, ran, retry, next);
      if err.Some? {
        on := Conclude(a, err.value, retry, before, ran);
      }
    }

    /** Tries the candidates in order until one serves, one failure is final, or none is left. */
    method RunAll(xs: seq<Exchange>, retry: Failure -> bool) returns (verdict: Verdict, ghost trace: seq<Ran>)
      requires Valid() && outs == Outs({}, {}, {}) && |xs| == |attempts|
      modifies this`attempts, this`outs, desk, desk.planner
      modifies circuits`models, circuits`modelLog, circuits`providers, circuits`providerLog, circuits`scored
      ensures Valid() && Retains(old(attempts), attempts) && verdict != NoExecutor
      ensures Recorded(attempts, outs, trace, retry) && Right(Routes(attempts), trace, verdict, retry)
      ensures Heard(Routes(attempts), xs, trace)
    {
      hide Sound, Issued, Claims, GoesOn, Hears, Heard, Recorded, Right;
      trace := [];
      var n := |attempts|;
      NothingRan(attempts, retry);
      assert Heard(Routes(attempts), xs, []) by { NoneHeard(Routes(attempts), xs); }
      for i := 0 to n
        invariant Valid() && Retains(old(attempts), attempts) && |attempts| == n
        invariant Recorded(attempts, outs, trace, retry) && Heard(Routes(attempts), xs, trace)
        invariant Reached(trace) <= i && NoneIn(outs, Routes(attempts), Reached(trace), i)
        invariant trace != [] ==> trace[|trace| - 1].err.Some? && GoesOn(trace[|trace| - 1].err.value, retry)
      {
        var a := attempts[i];
        if i in outs.attempts {
          continue;
        }
        if a.route.provider in outs.providers {
          continue;
        }
        if IsFree(a.route.model) && PoolKey(a.route.provider, FREE_POOL) in outs.pools {
          continue;
        }
        var err, on; ghost var ran;
        ghost var before := attempts;
        err, on, ran := RunOne(i, xs[i], retry, trace);
        RetainsRoutes(before, attempts);
        HeardMore(Routes(attempts), xs, trace, ran);
        trace := trace + [ran];
        LastIs(trace, ran);
        if err == None {
          EndIsRight(attempts, outs, trace, retry, Served);
          return Served, trace;
        }
        if !on {
          var next := NextExecutable(i);
          NextOrNone(outs, Routes(attempts), i, next);
          verdict := if next.Some? then Terminal else Exhausted;
          EndIsRight(attempts, outs, trace, retry, verdict);
          return verdict, trace;
        }
      }
      verdict := Exhausted;
      EndIsRight(attempts, outs, trace, retry, verdict);
    }

    /**
     The executor. Without an attempt executor it returns before anything is set up. Otherwise, for every
     outcome of every attempt and every interference by other callers, no ticket of the request is left.
     */
    method Execute(hasExecutor: bool, xs: seq<Exchange>, retry: Failure -> bool)
      returns (verdict: Verdict, ghost trace: seq<Ran>)
      requires Valid() && outs == Outs({}, {}, {}) && |xs| == |attempts|
      modifies this`attempts, this`outs, desk, desk.planner
      modifies circuits`models, circuits`modelLog, circuits`providers, circuits`providerLog, circuits`scored
      ensures Valid() && Retains(old(attempts), attempts)
      ensures desk.Open() == {} <==> hasExecutor || old(desk.Open()) == {}
      ensures verdict == NoExecutor <==> !hasExecutor
      ensures Recorded(attempts, outs, trace, retry) && Right(Routes(attempts), trace, verdict, retry)
      ensures Heard(Routes(attempts), xs, trace)
    {
      hide Sound, Issued, Right, Orderly, Hears;
      if !hasExecutor {
        verdict, trace := NoExecutor, [];
        NothingRan(attempts, retry);
        return;
      }
      verdict, trace := RunAll(xs, retry);
      ReleaseAll();
    }
  }
}
