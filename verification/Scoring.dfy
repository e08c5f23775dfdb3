/**
 * Reliability scores. A breaker record carries a score that moves on every
 * outcome and drifts back to a baseline at the slower of two clocks: elapsed
 * time and the number of scored attempts. Floating point is idealised as `real`.
 */
module Scoring {
  /** One circuit: breaker bookkeeping and reliability evidence. Instant 0 is "unset". */
  datatype State = State(
    failures: nat, successes: nat, openUntil: int, probeUntil: int,
    score: real, scoredAt: int, scoredCount: int)

  const NEW := State(0, 0, 0, 0, 0.0, 0, 0)

  /** The two decay clocks and the window over which a score drifts. */
  datatype Env = Env(now: int, count: int, duration: int, attempts: int)

  const INITIAL := 1.0
  const NEUTRAL := 0.8
  const UNPROVEN := 0.5
  const SUCCESS_STEP := 0.2
  const PENALTY_HARD := 0.4
  const PENALTY_SOFT := 0.2
  const DEFAULT_DURATION := 6 * 3600 * 1_000_000_000
  const DEFAULT_ATTEMPTS := 50

  ghost predicate Window(env: Env) {
    env.duration > 0 && env.attempts > 0
  }

  /** Non-positive settings fall back to the defaults. */
  function NewEnv(now: int, count: int, duration: int, attempts: int): (env: Env)
    ensures Window(env) && env.now == now && env.count == count
    ensures (duration > 0 ==> env.duration == duration) && (attempts > 0 ==> env.attempts == attempts)
  {
    Env(now, count,
      if duration <= 0 then DEFAULT_DURATION else duration,
      if attempts < 1 then DEFAULT_ATTEMPTS else attempts)
  }

  function Clamp01(v: real): real {
    if v < 0.0 then 0.0 else if v > 1.0 then 1.0 else v
  }

  function Baseline(st: State): real {
    if st.successes == 0 then UNPROVEN else NEUTRAL
  }

  function Decay(st: State, env: Env): real
    requires Window(env)
  {
    var elapsed := env.now - st.scoredAt;
    var evidence := env.count - st.scoredCount;
    if elapsed <= 0 || evidence <= 0 then 0.0
    else
      var byTime := elapsed as real / env.duration as real;
      var byEvidence := evidence as real / env.attempts as real;
      Clamp01(if byEvidence < byTime then byEvidence else byTime)
  }

  function Times(x: real, y: real): real {
    x * y
  }

  function Blend(a: real, b: real, f: real): real {
    a + Times(b - a, f)
  }

  /** The score as it reads now; a record never scored reads optimistically. */
  function Reading(st: State, env: Env): real
    requires Window(env)
  {
    if st.scoredAt == 0 then INITIAL
    else Clamp01(Blend(st.score, Baseline(st), Decay(st, env)))
  }

  function Reward(st: State, env: Env): State
    requires Window(env)
  {
    var base := Reading(st, env);
    st.(score := Clamp01(base + (1.0 - base) * SUCCESS_STEP), scoredAt := env.now, scoredCount := env.count)
  }

  predicate Hard(status: int) {
    status == 429 || status == 408 || status >= 500
  }

  function Punish(st: State, status: int, env: Env): State
    requires Window(env)
  {
    var base := Reading(st, env);
    var penalty := if Hard(status) then PENALTY_HARD else PENALTY_SOFT;
    st.(score := Clamp01(base * (1.0 - penalty)), scoredAt := env.now, scoredCount := env.count)
  }

  // ---- One reading ----

  /** A score that was folded in at least once, or an untouched record. */
  ghost predicate InRange(st: State) {
    st.scoredAt != 0 ==> 0.0 < st.score <= 1.0
  }

  ghost predicate Between(a: real, x: real, b: real) {
    (a <= x <= b) || (b <= x <= a)
  }

  ghost predicate Later(e1: Env, e2: Env) {
    e1.now <= e2.now && e1.count <= e2.count && e1.duration == e2.duration && e1.attempts == e2.attempts
  }

  lemma Product(x: real, y: real)
    ensures x >= 0.0 && y >= 0.0 ==> Times(x, y) >= 0.0
    ensures x > 0.0 && y > 0.0 ==> Times(x, y) > 0.0
  {
  }

  lemma Distribute(d: real, f: real, g: real)
    ensures Times(d, g - f) == Times(d, g) - Times(d, f)
  {
  }

  lemma Units(d: real)
    ensures Times(d, 0.0) == 0.0 && Times(d, 1.0) == d && Times(0.0, d) == 0.0
  {
  }

  lemma Negate(d: real, f: real)
    ensures Times(-d, f) == -Times(d, f)
  {
  }

  lemma Scale(d: real, f: real, g: real)
    requires d > 0.0
    ensures f <= g <==> Times(d, f) <= Times(d, g)
    ensures f < g <==> Times(d, f) < Times(d, g)
  {
    hide Times;
    Distribute(d, f, g);
    Distribute(d, g, f);
    Product(d, g - f);
    Product(d, f - g);
  }

  lemma Divide(x: real, d: real)
    requires d > 0.0
    ensures Times(d, x / d) == x
  {
  }

  lemma Quotient(a: int, b: int, d: int)
    requires d > 0 && a <= b
    ensures a as real / d as real <= b as real / d as real
    ensures a > 0 ==> a as real / d as real > 0.0
    ensures b >= d <==> b as real / d as real >= 1.0
  {
    var r := d as real;
    var x, y := a as real, b as real;
    Divide(x, r);
    Divide(y, r);
    QuotientOf(x, y, r, x / r, y / r);
  }

  lemma QuotientOf(x: real, y: real, r: real, p: real, q: real)
    requires r > 0.0 && x <= y && Times(r, p) == x && Times(r, q) == y
    ensures p <= q && (x > 0.0 ==> p > 0.0) && (y >= r <==> q >= 1.0)
  {
    hide Times;
    Scale(r, p, q);
    Scale(r, 0.0, p);
    Scale(r, 1.0, q);
    Units(r);
  }

  /** Decay is a fraction, frozen unless both clocks moved, whole exactly when both windows passed. */
  lemma DecayBounds(st: State, env: Env)
    requires Window(env)
    ensures 0.0 <= Decay(st, env) <= 1.0
    ensures Decay(st, env) == 0.0 <==> env.now <= st.scoredAt || env.count <= st.scoredCount
    ensures Decay(st, env) == 1.0 <==>
      env.now - st.scoredAt >= env.duration && env.count - st.scoredCount >= env.attempts
  {
    var elapsed, evidence := env.now - st.scoredAt, env.count - st.scoredCount;
    Quotient(elapsed, elapsed, env.duration);
    Quotient(evidence, evidence, env.attempts);
  }

  /** In between it is as far along as the slower of the two clocks is in its window. */
  lemma DecayIsTheSlower(st: State, env: Env)
    requires Window(env) && env.now > st.scoredAt && env.count > st.scoredCount && Decay(st, env) < 1.0
    ensures var elapsed, evidence := (env.now - st.scoredAt) as real, (env.count - st.scoredCount) as real;
      var byTime := Times(env.duration as real, Decay(st, env));
      var byEvidence := Times(env.attempts as real, Decay(st, env));
      byTime <= elapsed && byEvidence <= evidence && (byTime == elapsed || byEvidence == evidence)
  {
    var elapsed, evidence := env.now - st.scoredAt, env.count - st.scoredCount;
    Quotient(elapsed, elapsed, env.duration);
    Quotient(evidence, evidence, env.attempts);
    Divide(elapsed as real, env.duration as real);
    Divide(evidence as real, env.attempts as real);
    var t, e := elapsed as real / env.duration as real, evidence as real / env.attempts as real;
    assert Decay(st, env) == if e < t then e else t;
    Scale(env.duration as real, Decay(st, env), t);
    Scale(env.attempts as real, Decay(st, env), e);
    hide Times;
  }

  lemma DecayMonotone(st: State, e1: Env, e2: Env)
    requires Window(e1) && Later(e1, e2)
    ensures Decay(st, e1) <= Decay(st, e2)
  {
    Quotient(e1.now - st.scoredAt, e2.now - st.scoredAt, e1.duration);
    Quotient(e1.count - st.scoredCount, e2.count - st.scoredCount, e1.attempts);
  }

  /** A blend of two values moves monotonically from the first to the second. */
  lemma BlendUp(a: real, b: real, f: real, g: real)
    requires 0.0 <= f <= g <= 1.0 && a < b
    ensures a <= Blend(a, b, f) <= Blend(a, b, g) <= b
    ensures Blend(a, b, f) == a <==> f == 0.0
    ensures Blend(a, b, f) == b <==> f == 1.0
  {
    hide Times;
    var d := b - a;
    Scale(d, 0.0, f);
    Scale(d, f, g);
    Scale(d, g, 1.0);
    Scale(d, f, 1.0);
    Units(d);
  }

  lemma BlendSame(a: real, f: real)
    ensures Blend(a, a, f) == a
  {
    hide Times;
    assert a - a == 0.0;
    Units(f);
  }

  lemma BlendReflect(a: real, b: real, f: real)
    ensures Blend(-a, -b, f) == -Blend(a, b, f)
  {
    hide Times;
    assert -b - (-a) == -(b - a);
    Negate(b - a, f);
  }

  lemma BlendMoves(a: real, b: real, f: real, g: real)
    requires 0.0 <= f <= g <= 1.0
    ensures Between(a, Blend(a, b, f), b)
    ensures Between(a, Blend(a, b, f), Blend(a, b, g))
    ensures Between(Blend(a, b, f), Blend(a, b, g), b)
    ensures a != b ==> (Blend(a, b, f) == a <==> f == 0.0)
    ensures a != b ==> (Blend(a, b, f) == b <==> f == 1.0)
  {
    if a < b {
      BlendUp(a, b, f, g);
    } else if b < a {
      BlendUp(-a, -b, f, g);
      BlendReflect(a, b, f);
      BlendReflect(a, b, g);
    } else {
      BlendSame(a, f);
      BlendSame(a, g);
    }
  }

  lemma ReadingIsBlend(st: State, env: Env)
    requires Window(env) && InRange(st) && st.scoredAt != 0
    ensures Reading(st, env) == Blend(st.score, Baseline(st), Decay(st, env))
    ensures Between(st.score, Reading(st, env), Baseline(st))
  {
    hide Decay, Blend;
    DecayBounds(st, env);
    BlendMoves(st.score, Baseline(st), Decay(st, env), Decay(st, env));
  }

  lemma ReadingInRange(st: State, env: Env)
    requires Window(env) && InRange(st)
    ensures 0.0 < Reading(st, env) <= 1.0
  {
    if st.scoredAt != 0 {
      ReadingIsBlend(st, env);
    }
  }

  /**
   Drift: later readings lie between earlier ones and the baseline, so a score never
   overshoots; it stands still while either clock does; it arrives exactly when both windows pass.
   */
  lemma DriftTowardBaseline(st: State, e1: Env, e2: Env)
    requires Window(e1) && Later(e1, e2) && InRange(st) && st.scoredAt != 0
    ensures Between(st.score, Reading(st, e1), Reading(st, e2))
    ensures Between(Reading(st, e1), Reading(st, e2), Baseline(st))
    ensures st.score != Baseline(st) ==>
      (Reading(st, e1) == st.score <==> e1.now <= st.scoredAt || e1.count <= st.scoredCount)
    ensures st.score != Baseline(st) ==>
      (Reading(st, e1) == Baseline(st) <==>
       e1.now - st.scoredAt >= e1.duration && e1.count - st.scoredCount >= e1.attempts)
    ensures Baseline(st) == if st.successes == 0 then 0.5 else 0.8
  {
    hide Decay, Blend, Reading;
    DecayMonotone(st, e1, e2);
    DecayBounds(st, e1);
    DecayBounds(st, e2);
    ReadingIsBlend(st, e1);
    ReadingIsBlend(st, e2);
    BlendMoves(st.score, Baseline(st), Decay(st, e1), Decay(st, e2));
  }

  // ---- Whole histories of one model ----

  datatype Outcome = Success(env: Env) | Failure(status: int, env: Env)

  /** A success counts before its reward is computed, so it already earns the proven baseline. */
  function After(st: State, o: Outcome): State
    requires Window(o.env)
  {
    match o
    case Success(env) => Reward(st.(successes := st.successes + 1), env)
    case Failure(status, env) => Punish(st, status, env)
  }

  /** Outcomes happen at set instants. */
  ghost predicate History(os: seq<Outcome>) {
    forall i :: 0 <= i < |os| ==> Window(os[i].env) && os[i].env.now != 0
  }

  function Replay(os: seq<Outcome>): State
    requires History(os)
  {
    if os == [] then NEW else After(Replay(os[..|os| - 1]), os[|os| - 1])
  }

  ghost predicate NoSuccess(os: seq<Outcome>) {
    forall i :: 0 <= i < |os| ==> os[i].Failure?
  }

  lemma OutcomeMoves(st: State, o: Outcome)
    requires Window(o.env) && InRange(st)
    ensures InRange(After(st, o)) && (o.env.now != 0 ==> 0.0 < After(st, o).score <= 1.0)
    ensures o.Failure? ==> After(st, o).score < Reading(st, o.env) && After(st, o).score <= NEUTRAL
    ensures After(st, o).scoredAt == o.env.now
    ensures After(st, o).successes == st.successes + (if o.Success? then 1 else 0)
    ensures o.Success? ==>
      Reading(st.(successes := st.successes + 1), o.env) <= After(st, o).score
    ensures o.Success? ==>
      var was := Reading(st.(successes := st.successes + 1), o.env);
      After(st, o).score == was + (1.0 - was) * 0.2 && (was < 1.0 ==> was < After(st, o).score)
    ensures o.Failure? && (o.status == 429 || o.status == 408 || o.status >= 500) ==>
      After(st, o).score == Reading(st, o.env) * 0.6
    ensures o.Failure? && o.status != 429 && o.status != 408 && o.status < 500 ==>
      After(st, o).score == Reading(st, o.env) * 0.8
  {
    hide Reading, Blend, Times, Decay;
    ReadingInRange(st, o.env);
    ReadingInRange(st.(successes := st.successes + 1), o.env);
  }

  /**
   From a fresh record, whatever happens: every reading is in (0, 1], an untouched record reads 1,
   and a model with failures and no success never reads above the neutral baseline.
   */
  lemma {:induction false} HistoryBounds(os: seq<Outcome>, env: Env)
    requires History(os) && Window(env)
    ensures InRange(Replay(os))
    ensures os != [] ==> Replay(os).scoredAt != 0
    ensures 0.0 < Reading(Replay(os), env) <= 1.0
    ensures NoSuccess(os) <==> Replay(os).successes == 0
    ensures os != [] && NoSuccess(os) ==> Replay(os).score <= NEUTRAL && Reading(Replay(os), env) <= NEUTRAL
  {
    hide Reading, After, Blend, Times, Decay;
    if os != [] {
      var before, o := os[..|os| - 1], os[|os| - 1];
      HistoryBounds(before, o.env);
      OutcomeMoves(Replay(before), o);
      assert NoSuccess(os) <==> NoSuccess(before) && o.Failure?;
      ReadingIsBlend(Replay(os), env);
    }
    ReadingInRange(Replay(os), env);
  }
}
