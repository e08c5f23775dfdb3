/**
 The fallback chain as a record of what ran. From the record alone one can tell which candidates
 were ruled out when, so the loop's decisions are judged without looking at its variables.
 */
module ChainSpec {
  import opened Base
  import opened Text
  import opened QuotaRouting

  datatype Failure = Failure(
    status: int, message: string, eligible: bool, retryable: bool,
    skipModel: bool, skipProvider: bool, providerDown: bool, quotaLimited: bool, pool: string, retryAfter: int)

  /** How an attempt ended. */
  datatype Exit =
    | NotConfigured | ProviderCooling | ProbeBusy | Unbuildable | NoQuota
    | Cancelled | Unreached | Refused
    | Abandoned(next: Option<nat>)   // no first event in time; `next` is the candidate whose quota was reserved
    | Streamed | CutShort | TooLarge | Answered

  /** One executed attempt. `refused` are the later candidates whose reservation failed meanwhile. */
  datatype Ran = Ran(index: nat, ticket: Option<nat>, last: bool, exit: Exit, err: Option<Failure>, refused: set<nat>)

  /** What the chain has ruled out so far. */
  datatype Outs = Outs(providers: set<string>, pools: set<string>, attempts: set<nat>)

  function PoolKey(provider: string, pool: string): string {
    provider + "\0" + pool
  }

  predicate Barred(o: Outs, r: Route) {
    r.provider in o.providers || (IsFree(r.model) && PoolKey(r.provider, FREE_POOL) in o.pools)
  }

  predicate Out(o: Outs, routes: seq<Route>, i: nat)
    requires i < |routes|
  {
    i in o.attempts || Barred(o, routes[i])
  }

  /** What one executed attempt teaches the chain. */
  function Learn(o: Outs, provider: string, ran: Ran): Outs {
    var o := o.(attempts := o.attempts + ran.refused);
    if ran.err == None then o
    else if ran.err.value.providerDown || ran.err.value.skipProvider then o.(providers := o.providers + {provider})
    else if ran.err.value.pool != "" then o.(pools := o.pools + {PoolKey(provider, ran.err.value.pool)})
    else o
  }

  predicate InRange(routes: seq<Route>, trace: seq<Ran>) {
    forall i | 0 <= i < |trace| :: trace[i].index < |routes|
  }

  function Learned(routes: seq<Route>, trace: seq<Ran>): Outs
    requires InRange(routes, trace)
  {
    if trace == [] then Outs({}, {}, {})
    else
      var ran := trace[|trace| - 1];
      Learn(Learned(routes, trace[..|trace| - 1]), routes[ran.index].provider, ran)
  }

  /** A model the upstream says it no longer serves: another one may well answer. */
  predicate Gone(f: Failure) {
    f.status == 404 ||
    (f.status == 400 &&
      var m := Lower(f.message);
      || Contains(m, "no endpoints found") || Contains(m, "not a valid model")
      || Contains(m, "no allowed providers") || Contains(m, "unavailable"))
  }

  /** Does the chain go on after this failure? `retry` is the retry policy's own answer. */
  predicate GoesOn(f: Failure, retry: Failure -> bool) {
    f.providerDown || f.skipProvider || f.pool != "" || Gone(f) || f.skipModel || retry(f)
  }

  /** No candidate from `lo` up to `hi` can run. */
  ghost predicate NoneIn(o: Outs, routes: seq<Route>, lo: nat, hi: nat)
    requires hi <= |routes|
  {
    forall j | lo <= j < hi :: Out(o, routes, j)
  }

  lemma RuleOutNext(o: Outs, routes: seq<Route>, lo: nat, k: nat)
    requires k < |routes| && NoneIn(o, routes, lo, k)
    ensures NoneIn(o.(attempts := o.attempts + {k}), routes, lo, k + 1)
  {
    forall j | lo <= j < k + 1 ensures Out(o.(attempts := o.attempts + {k}), routes, j) {
      assert j < k ==> Out(o, routes, j);
    }
  }

  /** `j` is the first candidate after `i` that can run, if any can. */
  ghost predicate IsNext(o: Outs, routes: seq<Route>, i: nat, j: Option<nat>)
    requires i < |routes|
  {
    match j
    case None => NoneIn(o, routes, i + 1, |routes|)
    case Some(k) => i < k < |routes| && !Out(o, routes, k) && NoneIn(o, routes, i + 1, k)
  }

  lemma NextOrNone(o: Outs, routes: seq<Route>, i: nat, j: Option<nat>)
    requires i < |routes| && IsNext(o, routes, i, j)
    ensures j == None <==> NoneIn(o, routes, i + 1, |routes|)
  {
    if j.Some? {
      assert !Out(o, routes, j.value);
    }
  }

  /** The index after the last executed one. */
  function Reached(trace: seq<Ran>): nat {
    if trace == [] then 0 else trace[|trace| - 1].index + 1
  }

  /** The next executed attempt is a right one given everything learnt before it. */
  ghost predicate Fits(routes: seq<Route>, before: seq<Ran>, ran: Ran, retry: Failure -> bool) {
    && InRange(routes, before) && ran.index < |routes| && Reached(before) <= ran.index
    && var o := Learned(routes, before);
    && NoneIn(o, routes, Reached(before), ran.index) && !Out(o, routes, ran.index)
    && (ran.last <==> NoneIn(o, routes, ran.index + 1, |routes|))
    && (before != [] ==> before[|before| - 1].err.Some? && GoesOn(before[|before| - 1].err.value, retry))
  }

  /** What abandoning an attempt promises about the next one. */
  ghost predicate HandsOver(routes: seq<Route>, before: seq<Ran>, ran: Ran)
    requires InRange(routes, before) && ran.index < |routes|
  {
    ran.exit.Abandoned? ==>
      && !ran.last && ran.err.Some? && ran.err.value.skipModel
      && var learnt := Learn(Learned(routes, before), routes[ran.index].provider, ran);
         ran.exit.next.Some? ==> IsNext(learnt, routes, ran.index, ran.exit.next)
  }

  ghost predicate Orderly(routes: seq<Route>, trace: seq<Ran>, retry: Failure -> bool) {
    trace != [] ==>
      var n := |trace| - 1;
      && Orderly(routes, trace[..n], retry)
      && Fits(routes, trace[..n], trace[n], retry)
      && HandsOver(routes, trace[..n], trace[n])
  }

  lemma OrderlyNone(routes: seq<Route>, retry: Failure -> bool)
    ensures Orderly(routes, [], retry)
  {
  }

  lemma OrderlyExtend(routes: seq<Route>, trace: seq<Ran>, ran: Ran, retry: Failure -> bool)
    requires Orderly(routes, trace, retry) && Fits(routes, trace, ran, retry) && HandsOver(routes, trace, ran)
    ensures Orderly(routes, trace + [ran], retry) && InRange(routes, trace + [ran])
    ensures Learned(routes, trace + [ran]) == Learn(Learned(routes, trace), routes[ran.index].provider, ran)
  {
    var more := trace + [ran];
    assert more[..|more| - 1] == trace;
  }

  datatype Verdict = Served | Exhausted | Terminal | NoExecutor

  /** The verdict and the record agree. */
  ghost predicate Right(routes: seq<Route>, trace: seq<Ran>, verdict: Verdict, retry: Failure -> bool)
    requires InRange(routes, trace)
  {
    var o := Learned(routes, trace);
    var n := |trace| - 1;
    match verdict
    case Served => trace != [] && trace[n].err == None
    case Exhausted =>
      (trace != [] ==> trace[n].err.Some?) && NoneIn(o, routes, Reached(trace), |routes|)
    case Terminal =>
      && trace != [] && trace[n].err.Some? && !GoesOn(trace[n].err.value, retry)
      && !NoneIn(o, routes, Reached(trace), |routes|)
    case NoExecutor => trace == []
  }

  // ---- consequences for every record ----

  lemma {:induction false} OrderlyLast(routes: seq<Route>, trace: seq<Ran>, retry: Failure -> bool)
    requires Orderly(routes, trace, retry) && trace != []
    ensures var n := |trace| - 1;
      && Orderly(routes, trace[..n], retry) && Fits(routes, trace[..n], trace[n], retry)
      && trace[n].index < |routes| && HandsOver(routes, trace[..n], trace[n])
      && InRange(routes, trace) && trace[..n] + [trace[n]] == trace
  {
    hide Learned, Learn, IsNext, NoneIn, Out, GoesOn;
    var n := |trace| - 1;
    assert trace[..n] + [trace[n]] == trace;
  }

  lemma {:induction false} OrderlyPrefix(routes: seq<Route>, trace: seq<Ran>, retry: Failure -> bool, k: nat)
    requires Orderly(routes, trace, retry) && k <= |trace|
    ensures InRange(routes, trace) && Orderly(routes, trace[..k], retry)
    ensures k < |trace| ==> Fits(routes, trace[..k], trace[k], retry) && HandsOver(routes, trace[..k], trace[k])
    decreases |trace|
  {
    hide Orderly, Fits, HandsOver;
    if trace == [] {
      assert trace[..k] == trace;
    } else {
      var n := |trace| - 1;
      OrderlyLast(routes, trace, retry);
      if k < n {
        OrderlyPrefix(routes, trace[..n], retry, k);
        assert trace[..n][..k] == trace[..k];
      } else if k == |trace| {
        assert trace[..k] == trace;
      }
    }
  }

  /** Attempts run in order, each at most once; nothing runs after a success or after the last candidate. */
  lemma {:induction false} InOrderAndOnce(routes: seq<Route>, trace: seq<Ran>, retry: Failure -> bool, i: nat, j: nat)
    requires Orderly(routes, trace, retry) && i < j < |trace|
    ensures trace[i].index < trace[j].index
    ensures trace[i].err.Some? && GoesOn(trace[i].err.value, retry)
    ensures !trace[i].last
    decreases j
  {
    OrderlyPrefix(routes, trace, retry, j);
    OrderlyPrefix(routes, trace, retry, j - 1);
    hide Orderly, GoesOn, HandsOver;
    assert trace[..j][j - 1] == trace[j - 1];
    OutsGrow(routes, trace[..j]);
    hide Learned;
    assert trace[..j][..j - 1] == trace[..j - 1];
    if i < j - 1 {
      InOrderAndOnce(routes, trace, retry, i, j - 1);
    } else {
      assert !Out(Learned(routes, trace[..i]), routes, trace[j].index);
    }
  }

  ghost predicate Within(o: Outs, o': Outs) {
    o.providers <= o'.providers && o.pools <= o'.pools && o.attempts <= o'.attempts
  }

  lemma OutsGrow(routes: seq<Route>, trace: seq<Ran>)
    requires InRange(routes, trace) && trace != []
    ensures Within(Learned(routes, trace[..|trace| - 1]), Learned(routes, trace))
  {
  }

  ghost predicate RanAt(trace: seq<Ran>, i: nat) {
    exists k :: 0 <= k < |trace| && trace[k].index == i
  }

  /** When the chain passed over candidate `i`, going on to its k-th attempt, that candidate was already ruled out. */
  ghost predicate SkippedAt(routes: seq<Route>, trace: seq<Ran>, i: nat, k: nat)
    requires InRange(routes, trace) && i < |routes|
  {
    k < |trace| && Reached(trace[..k]) <= i < trace[k].index && Out(Learned(routes, trace[..k]), routes, i)
  }

  /** Before the point the chain has reached, every candidate ran or had been ruled out when it was passed over. */
  lemma {:induction false} PassedOver(routes: seq<Route>, trace: seq<Ran>, retry: Failure -> bool, i: nat)
    requires Orderly(routes, trace, retry) && i < Reached(trace) && i < |routes|
    ensures InRange(routes, trace)
    ensures RanAt(trace, i) || exists k :: 0 <= k < |trace| && SkippedAt(routes, trace, i, k)
    decreases |trace|
  {
    var n := |trace| - 1;
    OrderlyPrefix(routes, trace, retry, n);
    if i == trace[n].index {
      assert trace[n].index == i;
    } else if i < Reached(trace[..n]) {
      PassedOver(routes, trace[..n], retry, i);
      if RanAt(trace[..n], i) {
        var k :| 0 <= k < n && trace[..n][k].index == i;
        assert trace[k].index == i;
      } else {
        var k :| 0 <= k < n && SkippedAt(routes, trace[..n], i, k);
        assert trace[..n][..k] == trace[..k];
        assert SkippedAt(routes, trace, i, k);
      }
    } else {
      assert SkippedAt(routes, trace, i, n);
    }
  }

  lemma {:induction false} OutsGrowAlong(routes: seq<Route>, trace: seq<Ran>, k: nat)
    requires InRange(routes, trace) && k <= |trace|
    ensures Within(Learned(routes, trace[..k]), Learned(routes, trace))
    decreases |trace|
  {
    if k == |trace| {
      assert trace[..k] == trace;
    } else {
      var n := |trace| - 1;
      OutsGrowAlong(routes, trace[..n], k);
      assert trace[..n][..k] == trace[..k];
      OutsGrow(routes, trace);
    }
  }

  lemma PassedOverIsOut(routes: seq<Route>, trace: seq<Ran>, retry: Failure -> bool, i: nat)
    requires Orderly(routes, trace, retry) && i < Reached(trace) && i < |routes|
    ensures InRange(routes, trace) && (RanAt(trace, i) || Out(Learned(routes, trace), routes, i))
  {
    PassedOver(routes, trace, retry, i);
    if !RanAt(trace, i) {
      var k :| 0 <= k < |trace| && SkippedAt(routes, trace, i, k);
      OutsGrowAlong(routes, trace, k);
    }
  }

  /** "Exhausted" means every candidate ran or was ruled out; "terminal" that one was still able to run. */
  lemma VerdictMeans(routes: seq<Route>, trace: seq<Ran>, verdict: Verdict, retry: Failure -> bool)
    requires Orderly(routes, trace, retry) && InRange(routes, trace) && Right(routes, trace, verdict, retry)
    ensures verdict == Exhausted ==>
      forall i | 0 <= i < |routes| :: RanAt(trace, i) || Out(Learned(routes, trace), routes, i)
    ensures verdict == Terminal ==>
      exists i :: 0 <= i < |routes| && !RanAt(trace, i) && !Out(Learned(routes, trace), routes, i)
  {
    if verdict == Exhausted {
      forall i | 0 <= i < |routes| ensures RanAt(trace, i) || Out(Learned(routes, trace), routes, i) {
        if i < Reached(trace) {
          PassedOverIsOut(routes, trace, retry, i);
        }
      }
    } else if verdict == Terminal {
      var i :| Reached(trace) <= i < |routes| && !Out(Learned(routes, trace), routes, i);
      forall k | 0 <= k < |trace| ensures trace[k].index != i {
        if k < |trace| - 1 {
          InOrderAndOnce(routes, trace, retry, k, |trace| - 1);
        }
      }
    }
  }

  /** The very next attempt after an abandoned one is the candidate whose quota was reserved. */
  lemma HandoverIsNext(routes: seq<Route>, trace: seq<Ran>, retry: Failure -> bool, k: nat)
    requires Orderly(routes, trace, retry) && k + 1 < |trace|
    requires trace[k].exit.Abandoned? && trace[k].exit.next.Some?
    ensures trace[k + 1].index == trace[k].exit.next.value
  {
    OrderlyPrefix(routes, trace, retry, k);
    OrderlyPrefix(routes, trace, retry, k + 1);
    assert trace[..k + 1][..k] == trace[..k];
    assert trace[..k + 1][k] == trace[k];
  }

  /** An abandoned attempt that reserved a successor is never the end of the chain, whatever the verdict. */
  lemma HandoverIsTaken(routes: seq<Route>, trace: seq<Ran>, retry: Failure -> bool, verdict: Verdict)
    requires Orderly(routes, trace, retry) && InRange(routes, trace) && trace != []
    requires trace[|trace| - 1].exit.Abandoned? && trace[|trace| - 1].exit.next.Some?
    ensures !Right(routes, trace, verdict, retry)
  {
    var n := |trace| - 1;
    assert HandsOver(routes, trace[..n], trace[n]);
    assert !Out(Learned(routes, trace), routes, trace[n].exit.next.value);
  }

  // ---- what a record rules out, read off its failures ----

  /** The failure concerns the whole provider: its account or its schema. */
  predicate EndsProvider(ran: Ran) {
    ran.err.Some? && (ran.err.value.providerDown || ran.err.value.skipProvider)
  }

  /** The failure says that a shared pool of the provider is empty, and no more than that. */
  predicate EndsPool(ran: Ran, pool: string) {
    ran.err.Some? && pool != "" && ran.err.value.pool == pool && !EndsProvider(ran)
  }

  /**
   The chain has ruled out exactly: the providers on which some attempt failed as a whole, the pools some
   attempt found empty, and the candidates whose reservation some attempt was refused.
   */
  lemma {:induction false} LearnedMeans(routes: seq<Route>, trace: seq<Ran>)
    requires InRange(routes, trace)
    ensures forall p :: p in Learned(routes, trace).providers <==>
      exists i :: 0 <= i < |trace| && routes[trace[i].index].provider == p && EndsProvider(trace[i])
    ensures forall q :: q in Learned(routes, trace).pools <==>
      exists i :: 0 <= i < |trace| && trace[i].err.Some? && EndsPool(trace[i], trace[i].err.value.pool) &&
        q == routes[trace[i].index].provider + "\0" + trace[i].err.value.pool
    ensures forall k :: k in Learned(routes, trace).attempts <==> exists i :: 0 <= i < |trace| && k in trace[i].refused
  {
    if trace != [] {
      var n := |trace| - 1;
      var before := trace[..n];
      LearnedMeans(routes, before);
      assert forall i | 0 <= i < n :: before[i] == trace[i];
      ProvidersOneMore(routes, trace);
      PoolsOneMore(routes, trace);
      AttemptsOneMore(routes, trace);
    }
  }

  lemma ProvidersOneMore(routes: seq<Route>, trace: seq<Ran>)
    requires InRange(routes, trace) && trace != []
    requires var before := trace[..|trace| - 1]; forall p :: p in Learned(routes, before).providers <==>
      exists i :: 0 <= i < |before| && routes[before[i].index].provider == p && EndsProvider(before[i])
    ensures forall p :: p in Learned(routes, trace).providers <==>
      exists i :: 0 <= i < |trace| && routes[trace[i].index].provider == p && EndsProvider(trace[i])
  {
    var n := |trace| - 1;
    var before := trace[..n];
    assert forall i | 0 <= i < n :: before[i] == trace[i];
    forall p
      ensures p in Learned(routes, trace).providers <==>
        exists i :: 0 <= i < |trace| && routes[trace[i].index].provider == p && EndsProvider(trace[i])
    {
      assert p in Learned(routes, trace).providers <==>
        p in Learned(routes, before).providers || (p == routes[trace[n].index].provider && EndsProvider(trace[n]));
      if i :| 0 <= i < n && routes[before[i].index].provider == p && EndsProvider(before[i]) {
        assert routes[trace[i].index].provider == p && EndsProvider(trace[i]);
      }
    }
  }

  lemma PoolsOneMore(routes: seq<Route>, trace: seq<Ran>)
    requires InRange(routes, trace) && trace != []
    requires var before := trace[..|trace| - 1]; forall q :: q in Learned(routes, before).pools <==>
      exists i :: 0 <= i < |before| && before[i].err.Some? && EndsPool(before[i], before[i].err.value.pool) &&
        q == routes[before[i].index].provider + "\0" + before[i].err.value.pool
    ensures forall q :: q in Learned(routes, trace).pools <==>
      exists i :: 0 <= i < |trace| && trace[i].err.Some? && EndsPool(trace[i], trace[i].err.value.pool) &&
        q == routes[trace[i].index].provider + "\0" + trace[i].err.value.pool
  {
    var n := |trace| - 1;
    var before := trace[..n];
    assert forall i | 0 <= i < n :: before[i] == trace[i];
  }

  lemma AttemptsOneMore(routes: seq<Route>, trace: seq<Ran>)
    requires InRange(routes, trace) && trace != []
    requires var before := trace[..|trace| - 1];
      forall k :: k in Learned(routes, before).attempts <==> exists i :: 0 <= i < |before| && k in before[i].refused
    ensures forall k :: k in Learned(routes, trace).attempts <==> exists i :: 0 <= i < |trace| && k in trace[i].refused
  {
    var n := |trace| - 1;
    var before := trace[..n];
    assert forall i | 0 <= i < n :: before[i] == trace[i];
  }

  /**
   No attempt comes after one that ruled it out: not on a provider that failed as a whole, not on a free
   model of a provider whose free pool was found empty, and not on a candidate whose reservation was refused.
   */
  lemma NeverAfterRuledOut(routes: seq<Route>, trace: seq<Ran>, retry: Failure -> bool, i: nat, j: nat)
    requires Orderly(routes, trace, retry) && i < j < |trace|
    ensures trace[i].index < |routes| && trace[j].index < |routes|
    ensures EndsProvider(trace[i]) ==> routes[trace[j].index].provider != routes[trace[i].index].provider
    ensures EndsPool(trace[i], FREE_POOL) ==>
      !(routes[trace[j].index].provider == routes[trace[i].index].provider && IsFree(routes[trace[j].index].model))
    ensures trace[j].index !in trace[i].refused
  {
    OrderlyPrefix(routes, trace, retry, j);
    var before := trace[..j];
    LearnedMeans(routes, before);
    assert before[i] == trace[i];
    hide Orderly, Learned;
    var o := Learned(routes, before);
    assert !Out(o, routes, trace[j].index);
    if EndsProvider(trace[i]) {
      assert routes[before[i].index].provider in o.providers;
    }
    if EndsPool(trace[i], FREE_POOL) {
      assert routes[before[i].index].provider + "\0" + FREE_POOL in o.pools;
    }
    assert before[i].refused <= o.attempts;
  }

  /** Conversely a candidate that was passed over had been ruled out by an earlier failure, for one of those reasons. */
  lemma PassedOverForAReason(routes: seq<Route>, trace: seq<Ran>, retry: Failure -> bool, k: nat)
    requires Orderly(routes, trace, retry) && k < |routes| && k < Reached(trace) && !RanAt(trace, k)
    ensures InRange(routes, trace)
    ensures exists i :: 0 <= i < |trace| && RulesOut(routes, trace[i], k)
  {
    PassedOverIsOut(routes, trace, retry, k);
    LearnedMeans(routes, trace);
    hide Learned, Orderly;
    OutHasAReason(routes, trace, k);
  }

  /** This attempt's outcome rules candidate `k` out. */
  ghost predicate RulesOut(routes: seq<Route>, ran: Ran, k: nat)
    requires k < |routes| && ran.index < |routes|
  {
    || k in ran.refused
    || (EndsProvider(ran) && routes[k].provider == routes[ran.index].provider)
    || (ran.err.Some? && EndsPool(ran, ran.err.value.pool) && IsFree(routes[k].model) &&
        routes[k].provider + "\0" + FREE_POOL == routes[ran.index].provider + "\0" + ran.err.value.pool)
  }

  lemma OutHasAReason(routes: seq<Route>, trace: seq<Ran>, k: nat)
    requires InRange(routes, trace) && k < |routes| && Out(Learned(routes, trace), routes, k)
    ensures exists i :: 0 <= i < |trace| && RulesOut(routes, trace[i], k)
  {
    LearnedMeans(routes, trace);
    hide Learned;
    var o := Learned(routes, trace);
    if k in o.attempts {
      var i :| 0 <= i < |trace| && k in trace[i].refused;
      assert RulesOut(routes, trace[i], k);
    } else if routes[k].provider in o.providers {
      var i :| 0 <= i < |trace| && routes[trace[i].index].provider == routes[k].provider && EndsProvider(trace[i]);
      assert RulesOut(routes, trace[i], k);
    } else {
      var i :| 0 <= i < |trace| && trace[i].err.Some? && EndsPool(trace[i], trace[i].err.value.pool) &&
        PoolKey(routes[k].provider, FREE_POOL) == routes[trace[i].index].provider + "\0" + trace[i].err.value.pool;
      assert RulesOut(routes, trace[i], k);
    }
  }

  /** The text occurs in the message, in any case of letters. */
  ghost predicate Mentions(message: string, text: string) {
    exists i :: StandsAt(Lower(message), text, i)
  }

  /** The upstream does not know the model. */
  ghost predicate Unknown(f: Failure) {
    || f.status == 404
    || (f.status == 400 && Mentions(f.message, "no endpoints found"))
    || (f.status == 400 && Mentions(f.message, "not a valid model"))
    || (f.status == 400 && Mentions(f.message, "no allowed providers"))
    || (f.status == 400 && Mentions(f.message, "unavailable"))
  }

  lemma GoneIff(f: Failure)
    ensures Gone(f) <==> Unknown(f)
  {
    ContainsIff(Lower(f.message), "no endpoints found");
    ContainsIff(Lower(f.message), "not a valid model");
    ContainsIff(Lower(f.message), "no allowed providers");
    ContainsIff(Lower(f.message), "unavailable");
    hide Contains, Lower, StandsAt;
  }

  /** The chain goes on after a failure exactly if a rule of its own covers it or the retry policy says so. */
  lemma GoesOnIff(f: Failure, retry: Failure -> bool)
    ensures GoesOn(f, retry) <==>
      f.providerDown || f.skipProvider || f.pool != "" || f.skipModel || Unknown(f) || retry(f)
  {
    GoneIff(f);
    hide Gone, Unknown;
  }

  /**
   The chain stops with candidates left exactly on a success or on a failure that no rule of its own covers and
   that the retry policy calls final.
   */
  lemma StopsEarlyOnly(routes: seq<Route>, trace: seq<Ran>, verdict: Verdict, retry: Failure -> bool)
    requires InRange(routes, trace) && Right(routes, trace, verdict, retry) && verdict != NoExecutor
    requires !NoneIn(Learned(routes, trace), routes, Reached(trace), |routes|)
    ensures trace != []
    ensures var err := trace[|trace| - 1].err;
      err.None? ||
      var f := err.value;
      !f.providerDown && !f.skipProvider && f.pool == "" && !f.skipModel && !Unknown(f) && !retry(f)
  {
    hide NoneIn, Gone, Unknown, Learned;
    if trace != [] && trace[|trace| - 1].err.Some? {
      GoesOnIff(trace[|trace| - 1].err.value, retry);
    }
  }

  /** An exhausted free pool bars exactly that provider's free models. */
  lemma FreePoolBars(o: Outs, provider: string, r: Route, ran: Ran)
    requires ran.err.Some? && ran.err.value.pool == FREE_POOL
    requires !ran.err.value.providerDown && !ran.err.value.skipProvider
    requires !Barred(o, r)
    ensures Barred(Learn(o, provider, ran), r) <==> r.provider == provider && IsFree(r.model)
  {
    if PoolKey(r.provider, FREE_POOL) == PoolKey(provider, FREE_POOL) {
      PoolKeyInjective(r.provider, provider, FREE_POOL);
    }
  }

  lemma PoolKeyInjective(p: string, q: string, pool: string)
    requires PoolKey(p, pool) == PoolKey(q, pool)
    ensures p == q
  {
    assert |p| == |q|;
    assert PoolKey(p, pool)[..|p|] == p;
    assert PoolKey(q, pool)[..|q|] == q;
  }
}
