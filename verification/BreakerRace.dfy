/**
 * Many callers on one circuit. A caller first looks under the read lock and,
 * when the circuit is half open, decides under the write lock later; between the
 * two sections anything may happen. This is the machine of all interleavings.
 */
module BreakerRace {
  import opened Base
  import Scoring
  import opened Breaker

  datatype Phase =
    | Undecided              // looked, found the circuit half open, waits for the write lock
    | Refused
    | Running(probe: bool)   // admitted; `probe` when it claimed a half-open circuit
    | Settled                // has reported an outcome

  datatype World = World(circuit: Option<Scoring.State>, callers: map<nat, Phase>, holder: Option<nat>)

  datatype Step =
    | Look(who: nat, now: int)
    | Lock(who: nat, now: int)
    | Report(who: nat, now: int, outcome: Call, threshold: int)

  /** Instants never run backwards. Whoever was admitted reports at least once; it may report again. */
  ghost predicate Enabled(w: World, s: Step) {
    match s
    case Look(c, _) => c !in w.callers
    case Lock(c, _) => c in w.callers && w.callers[c].Undecided?
    case Report(c, _, x, threshold) =>
      c in w.callers && (w.callers[c].Running? || w.callers[c].Settled?) && Sane(x) && !x.Start?
  }

  function Decided(ok: bool, probe: bool): Phase {
    if ok then Running(probe) else Refused
  }

  ghost function Do(w: World, s: Step, ttl: int): World
    requires Enabled(w, s)
  {
    match s
    case Look(c, now) =>
      var seen := Peek(w.circuit, now);
      w.(callers := w.callers[c := if seen.None? then Undecided else Decided(seen.value, false)])
    case Lock(c, now) =>
      var (circuit, ok) := Claim(w.circuit, now, ttl);
      var probe := ok && !Closed(w.circuit);
      World(circuit, w.callers[c := Decided(ok, probe)], if probe then Some(c) else w.holder)
    case Report(c, _, x, threshold) =>
      World(Next(w.circuit, x, threshold, ttl), w.callers[c := Settled], None)
  }

  /** A run: worlds[0] is the start and each step leads from one world to the next. */
  ghost predicate IsRun(worlds: seq<World>, steps: seq<Step>, ttl: int) {
    && |worlds| == |steps| + 1
    && (forall i :: 0 <= i < |steps| ==> Enabled(worlds[i], steps[i]))
    && (forall i :: 0 <= i < |steps| ==> worlds[i + 1] == Do(worlds[i], steps[i], ttl))
    && (forall i, j :: 0 <= i <= j < |steps| ==> steps[i].now <= steps[j].now)
  }

  lemma RunPrefix(worlds: seq<World>, steps: seq<Step>, ttl: int)
    requires IsRun(worlds, steps, ttl) && |steps| > 0
    ensures IsRun(worlds[..|steps|], steps[..|steps| - 1], ttl)
  {
  }

  // ---- Single flight ----

  /** Step i let a caller through a half-open circuit. */
  ghost predicate ProbeGranted(worlds: seq<World>, steps: seq<Step>, i: nat, ttl: int)
    requires i < |steps| < |worlds|
  {
    steps[i].Lock? && !Closed(worlds[i].circuit) && Claim(worlds[i].circuit, steps[i].now, ttl).1
  }

  ghost predicate NoReport(steps: seq<Step>, i: nat, j: nat)
    requires j <= |steps|
  {
    forall k :: i <= k < j ==> !steps[k].Report?
  }

  lemma {:induction false} ClaimStands(worlds: seq<World>, steps: seq<Step>, ttl: int, i: nat, j: nat)
    requires IsRun(worlds, steps, ttl) && i < j <= |steps| && ttl > 0
    requires ProbeGranted(worlds, steps, i, ttl) && NoReport(steps, i, j)
    ensures worlds[j].circuit.Some? && worlds[j].circuit.value.probeUntil >= steps[i].now + ttl
    ensures worlds[j].circuit.value.openUntil == worlds[i].circuit.value.openUntil
    decreases j
  {
    assert worlds[j] == Do(worlds[j - 1], steps[j - 1], ttl);
    if j > i + 1 {
      ClaimStands(worlds, steps, ttl, i, j - 1);
    }
  }

  /** Two callers let through a half-open circuit with no outcome between them are a full time-to-live apart. */
  lemma ProbesAreApart(worlds: seq<World>, steps: seq<Step>, ttl: int, i: nat, j: nat)
    requires IsRun(worlds, steps, ttl) && i < j < |steps| && ttl > 0
    requires ProbeGranted(worlds, steps, i, ttl) && ProbeGranted(worlds, steps, j, ttl)
    requires NoReport(steps, i, j)
    ensures steps[j].now >= steps[i].now + ttl
  {
    ClaimStands(worlds, steps, ttl, i, j);
  }

  // ---- Recovery is never blocked by the departed ----

  ghost predicate Start(w: World) {
    w.callers == map[] && w.holder == None && Known(w.circuit).probeUntil == 0
  }

  ghost predicate Inv(w: World) {
    Known(w.circuit).probeUntil != 0 ==>
      w.holder.Some? && w.holder.value in w.callers && w.callers[w.holder.value] == Running(true)
  }

  lemma OutcomeClearsProbe(c: Option<Scoring.State>, x: Call, threshold: int, ttl: int)
    requires Sane(x) && !x.Start?
    ensures Known(Next(c, x, threshold, ttl)).probeUntil == 0
  {
  }

  lemma StepKeepsInv(w: World, s: Step, ttl: int)
    requires Enabled(w, s) && Inv(w)
    ensures Inv(Do(w, s, ttl))
  {
    if s.Report? {
      OutcomeClearsProbe(w.circuit, s.outcome, s.threshold, ttl);
    }
  }

  lemma {:induction false} RunKeepsInv(worlds: seq<World>, steps: seq<Step>, ttl: int)
    requires IsRun(worlds, steps, ttl) && Start(worlds[0])
    ensures Inv(worlds[|steps|])
    decreases |steps|
  {
    if |steps| > 0 {
      var n := |steps| - 1;
      RunPrefix(worlds, steps, ttl);
      RunKeepsInv(worlds[..|steps|], steps[..n], ttl);
      assert worlds[..|steps|][|steps[..n]|] == worlds[n];
      assert worlds[|steps|] == Do(worlds[n], steps[n], ttl);
      StepKeepsInv(worlds[n], steps[n], ttl);
    }
  }

  /**
   In every reachable world, once everyone who was admitted has reported, no claim is left, and the
   next caller after the cooldown is let through.
   */
  lemma DepartedNeverBlock(worlds: seq<World>, steps: seq<Step>, ttl: int, now: int)
    requires IsRun(worlds, steps, ttl) && Start(worlds[0])
    requires forall c :: c in worlds[|steps|].callers ==> !worlds[|steps|].callers[c].Running?
    ensures Known(worlds[|steps|].circuit).probeUntil == 0
    ensures now >= 0 && now >= Known(worlds[|steps|].circuit).openUntil ==> Claim(worlds[|steps|].circuit, now, ttl).1
  {
    RunKeepsInv(worlds, steps, ttl);
  }

  // ---- Two lock sections answer like one ----

  /** The protocol under one lock: each try is decided at once. */
  datatype Op = Try(who: nat, now: int) | Effect(outcome: Call, threshold: int)

  datatype Trace = Trace(circuit: Option<Scoring.State>, answers: seq<(nat, bool)>)

  ghost predicate Legal(ops: seq<Op>) {
    forall i :: 0 <= i < |ops| ==> ops[i].Effect? ==> Sane(ops[i].outcome)
  }

  ghost function Perform(t: Trace, op: Op, ttl: int): Trace
    requires op.Effect? ==> Sane(op.outcome)
  {
    match op
    case Try(who, now) =>
      var (circuit, ok) := Claim(t.circuit, now, ttl);
      Trace(circuit, t.answers + [(who, ok)])
    case Effect(x, threshold) => t.(circuit := Next(t.circuit, x, threshold, ttl))
  }

  ghost function OneLock(c: Option<Scoring.State>, ops: seq<Op>, ttl: int): Trace
    requires Legal(ops)
  {
    if ops == [] then Trace(c, []) else Perform(OneLock(c, ops[..|ops| - 1], ttl), ops[|ops| - 1], ttl)
  }

  lemma OneLockMore(c: Option<Scoring.State>, ops: seq<Op>, op: Op, ttl: int)
    requires Legal(ops) && (op.Effect? ==> Sane(op.outcome))
    ensures Legal(ops + [op]) && OneLock(c, ops + [op], ttl) == Perform(OneLock(c, ops, ttl), op, ttl)
  {
    assert (ops + [op])[..|ops|] == ops;
  }

  /** What a step of the two-section protocol answers, if it decides. */
  function Answer(w: World, s: Step, ttl: int): seq<(nat, bool)> {
    match s
    case Look(c, now) => var seen := Peek(w.circuit, now); if seen.None? then [] else [(c, seen.value)]
    case Lock(c, now) => [(c, Claim(w.circuit, now, ttl).1)]
    case Report(_, _, _, _) => []
  }

  function Effective(w: World, s: Step): seq<Op> {
    match s
    case Look(c, now) => if Peek(w.circuit, now).None? then [] else [Try(c, now)]
    case Lock(c, now) => [Try(c, now)]
    case Report(_, _, x, threshold) => [Effect(x, threshold)]
  }

  ghost function Answers(worlds: seq<World>, steps: seq<Step>, ttl: int): seq<(nat, bool)>
    requires |steps| < |worlds|
  {
    if steps == [] then []
    else
      var n := |steps| - 1;
      Answers(worlds, steps[..n], ttl) + Answer(worlds[n], steps[n], ttl)
  }

  ghost function Ops(worlds: seq<World>, steps: seq<Step>): seq<Op>
    requires |steps| < |worlds|
  {
    if steps == [] then []
    else
      var n := |steps| - 1;
      Ops(worlds, steps[..n]) + Effective(worlds[n], steps[n])
  }

  lemma {:induction false} EffectMatches(w: World, s: Step, c0: Option<Scoring.State>, ops: seq<Op>, ttl: int)
    requires Enabled(w, s) && Legal(ops) && OneLock(c0, ops, ttl).circuit == w.circuit
    ensures Legal(ops + Effective(w, s))
    ensures OneLock(c0, ops + Effective(w, s), ttl) == Trace(
      Do(w, s, ttl).circuit, OneLock(c0, ops, ttl).answers + Answer(w, s, ttl))
  {
    hide OneLock, Legal, Next, Sane;
    var more := Effective(w, s);
    if more == [] {
      assert ops + more == ops;
      assert Answer(w, s, ttl) == [] && OneLock(c0, ops, ttl).answers + [] == OneLock(c0, ops, ttl).answers;
    } else {
      OneLockMore(c0, ops, more[0], ttl);
      assert more == [more[0]];
    }
  }

  /**
   Refinement: dropping the looks that decided nothing turns every run into a run of the one-lock
   protocol with the same answers in the same order and the same final circuit.
   */
  lemma {:induction false} TwoSectionsActAsOne(worlds: seq<World>, steps: seq<Step>, n: nat, ttl: int)
    requires IsRun(worlds, steps, ttl) && n <= |steps|
    ensures Legal(Ops(worlds, steps[..n]))
    ensures OneLock(worlds[0].circuit, Ops(worlds, steps[..n]), ttl)
      == Trace(worlds[n].circuit, Answers(worlds, steps[..n], ttl))
    decreases n
  {
    if n > 0 {
      TwoSectionsActAsOne(worlds, steps, n - 1, ttl);
      assert steps[..n][..n - 1] == steps[..n - 1];
      assert worlds[n] == Do(worlds[n - 1], steps[n - 1], ttl);
      EffectMatches(worlds[n - 1], steps[n - 1], worlds[0].circuit, Ops(worlds, steps[..n - 1]), ttl);
    }
  }

  // ---- callers that report ----

  /** What a caller reported, in order. */
  ghost function ReportsOf(steps: seq<Step>, c: nat): seq<Call> {
    if steps == [] then []
    else
      var n := |steps| - 1;
      ReportsOf(steps[..n], c) + (if steps[n].Report? && steps[n].who == c then [steps[n].outcome] else [])
  }

  /** A caller that is still running was let in and has reported nothing. */
  lemma {:induction false} RunningIsSilent(worlds: seq<World>, steps: seq<Step>, ttl: int, n: nat, c: nat)
    requires IsRun(worlds, steps, ttl) && Start(worlds[0]) && n <= |steps|
    ensures c !in worlds[n].callers || worlds[n].callers[c].Undecided? || worlds[n].callers[c].Running? ==>
      ReportsOf(steps[..n], c) == []
    ensures c in worlds[n].callers && worlds[n].callers[c].Running? ==> (c, true) in Answers(worlds, steps[..n], ttl)
    decreases n
  {
    if n > 0 {
      RunningIsSilent(worlds, steps, ttl, n - 1, c);
      assert steps[..n][..n - 1] == steps[..n - 1];
      assert worlds[n] == Do(worlds[n - 1], steps[n - 1], ttl);
    }
  }

  /** One caller's part: the calls it logged on the circuit while it was at work. */
  datatype Story = Story(was: Log, now: Log)

  ghost function Outcomes(log: Log): seq<Call> {
    seq(|log|, i requires 0 <= i < |log| => log[i].1)
  }

  /** The caller's log is what it did in the run: one question, then its reports, at least one if let in. */
  ghost predicate Tells(story: Story, key: string, worlds: seq<World>, steps: seq<Step>, ttl: int, c: nat)
    requires |steps| < |worlds|
  {
    && Diligent(story.was, story.now, key, (c, true) in Answers(worlds, steps, ttl))
    && ReportsOf(steps, c) == Outcomes(story.now[|story.was| + 1..])
  }

  /**
   Attempts as callers. If every caller on a circuit is an attempt that has finished, whatever the
   interleaving and whatever their replies, no claim is left and the next caller is let through.
   */
  lemma FinishedAttemptsNeverBlock(worlds: seq<World>, steps: seq<Step>, ttl: int, key: string,
                                   stories: map<nat, Story>, now: int)
    requires IsRun(worlds, steps, ttl) && Start(worlds[0])
    requires forall c | c in worlds[|steps|].callers :: c in stories && Tells(stories[c], key, worlds, steps, ttl, c)
    ensures Known(worlds[|steps|].circuit).probeUntil == 0
    ensures now >= 0 && now >= Known(worlds[|steps|].circuit).openUntil ==> Claim(worlds[|steps|].circuit, now, ttl).1
  {
    forall c | c in worlds[|steps|].callers ensures !worlds[|steps|].callers[c].Running? {
      RunningIsSilent(worlds, steps, ttl, |steps|, c);
      assert steps[..|steps|] == steps;
      var story := stories[c];
      assert Tells(story, key, worlds, steps, ttl, c);
      assert |Outcomes(story.now[|story.was| + 1..])| == |story.now| - |story.was| - 1;
    }
    DepartedNeverBlock(worlds, steps, ttl, now);
  }
}
