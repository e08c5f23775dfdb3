/**
 Admission control under interleaving. Each request takes a slot, may give it up while it waits for
 quota, takes one again, and leaves through a deferred release. `held` is the flag the request keeps;
 `slots` counts the places it really occupies, so a slot lost by the flag would show.
 */
module Admission {
  import opened Base
  import opened MapSum

  datatype Stage = Acquiring | Taken | Working | Sleeping | Reacquiring | Leaving | Done

  datatype Request = Request(at: Stage, held: bool, slots: nat)

  /** `cap` is absent when admission control is switched off. */
  datatype Gate = Gate(cap: Option<nat>, used: nat, requests: map<nat, Request>)

  datatype Step =
    | Arrive(who: nat)
    | Take(who: nat)      // the send on the semaphore succeeds
    | Note(who: nat)      // the request records that it holds a slot
    | Refuse(who: nat)    // timeout or cancellation while acquiring
    | Park(who: nat)      // release for a quota hold
    | Wake(who: nat, held: bool)
    | Resume(who: nat)    // reacquire finds the slot still held
    | Finish(who: nat)    // the deferred release

  predicate Full(g: Gate) {
    g.cap.Some? && g.used >= g.cap.value
  }

  predicate Enabled(g: Gate, s: Step) {
    if s.Arrive? then s.who !in g.requests
    else
      s.who in g.requests &&
      var r := g.requests[s.who];
      match s
      case Arrive(_) => true
      case Take(_) => (r.at.Acquiring? || (r.at.Reacquiring? && !r.held)) && !Full(g)
      case Note(_) => r.at.Taken?
      case Refuse(_) => r.at.Acquiring? || (r.at.Reacquiring? && !r.held)
      case Park(_) => r.at.Working?
      case Wake(_, _) => r.at.Sleeping?
      case Resume(_) => r.at.Reacquiring? && r.held
      case Finish(_) => r.at.Working? || r.at.Leaving?
  }

  /** Gives the slot back if the flag says one is held; otherwise nothing. */
  function Released(g: Gate, who: nat, at: Stage): Gate
    requires who in g.requests
  {
    var r := g.requests[who];
    if !r.held then g.(requests := g.requests[who := r.(at := at)])
    else if g.cap.None? then g.(requests := g.requests[who := r.(at := at, held := false)])
    else g.(used := if g.used > 0 then g.used - 1 else 0,
            requests := g.requests[who := Request(at, false, if r.slots > 0 then r.slots - 1 else 0)])
  }

  function Apply(g: Gate, s: Step): Gate
    requires Enabled(g, s)
  {
    match s
    case Arrive(who) => g.(requests := g.requests[who := Request(Acquiring, false, 0)])
    case Take(who) =>
      var r := g.requests[who];
      if g.cap.None? then g.(requests := g.requests[who := r.(at := Taken)])
      else g.(used := g.used + 1, requests := g.requests[who := r.(at := Taken, slots := r.slots + 1)])
    case Note(who) => g.(requests := g.requests[who := g.requests[who].(at := Working, held := true)])
    case Refuse(who) =>
      var r := g.requests[who];
      g.(requests := g.requests[who := r.(at := if r.at.Acquiring? then Done else Leaving)])
    case Park(who) => Released(g, who, Sleeping)
    case Wake(who, held) =>
      g.(requests := g.requests[who := g.requests[who].(at := if held then Reacquiring else Leaving)])
    case Resume(who) => g.(requests := g.requests[who := g.requests[who].(at := Working)])
    case Finish(who) => Released(g, who, Done)
  }

  /** A request occupies one place exactly while it has taken one and not given it back. */
  predicate Honest(r: Request, counted: bool) {
    && (r.held ==> r.at.Working?) && (r.at.Working? ==> r.held)
    && r.slots == if counted && (r.held || r.at.Taken?) then 1 else 0
  }

  ghost function Slots(g: Gate): map<nat, nat> {
    map w | w in g.requests :: g.requests[w].slots
  }

  ghost predicate Inv(g: Gate) {
    && (forall w | w in g.requests :: Honest(g.requests[w], g.cap.Some?))
    && g.used == Sum(Slots(g))
    && (g.cap.Some? ==> g.used <= g.cap.value)
  }

  lemma SumUpdate(m: map<nat, nat>, k: nat, v: nat)
    ensures Sum(m[k := v]) == Sum(m) - (if k in m then m[k] else 0) + v
  {
    if k in m {
      SumSplit(m, k);
      SumSplit(m[k := v], k);
      assert m[k := v] - {k} == m - {k};
    } else {
      SumAdd(m, k, v);
    }
  }

  lemma SlotsUpdate(g: Gate, who: nat, r: Request, used: nat)
    ensures Sum(Slots(g.(used := used, requests := g.requests[who := r]))) ==
      Sum(Slots(g)) - (if who in g.requests then g.requests[who].slots else 0) + r.slots
  {
    assert Slots(g.(used := used, requests := g.requests[who := r])) == Slots(g)[who := r.slots];
    SumUpdate(Slots(g), who, r.slots);
  }

  lemma StepKeeps(g: Gate, s: Step)
    requires Inv(g) && Enabled(g, s)
    ensures Inv(Apply(g, s))
  {
    var after := Apply(g, s);
    SlotsUpdate(g, s.who, after.requests[s.who], after.used);
    assert after == g.(used := after.used, requests := g.requests[s.who := after.requests[s.who]]);
    if s.who in g.requests && g.cap.Some? && g.requests[s.who].held {
      assert Slots(g)[s.who] == 1;
      SumAtLeast(Slots(g), s.who);
    }
  }

  ghost predicate IsRun(gates: seq<Gate>, steps: seq<Step>) {
    && |gates| == |steps| + 1 && gates[0].used == 0 && gates[0].requests == map[]
    && forall i | 0 <= i < |steps| :: Enabled(gates[i], steps[i]) && gates[i + 1] == Apply(gates[i], steps[i])
  }

  lemma {:induction false} CapIsFixed(gates: seq<Gate>, steps: seq<Step>, i: nat)
    requires IsRun(gates, steps) && i < |gates|
    ensures gates[i].cap == gates[0].cap
  {
    if i > 0 {
      CapIsFixed(gates, steps, i - 1);
    }
  }

  /**
   Over every interleaving: the slots in use are exactly those of the requests that have one, never more
   than the cap, and a finished request has none.
   */
  lemma {:induction false} SlotsAreExact(gates: seq<Gate>, steps: seq<Step>, i: nat)
    requires IsRun(gates, steps) && i < |gates|
    ensures Inv(gates[i]) && gates[i].used == Sum(Slots(gates[i]))
    ensures gates[0].cap.Some? ==> gates[i].used <= gates[0].cap.value
    ensures gates[0].cap.Some? ==> forall w | w in gates[i].requests ::
      gates[i].requests[w].slots == if gates[i].requests[w].held || gates[i].requests[w].at.Taken? then 1 else 0
    ensures forall w | w in gates[i].requests && gates[i].requests[w].at.Done? ::
      !gates[i].requests[w].held && gates[i].requests[w].slots == 0
  {
    CapIsFixed(gates, steps, i);
    if i > 0 {
      SlotsAreExact(gates, steps, i - 1);
      StepKeeps(gates[i - 1], steps[i - 1]);
    }
  }

  /** Once every request is done, every slot is free again. */
  lemma AllDoneFreesAll(gates: seq<Gate>, steps: seq<Step>)
    requires IsRun(gates, steps)
    requires forall w | w in gates[|steps|].requests :: gates[|steps|].requests[w].at.Done?
    ensures gates[|steps|].used == 0
  {
    var g := gates[|steps|];
    SlotsAreExact(gates, steps, |steps|);
    SumZero(Slots(g));
  }

  // ---- the hold loop ----

  const SETTLE := 150_000_000

  /**
   What one pass of the gate meets: no candidate's context is large enough; something can be dispatched; the
   wait for quota; how long the hold lasted; how late its timer fired; whether it was held out; whether a slot
   was to be had afterwards.
   */
  datatype Round = Round(oversized: bool, available: bool, eligible: bool, wait: int, slept: nat, late: nat,
                         held: bool, readmitted: bool)

  /**
   A hold lasts its wait plus the settle interval, and as long again as its timer is late; one that fails may
   end sooner.
   */
  ghost predicate Timely(r: Round) {
    r.wait > 0 ==> r.slept <= r.wait + SETTLE + r.late && (r.held ==> r.slept == r.wait + SETTLE + r.late)
  }

  datatype Ending = Dispatched | TooLarge | CoolingDown | NoSlot

  /** What is left of the budget after the first `n` holds, each charged its wait and a settle interval. */
  ghost function Left(budget: int, rounds: nat -> Round, n: nat): int {
    if n == 0 then budget else Left(budget, rounds, n - 1) - (rounds(n - 1).wait + SETTLE)
  }

  /** How long the first `n` holds lasted, and how late their timers were. */
  ghost function Slept(rounds: nat -> Round, n: nat): nat {
    if n == 0 then 0 else Slept(rounds, n - 1) + rounds(n - 1).slept
  }

  ghost function Late(rounds: nat -> Round, n: nat): nat {
    if n == 0 then 0 else Late(rounds, n - 1) + rounds(n - 1).late
  }

  /** Quota is all that is missing, and the wait for it is known and affordable. */
  predicate WorthHolding(r: Round, left: int) {
    !r.oversized && !r.available && r.eligible && 0 < r.wait <= left
  }

  /**
   How the gate ends in a round: too large, dispatched, held out but without a slot, or else cooling down, because
   quota is not all that is missing, its wait is unknown or not affordable, or the hold failed.
   */
  ghost predicate Ends(r: Round, left: int, ending: Ending) {
    && (ending.TooLarge? <==> r.oversized)
    && (ending.Dispatched? <==> !r.oversized && r.available)
    && (ending.NoSlot? <==> WorthHolding(r, left) && r.held && !r.readmitted)
    && (ending.CoolingDown? ==>
          !r.oversized && !r.available && (!r.eligible || r.wait <= 0 || r.wait > left || !r.held))
  }

  /** The first `n` rounds were all worth holding, were held out, and gave a slot again. */
  ghost predicate Held(budget: int, rounds: nat -> Round, n: nat) {
    forall i | 0 <= i < n ::
      WorthHolding(rounds(i), Left(budget, rounds, i)) && rounds(i).held && rounds(i).readmitted
  }

  lemma NoneHeld(budget: int, rounds: nat -> Round)
    ensures Left(budget, rounds, 0) == budget && Slept(rounds, 0) == 0 && Late(rounds, 0) == 0
    ensures Held(budget, rounds, 0)
  {
  }

  lemma OneMoreHeld(budget: int, rounds: nat -> Round, n: nat)
    ensures Left(budget, rounds, n + 1) == Left(budget, rounds, n) - (rounds(n).wait + SETTLE)
    ensures Slept(rounds, n + 1) == Slept(rounds, n) + rounds(n).slept
    ensures Late(rounds, n + 1) == Late(rounds, n) + rounds(n).late
  {
  }

  lemma HeldOnceMore(budget: int, rounds: nat -> Round, n: nat)
    requires Held(budget, rounds, n) && WorthHolding(rounds(n), Left(budget, rounds, n))
    requires rounds(n).held && rounds(n).readmitted
    ensures Held(budget, rounds, n + 1)
  {
    hide Left;
  }

  lemma {:induction false} HeldWithinBudget(budget: int, rounds: nat -> Round, n: nat)
    requires Held(budget, rounds, n) && forall i :: Timely(rounds(i))
    ensures Slept(rounds, n) == budget - Left(budget, rounds, n) + Late(rounds, n)
    ensures n > 0 ==> -SETTLE <= Left(budget, rounds, n)
    ensures n * (SETTLE + 1) <= budget - Left(budget, rounds, n)
  {
    hide Left, Slept, Late;
    if n == 0 {
      NoneHeld(budget, rounds);
    } else {
      HeldWithinBudget(budget, rounds, n - 1);
      OneMoreHeld(budget, rounds, n - 1);
      assert Timely(rounds(n - 1));
    }
  }

  /** The time parked, not counting late timers, exceeds the budget by at most one settle interval. */
  ghost predicate WithinBudget(budget: int, passes: nat, parked: nat, late: nat) {
    parked <= Max(0, budget + SETTLE) + late && passes * (SETTLE + 1) <= Max(0, budget + SETTLE)
  }

  /** However the last hold ended, the time parked stays within the budget. */
  lemma ParkedWithinBudget(budget: int, rounds: nat -> Round, n: nat)
    requires Held(budget, rounds, n) && forall i :: Timely(rounds(i))
    ensures WithinBudget(budget, n, Slept(rounds, n), Late(rounds, n))
    ensures WorthHolding(rounds(n), Left(budget, rounds, n)) ==>
      WithinBudget(budget, n, Slept(rounds, n + 1), Late(rounds, n + 1))
  {
    hide Left, Slept, Late, Held;
    HeldWithinBudget(budget, rounds, n);
    OneMoreHeld(budget, rounds, n);
    assert Timely(rounds(n));
    if n == 0 {
      NoneHeld(budget, rounds);
    }
  }

  /** The request's own view of its slot. */
  class Hold {
    var held: bool
    var occupied: nat   // places taken in the semaphore and not given back

    constructor ()
      ensures !held && occupied == 0
    {
      held, occupied := false, 0;
    }

    ghost predicate Valid()
      reads this
    {
      occupied == if held then 1 else 0
    }

    /** `admitted` is the outcome of the wait for a place. */
    method Acquire(admitted: bool) returns (ok: bool)
      requires Valid() && !held
      modifies this
      ensures Valid() && ok == held == admitted
    {
      if !admitted {
        return false;
      }
      occupied := occupied + 1;
      held := true;
      return true;
    }

    method Release()
      requires Valid()
      modifies this
      ensures Valid() && !held
    {
      if held {
        held := false;
        occupied := occupied - 1;
      }
    }

    method Reacquire(admitted: bool) returns (ok: bool)
      requires Valid()
      modifies this
      ensures Valid() && ok == held == (old(held) || admitted)
    {
      if held {
        return true;
      }
      ok := Acquire(admitted);
    }

    /** One pass of the gate. `None` means that it was held out and there is a slot again. */
    method TryRound(r: Round, left: int) returns (ending: Option<Ending>)
      requires Valid() && held
      modifies this
      ensures Valid()
      ensures ending.None? <==> WorthHolding(r, left) && r.held && r.readmitted
      ensures ending.None? ==> held
      ensures ending.Some? ==> Ends(r, left, ending.value) && (held <==> !WorthHolding(r, left))
    {
      if r.oversized {
        return Some(TooLarge);
      }
      if r.available {
        return Some(Dispatched);
      }
      if r.eligible && r.wait > 0 && r.wait <= left {
        Release();
        if r.held {
          var ok := Reacquire(r.readmitted);
          if !ok {
            return Some(NoSlot);
          }
          return None;
        }
      }
      return Some(CoolingDown);
    }

    /**
     The gate of a request that already has a slot: park while quota is short, as long as the budget
     allows. It holds exactly the rounds that are worth it; it ends for every stream of rounds, and the time
     parked, not counting late timers, never exceeds the budget by more than one settle interval.
     */
    method PassGate(budget: int, rounds: nat -> Round) returns (ending: Ending, parked: nat, late: nat, passes: nat)
      requires Valid() && held
      requires forall n :: Timely(rounds(n))
      modifies this
      ensures Valid()
      ensures Held(budget, rounds, passes) && Ends(rounds(passes), Left(budget, rounds, passes), ending)
      ensures held <==> !WorthHolding(rounds(passes), Left(budget, rounds, passes))
      ensures var n := if WorthHolding(rounds(passes), Left(budget, rounds, passes)) then passes + 1 else passes;
        parked == Slept(rounds, n) && late == Late(rounds, n)
      ensures WithinBudget(budget, passes, parked, late)
    {
      hide Left, Slept, Late, Held, WithinBudget, Ends, Timely;
      var left := budget;
      parked, late, passes := 0, 0, 0;
      NoneHeld(budget, rounds);
      while true
        invariant Valid() && held && left == Left(budget, rounds, passes) && Held(budget, rounds, passes)
        invariant parked == Slept(rounds, passes) && late == Late(rounds, passes)
        decreases left + SETTLE
      {
        var r := rounds(passes);
        ParkedWithinBudget(budget, rounds, passes);
        OneMoreHeld(budget, rounds, passes);
        var end := TryRound(r, left);
        if r.eligible && !r.oversized && !r.available && 0 < r.wait <= left {
          parked, late := parked + r.slept, late + r.late;
        }
        if end.Some? {
          return end.value, parked, late, passes;
        }
        HeldOnceMore(budget, rounds, passes);
        left := left - (r.wait + SETTLE);
        passes := passes + 1;
      }
    }
  }
}
