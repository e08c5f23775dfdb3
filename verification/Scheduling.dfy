/**
 The quota ranking on the shared ledger: the candidates that fit, interleaved by provider, from the first
 whose quota is still to be had on. That one goes out with its ticket.
 */
module Scheduling {
  import opened Base
  import opened QuotaSpec
  import opened QuotaRouting
  import opened QuotaPlanner
  import opened QuotaDesk
  import opened Ranking

  /** Who asks: the profile, each provider's credential fingerprint, and the request's estimate. */
  datatype Request = Request(profile: string, prints: string -> string, estimate: Estimate, now: int)

  function RouteOf(q: Request, c: Candidate): Route {
    Route(q.profile, c.provider, c.model)
  }

  /** The buckets listed for a candidate and the ledgers in which each was looked at. */
  datatype Inspection = Inspection(plan: Store, rs: seq<Reservation>, seen: seq<Store>)

  /** The buckets listed for a candidate and the ledger that decided on them. */
  datatype Ruling = Ruling(plan: Store, rs: seq<Reservation>, at: Store)

  /** Why a candidate was kept: its model is not cooling down and all its buckets fit. */
  ghost predicate Tested(q: Request, cfg: Settings, cooldowns: map<string, int>, c: Candidate, fits: bool,
                         i: Inspection) {
    if !Cooled(cooldowns, cfg, RouteOf(q, c), q.now) then !fits
    else
      && Sound(i.plan) && Lists(i.plan.ledger, cfg, RouteOf(q, c), q.prints(c.provider), q.estimate, i.rs)
      && Judged(fits, i.rs, i.seen, q.now)
  }

  /** Why a candidate was dropped or taken: the ledger's answer on its buckets. */
  ghost predicate Ruled(q: Request, cfg: Settings, c: Candidate, granted: bool, r: Ruling) {
    && Sound(r.plan) && Lists(r.plan.ledger, cfg, RouteOf(q, c), q.prints(c.provider), q.estimate, r.rs)
    && Closed(r.at.ledger) && (ReserveAll(r.at.ledger, r.rs, q.now).1.Some? <==> granted)
  }

  /** Tests every candidate against its cooldown and its quota. */
  method TestAll(desk: Desk, q: Request, cs: seq<Candidate>) returns (fits: seq<bool>, ghost why: seq<Inspection>)
    requires desk.Valid()
    modifies desk`clock, desk`script, desk.planner`store
    ensures desk.Valid() && |fits| == |why| == |cs|
    ensures SameHolds(old(desk.planner.store.ledger), desk.planner.store.ledger, desk.mine)
    ensures forall i | 0 <= i < |cs| :: Tested(q, desk.planner.cfg, desk.planner.cooldowns, cs[i], fits[i], why[i])
  {
    hide Sound, Issued, Lists, Judged, Cooled, CanFit, Planned;
    fits, why := [], [];
    for i := 0 to |cs|
      invariant desk.Valid() && |fits| == |why| == i
      invariant SameHolds(old(desk.planner.store.ledger), desk.planner.store.ledger, desk.mine)
      invariant forall j | 0 <= j < i :: Tested(q, desk.planner.cfg, desk.planner.cooldowns, cs[j], fits[j], why[j])
    {
      var ok := Cooled(desk.planner.cooldowns, desk.planner.cfg, RouteOf(q, cs[i]), q.now);
      ghost var plan, rs, seen := desk.planner.store, [], [];
      if ok {
        ok, plan, rs, seen := desk.Fits(RouteOf(q, cs[i]), q.prints(cs[i].provider), q.estimate, q.now);
      }
      fits, why := fits + [ok], why + [Inspection(plan, rs, seen)];
    }
  }

  /** Drops candidates from the front until one is granted its quota. */
  method TakeFirst(desk: Desk, q: Request, ranked: seq<Candidate>)
    returns (list: seq<Candidate>, ticket: Option<nat>, ghost rulings: seq<Ruling>)
    requires desk.Valid()
    modifies desk`clock, desk`script, desk`mine, desk.planner`store
    ensures desk.Valid() && SameHolds(old(desk.planner.store.ledger), desk.planner.store.ledger, old(desk.mine))
    ensures |list| <= |ranked| && list == ranked[|ranked| - |list|..]
    ensures ticket.Some? <==> list != []
    ensures ticket.None? ==> desk.mine == old(desk.mine) && |rulings| == |ranked|
    ensures ticket.Some? ==>
      Holding(desk, old(desk.mine), q, list[0], ticket.value) && |rulings| == |ranked| - |list| + 1
    ensures forall i | 0 <= i < |rulings| ::
      Ruled(q, desk.planner.cfg, ranked[i], ticket.Some? && i == |rulings| - 1, rulings[i])
  {
    hide Sound, Issued, Lists, Planned, ReserveAll, Priced, ProviderEstimate;
    rulings := [];
    list, ticket := ranked, None;
    while list != []
      invariant desk.Valid() && SameHolds(old(desk.planner.store.ledger), desk.planner.store.ledger, old(desk.mine))
      invariant desk.mine == old(desk.mine) && ticket == None
      invariant |list| <= |ranked| && list == ranked[|ranked| - |list|..] && |rulings| == |ranked| - |list|
      invariant forall i | 0 <= i < |rulings| :: Ruled(q, desk.planner.cfg, ranked[i], false, rulings[i])
    {
      ghost var plan, rs, at;
      ticket, plan, rs, at := desk.Take(RouteOf(q, list[0]), q.prints(list[0].provider), q.estimate, q.now);
      rulings := rulings + [Ruling(plan, rs, at)];
      if ticket.Some? {
        return;
      }
      list := list[1..];
    }
  }

  /** The request got one new ticket, which is outstanding and holds the candidate's estimate. */
  ghost predicate Holding(desk: Desk, before: set<nat>, q: Request, c: Candidate, t: nat)
    reads desk, desk.planner
  {
    && t !in before && desk.mine == before + {t} && t in desk.Tickets()
    && Priced(desk.Tickets()[t], ProviderEstimate(desk.planner.cfg, RouteOf(q, c), q.estimate))
  }

  /**
   Ranks the candidates and reserves the primary. `sort` may arrange the provider groups in any way. The
   list is a tail of the round robin over the candidates that fit; what was dropped was refused by the
   ledger; a list's head holds an outstanding ticket priced by its estimate, and without a list there is none.
   */
  method RankAndReserve(desk: Desk, q: Request, cs: seq<Candidate>, sort: seq<Group> -> seq<nat>)
    returns (list: seq<Candidate>, ticket: Option<nat>, ghost fits: seq<bool>, ghost why: seq<Inspection>,
             ghost groups: seq<Group>, ghost ranked: seq<Candidate>, ghost rulings: seq<Ruling>)
    requires desk.Valid() && forall gs :: IsOrder(sort(gs), |gs|)
    modifies desk`clock, desk`script, desk`mine, desk.planner`store
    ensures desk.Valid() && SameHolds(old(desk.planner.store.ledger), desk.planner.store.ledger, old(desk.mine))
    ensures |fits| == |why| == |cs|
    ensures forall i | 0 <= i < |cs| :: Tested(q, desk.planner.cfg, desk.planner.cooldowns, cs[i], fits[i], why[i])
    ensures Splits(groups, Kept(cs, fits)) && IsRoundRobin(ranked, groups)
    ensures |list| <= |ranked| && list == ranked[|ranked| - |list|..] && multiset(list) <= multiset(cs)
    ensures ticket.Some? <==> list != []
    ensures ticket.None? ==> desk.mine == old(desk.mine) && |rulings| == |ranked|
    ensures ticket.Some? ==>
      Holding(desk, old(desk.mine), q, list[0], ticket.value) && |rulings| == |ranked| - |list| + 1
    ensures forall i | 0 <= i < |rulings| ::
      Ruled(q, desk.planner.cfg, ranked[i], ticket.Some? && i == |rulings| - 1, rulings[i])
  {
    hide Splits, IsRoundRobin, Kept, Tested, Ruled, Holding, Sound, Issued, SameHolds;
    var fit;
    fit, why := TestAll(desk, q, cs);
    fits := fit;
    ghost var ledger := desk.planner.store.ledger;
    var all;
    all, groups := RoundRobin(cs, fit, sort);
    ranked := all;
    list, ticket, rulings := TakeFirst(desk, q, all);
    SameHoldsTrans(old(desk.planner.store.ledger), ledger, desk.planner.store.ledger, old(desk.mine), old(desk.mine));
    ListIsSound(cs, fits, ranked, groups, |ranked| - |list|, |groups|);
  }
}
